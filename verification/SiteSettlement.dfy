/** What settling a battle keeps, and who gets what. */
module SiteSettlement {
  import opened Battle
  import opened Site
  import opened SiteBattles
  import opened Wrappers

  // ----- nonces and rolls

  lemma TurnKeeps(s: State, digest: Digest, k: nat, u: nat, seed: nat, ids: seq<nat>, views: seq<Case>)
    requires IsDigest(digest) && ValidCases(views) && |ids| == |views| && k < |s.battles| && s.battles[k].rounds == |ids|
    requires u < |s.users| && s.users[u].clientSeed.Some? && seed < |s.seeds| && s.seeds[seed].user == u
    requires SeedsOk(|s.users|, s.seeds) && NoncesOk(s.seeds, s.rows) && RowsOk(s.seeds, s.rows, digest)
    ensures var p := PlayOne(s, digest, k, u, seed, ids, views);
            SeedsOk(|p.users|, p.seeds) && NoncesOk(p.seeds, p.rows) && RowsOk(p.seeds, p.rows, digest)
  {
    hide IsDigest, ValidCase, RollAll, DropRow, ComputeRoll, NoncesOk, SeedsOk, RowsOk;
    var client, first := s.users[u].clientSeed.value, s.seeds[seed].nonce + 1;
    var block := RollAll(digest, u, seed, client, first, ids, views, Some(k));
    RollAllIs(digest, u, seed, client, first, ids, views, Some(k));
    ReservedKeepsSeeds(|s.users|, s.seeds, seed, |ids|);
    BlockKeepsNonces(s.seeds, s.rows, seed, block);
    forall i | 0 <= i < |block| ensures RowOk(block[i], s.seeds, digest) {
      DropRowOk(digest, u, seed, client, first + i, ids[i], views[i], RoundOf(Some(k), i + 1), s.seeds);
    }
    BlockKeepsRows(s.seeds, s.rows, seed, block, digest);
  }

  lemma DropRowOk(digest: Digest, u: nat, seed: nat, client: nat, nonce: nat, caseId: nat, c: Case, battle: Option<BattleRound>, seeds: seq<Seed>)
    requires IsDigest(digest) && ValidCase(c) && seed < |seeds| && seeds[seed].user == u
    ensures RowOk(DropRow(digest, u, seed, client, nonce, caseId, c, battle), seeds, digest)
  {
  }

  /** As many rows as nonces reserved, for every player: the counters stay exact through a whole battle. */
  lemma {:induction false} PlayKeeps(s: State, digest: Digest, k: nat, seats: seq<Seat>, ids: seq<nat>, views: seq<Case>)
    requires IsDigest(digest) && ValidCases(views) && |ids| == |views| && k < |s.battles| && s.battles[k].rounds == |ids|
    requires forall i :: 0 <= i < |seats| ==> seats[i].user < |s.users|
    requires PlaySeats(s, digest, k, seats, ids, views).Ok?
    requires SeedsOk(|s.users|, s.seeds) && NoncesOk(s.seeds, s.rows) && RowsOk(s.seeds, s.rows, digest)
    ensures var p := PlaySeats(s, digest, k, seats, ids, views).value;
            SeedsOk(|p.users|, p.seeds) && NoncesOk(p.seeds, p.rows) && RowsOk(p.seeds, p.rows, digest)
    decreases |seats|
  {
    if seats != [] {
      var u := seats[0].user;
      var seed := ActiveSeed(s.seeds, u).value;
      var next := PlayOne(s, digest, k, u, seed, ids, views);
      assert next.users == s.users && next.battles == s.battles;
      assert PlaySeats(s, digest, k, seats, ids, views) == PlaySeats(next, digest, k, seats[1..], ids, views);
      hide IsDigest, ValidCases, PlayOne, PlaySeats, NoncesOk, SeedsOk, RowsOk;
      TurnKeeps(s, digest, k, u, seed, ids, views);
      PlayKeeps(next, digest, k, seats[1..], ids, views);
    }
  }

  // ----- the totals

  lemma {:induction false} SumOfConcat(a: seq<int>, b: seq<int>)
    ensures SumOf(a + b) == SumOf(a) + SumOf(b)
  {
    if b == [] {
      assert a + b == a;
    } else {
      SumOfConcat(a, b[..|b| - 1]);
      assert (a + b)[..|a + b| - 1] == a + b[..|b| - 1];
    }
  }

  /** The drops of a list of players, added up. */
  function SumOfPlayers(seats: seq<Seat>, drops: seq<Row>): int {
    if seats == [] then 0
    else SumOfPlayers(seats[..|seats| - 1], drops) + SumOf(DropsOf(drops, seats[|seats| - 1].user))
  }

  lemma SeatedOnce(seats: seq<Seat>)
    requires seats != [] && forall i, j :: 0 <= i < j < |seats| ==> seats[i].user != seats[j].user
    ensures !SeatedAmong(seats[..|seats| - 1], seats[|seats| - 1].user)
  {
  }

  lemma {:induction false} OneMoreDrop(seats: seq<Seat>, drops: seq<Row>)
    requires drops != [] && drops[|drops| - 1].purpose.Opening?
    requires forall i, j :: 0 <= i < j < |seats| ==> seats[i].user != seats[j].user
    ensures var n, d := |drops| - 1, drops[|drops| - 1];
            SumOfPlayers(seats, drops)
            == SumOfPlayers(seats, drops[..n]) + (if SeatedAmong(seats, d.user) then d.purpose.itemPrice else 0)
  {
    if seats != [] {
      var m := |seats| - 1;
      var n, d := |drops| - 1, drops[|drops| - 1];
      OneMoreDrop(seats[..m], drops);
      SeatedAmongGrows(seats, d.user);
      SumOfConcat(DropsOf(drops[..n], seats[m].user), if d.user == seats[m].user then [d.purpose.itemPrice] else []);
      assert [d.purpose.itemPrice][..0] == [];
      assert SumOf([d.purpose.itemPrice]) == d.purpose.itemPrice;
      SeatedOnce(seats);
    }
  }

  lemma {:induction false} NoDropsNoSum(seats: seq<Seat>)
    ensures SumOfPlayers(seats, []) == 0
  {
    if seats != [] {
      NoDropsNoSum(seats[..|seats| - 1]);
    }
  }

  /** Every drop counts for exactly one seat, so the seats' totals are everything that dropped. */
  lemma {:induction false} SeatsTotalEverything(seats: seq<Seat>, drops: seq<Row>)
    requires forall i, j :: 0 <= i < j < |seats| ==> seats[i].user != seats[j].user
    requires forall i :: 0 <= i < |drops| ==> drops[i].purpose.Opening? && SeatedAmong(seats, drops[i].user)
    ensures SumOfPlayers(seats, drops) == DropTotal(drops)
  {
    if drops == [] {
      NoDropsNoSum(seats);
    } else {
      hide SeatedAmong, DropsOf, SumOf;
      SeatsTotalEverything(seats, drops[..|drops| - 1]);
      OneMoreDrop(seats, drops);
    }
  }

  lemma {:induction false} TotalsAreSums(seats: seq<Seat>, scored: seq<Seat>, drops: seq<Row>)
    requires |seats| == |scored|
    requires forall i :: 0 <= i < |seats| ==> scored[i].total == SumOf(DropsOf(drops, seats[i].user))
    ensures SumTotals(scored) == SumOfPlayers(seats, drops)
  {
    if seats != [] {
      TotalsAreSums(seats[..|seats| - 1], scored[..|seats| - 1], drops);
    }
  }

  // ----- the winner

  lemma TopBeatsAll(b: BattleRow, drops: seq<Row>, i: nat)
    requires b.seats != [] && forall j :: 0 <= j < |b.seats| ==> b.seats[j].slot == j + 1
    requires i < |b.seats|
    ensures var k := WinningSeat(b, drops);
            BeatsOrTies(b.mode, SumOf(DropsOf(drops, b.seats[k].user)), SumOf(DropsOf(drops, b.seats[i].user)))
  {
    hide SumOf, DropsOf, SortedScores;
    var tallies := TalliesOf(b.seats, drops);
    StandingsAreRanked(tallies, b.mode);
    TopIsASeat(b, drops);
    var s := Standings(tallies, b.mode);
    assert tallies[i] in tallies;
    var j :| 0 <= j < |s| && s[j].score == ScoreOf(tallies[i], b.mode);
    if j > 0 {
      assert OrderOf(b.mode)(s[0].score, s[j].score);
    }
  }

  /** Whoever wins outranks every other seat: on the total, then on one drop, then by the earlier seat. */
  lemma WinnerOutranksAll(b: BattleRow, drops: seq<Row>, i: nat, x: int, y: int)
    requires b.seats != [] && forall j :: 0 <= j < |b.seats| ==> b.seats[j].slot == j + 1
    requires i < |b.seats| && i != WinningSeat(b, drops)
    requires IsDecidingDrop(DropsOf(drops, b.seats[WinningSeat(b, drops)].user), b.mode, x)
    requires IsDecidingDrop(DropsOf(drops, b.seats[i].user), b.mode, y)
    ensures var k := WinningSeat(b, drops);
            Outranks(b.mode, SumOf(DropsOf(drops, b.seats[k].user)), x, k + 1, SumOf(DropsOf(drops, b.seats[i].user)), y, i + 1)
  {
    hide SumOf, DropsOf, Standings, WinningSeat, IsDecidingDrop, Outranks, PlacedAt;
    TopIsWinner(b, drops);
    TopOutranks(TalliesOf(b.seats, drops), b.mode, WinningSeat(b, drops), i, x, y);
  }

  lemma TopIsWinner(b: BattleRow, drops: seq<Row>)
    requires b.seats != [] && forall j :: 0 <= j < |b.seats| ==> b.seats[j].slot == j + 1
    ensures PlacedAt(Standings(TalliesOf(b.seats, drops), b.mode), 0, WinningSeat(b, drops) + 1)
    ensures DistinctSlots(TalliesOf(b.seats, drops))
    ensures TalliesOf(b.seats, drops)[WinningSeat(b, drops)].slot == WinningSeat(b, drops) + 1
  {
    hide SumOf, DropsOf, Standings;
    TopIsASeat(b, drops);
  }

  lemma FinishedIsSettled(b: BattleRow, drops: seq<Row>, users: nat)
    requires SeatsOk(b, users)
    requires forall i :: 0 <= i < |drops| ==> drops[i].purpose.Opening? && SeatedAmong(b.seats, drops[i].user)
    ensures Settled(FinishedRow(b, drops)) && SeatsOk(FinishedRow(b, drops), users)
    ensures FinishedRow(b, drops).winner == Some(b.seats[WinningSeat(b, drops)].user)
  {
    var f, k := FinishedRow(b, drops), WinningSeat(b, drops);
    SeatsTotalEverything(b.seats, drops);
    TotalsAreSums(b.seats, f.seats, drops);
    hide WinningSeat, SumOf, DropsOf, DropTotal, SumTotals, SumOfPlayers, SeatedAmong;
    forall i | 0 <= i < |f.seats| ensures BeatsOrTies(f.mode, f.seats[k].total, f.seats[i].total) {
      TopBeatsAll(b, drops, i);
    }
    assert WonBy(f, k);
  }

  // ----- settling as a whole

  lemma PlayedKeeps(s: State, digest: Digest, k: nat)
    requires IsDigest(digest) && CanSettle(s, k) && Played(s, digest, k).Ok?
    requires SeedsOk(|s.users|, s.seeds) && NoncesOk(s.seeds, s.rows) && RowsOk(s.seeds, s.rows, digest)
    ensures var p := Played(s, digest, k).value;
            SeedsOk(|p.users|, p.seeds) && NoncesOk(p.seeds, p.rows) && RowsOk(p.seeds, p.rows, digest)
  {
    var b := s.battles[k];
    RoundsExist(b, |s.cases|);
    SeatingIs(b, |s.users|);
    hide PlaySeats, IsDigest, Seating, ValidCase, SeedsOk, NoncesOk, RowsOk;
    PlayKeeps(s, digest, k, Seating(b), Expanded(b.lines), ViewsOf(s.cases, Expanded(b.lines)));
  }

  lemma SameSeats(b: BattleRow, drops: seq<Row>, u: nat)
    requires b.seats != [] && forall i :: 0 <= i < |b.seats| ==> b.seats[i].slot == i + 1
    ensures Seated(FinishedRow(b, drops), u) <==> Seated(b, u)
  {
    hide WinningSeat, SumOf, DropsOf, DropTotal;
    var f := FinishedRow(b, drops);
    if Seated(b, u) {
      var i :| 0 <= i < |b.seats| && b.seats[i].user == u;
      assert f.seats[i].user == u;
    }
    if Seated(f, u) {
      var i :| 0 <= i < |f.seats| && f.seats[i].user == u;
      assert b.seats[i].user == u;
    }
  }

  /** Only this battle changed, and how. */
  ghost predicate FinishesBattle(s: State, s': State, k: nat)
    requires k < |s.battles|
  {
    && |s'.battles| == |s.battles| && s'.battles == s.battles[k := s'.battles[k]]
    && s' == s.(seeds := s'.seeds, rows := s'.rows, battles := s'.battles, inventory := s'.inventory)
    && s'.battles[k].status == Finished && Held(s'.battles[k]) == Held(s.battles[k])
    && s'.battles[k].entryPrice == s.battles[k].entryPrice
    && BattleOk(s'.battles[k], |s.users|, |s.cases|)
    && forall u: nat :: Seated(s'.battles[k], u) <==> Seated(s.battles[k], u)
  }

  /** The settlement committed for a waiting battle. */
  predicate Settles(s: State, digest: Digest, k: nat)
    requires IsDigest(digest) && CanSettle(s, k)
  {
    Settle(s, digest, k).Ok? && Settle(s, digest, k).value.Some?
  }

  function SettledState(s: State, digest: Digest, k: nat): State
    requires IsDigest(digest) && CanSettle(s, k) && Settles(s, digest, k)
  {
    Settle(s, digest, k).value.value
  }

  /** How a settlement that commits came about: the battle was claimed, then everyone played. */
  lemma SettlesByPlaying(s: State, digest: Digest, k: nat)
    requires IsDigest(digest) && CanSettle(s, k) && Settles(s, digest, k)
    ensures Claim(s, k).Some?
    ensures var t := Claim(s, k).value;
            && CanSettle(t, k) && t == s.(battles := t.battles) && t.battles == s.battles[k := t.battles[k]]
            && t.battles[k] == s.battles[k].(status := Running) && s.battles[k].status == Waiting
            && Played(t, digest, k).Ok? && PlayClaimed(t, digest, k) == Ok(SettledState(s, digest, k))
  {
    hide IsDigest, Played, ValidCase;
    ClaimRuns(s, k);
  }

  /** A waiting battle is claimed, so its settlement commits or fails, but never finds nothing to do. */
  lemma WaitingIsClaimed(s: State, digest: Digest, k: nat)
    requires IsDigest(digest) && CanSettle(s, k) && s.battles[k].status == Waiting
    ensures Settles(s, digest, k) || Settle(s, digest, k).Err?
  {
    hide IsDigest, PlayClaimed;
    ClaimRuns(s, k);
  }

  /**
   * A battle is played once. Only a waiting one is claimed; while it is played
   * its row says RUNNING, and the state that commits has left it, so neither
   * can be claimed again.
   */
  lemma PlayedOnce(s: State, digest: Digest, k: nat)
    requires IsDigest(digest) && CanSettle(s, k)
    ensures s.battles[k].status != Waiting ==> Settle(s, digest, k) == Ok(None)
    ensures Settles(s, digest, k) ==>
              var t, s' := Claim(s, k).value, SettledState(s, digest, k);
              && t.battles[k].status == Running && Played(t, digest, k).value.battles == t.battles
              && s'.battles[k].status == Finished && Claim(t, k).None? && Claim(s', k).None?
  {
    hide IsDigest, Played, ValidCase, WinningSeat, SumOf, DropsOf, DropTotal, BattleDrop, Seated;
    if Settles(s, digest, k) {
      SettlesByPlaying(s, digest, k);
      PlayedAppends(Claim(s, k).value, digest, k);
    }
  }

  /** Settling leaves one finished battle with a best-scoring winner, and moves no money. */
  lemma SettleFinishes(s: State, digest: Digest, k: nat)
    requires IsDigest(digest) && CanSettle(s, k) && Settles(s, digest, k)
    requires s.battles[k].filledSlots == s.battles[k].slots
    ensures FinishesBattle(s, SettledState(s, digest, k), k)
  {
    hide IsDigest, Played, ValidCase, BattleDrop, Settled, WinningSeat, SumOf, DropsOf, DropTotal;
    SettlesByPlaying(s, digest, k);
    var t := Claim(s, k).value;
    hide Settle, Settles, SettledState;
    PlayedAppends(t, digest, k);
    var p, b := Played(t, digest, k).value, t.battles[k];
    var drops := DropsSince(t, p);
    DropsAreSeated(b, drops, k);
    FinishedIsSettled(b, drops, |s.users|);
    forall u: nat ensures Seated(FinishedRow(b, drops), u) <==> Seated(s.battles[k], u) {
      SameSeats(b, drops, u);
      assert Seated(b, u) <==> Seated(s.battles[k], u);
    }
    assert p.battles[k := FinishedRow(b, drops)] == s.battles[k := FinishedRow(b, drops)];
  }

  lemma DropsAreSeated(b: BattleRow, drops: seq<Row>, k: nat)
    requires forall i :: 0 <= i < |drops| ==> BattleDrop(drops[i], k) && Seated(b, drops[i].user)
    ensures forall i :: 0 <= i < |drops| ==> drops[i].purpose.Opening? && SeatedAmong(b.seats, drops[i].user)
  {
  }

  /** Every drop of the battle becomes exactly one item, of the winner's. */
  lemma SettleKeepsItems(s: State, digest: Digest, k: nat)
    requires IsDigest(digest) && CanSettle(s, k) && Settles(s, digest, k) && ItemsOk(s.rows, s.inventory, s.battles)
    ensures var s' := SettledState(s, digest, k); ItemsOk(s'.rows, s'.inventory, s'.battles)
  {
    hide IsDigest, Played, ValidCase, Settled, WinningSeat, ScoredSeats, DropTotal, ItemsOk;
    SettlesByPlaying(s, digest, k);
    var t, s' := Claim(s, k).value, SettledState(s, digest, k);
    hide Settle, Settles, SettledState;
    PlayedAppends(t, digest, k);
    var p := Played(t, digest, k).value;
    var drops := DropsSince(t, p);
    var owner := s'.battles[k].winner.value;
    forall i | 0 <= i < |drops| ensures drops[i].purpose.Opening? && OwnerOk(drops[i], owner, s'.battles) {
      assert BattleDrop(drops[i], k);
    }
    LaterBattlesKeepItems(s.rows, s.inventory, s.battles, s'.battles);
    OpeningsKeepItems(s.rows, drops, s.inventory, s'.battles, owner);
  }

  /** The item a drop became. */
  predicate BecameItem(drop: Row, item: InventoryItem, owner: nat, source: nat) {
    drop.purpose.Opening?
    && item == InventoryItem(owner, drop.purpose.itemId, drop.purpose.itemPrice, Available, source)
  }

  /** The winner's new items are the drops, one for one, and the battle's value is what they were worth. */
  lemma WinnerTakesEverything(s: State, digest: Digest, k: nat)
    requires IsDigest(digest) && CanSettle(s, k) && Settles(s, digest, k)
    ensures var s' := SettledState(s, digest, k);
            && |s'.battles| == |s.battles| && s.inventory <= s'.inventory && s.rows <= s'.rows && s'.battles[k].winner.Some?
            && s'.battles[k].totalValue == DropTotal(s'.rows[|s.rows|..])
    ensures var s' := SettledState(s, digest, k);
            var drops, items := s'.rows[|s.rows|..], s'.inventory[|s.inventory|..];
            && |drops| == |items| == |s.battles[k].seats| * s.battles[k].rounds
            && forall i :: 0 <= i < |drops| ==> BecameItem(drops[i], items[i], s'.battles[k].winner.value, |s.rows| + i)
  {
    hide IsDigest, Played, ValidCase, Settled, WinningSeat, ScoredSeats, DropTotal;
    SettlesByPlaying(s, digest, k);
    var t, s' := Claim(s, k).value, SettledState(s, digest, k);
    hide Settle, Settles, SettledState;
    PlayedAppends(t, digest, k);
    var p := Played(t, digest, k).value;
    var drops := DropsSince(t, p);
    DropsAreSeated(t.battles[k], drops, k);
    assert s'.rows[|s.rows|..] == drops;
    assert s'.inventory[|s.inventory|..] == ItemsOf(drops, s'.battles[k].winner.value, |s.rows|);
  }
}
