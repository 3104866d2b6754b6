/** What openings and battles record and grant, read off the tables before and after. */
module SiteCommits {
  import opened Battle
  import opened Rolls
  import opened Site
  import opened SiteBattles
  import opened SiteOpenings
  import opened SiteSettlement
  import opened Wrappers

  // ----- who may roll

  /** A player who may act and whose rolls can be computed. */
  predicate CanRoll(s: State, u: nat) {
    && u < |s.users| && !s.users[u].banned && s.users[u].clientSeed.Some?
    && exists k :: 0 <= k < |s.seeds| && s.seeds[k].active && s.seeds[k].user == u
  }

  /** The roll of a row is that of the player's active seed, their client seed, and this nonce. */
  predicate RolledBy(s: State, digest: Digest, u: nat, r: Row, ahead: nat) {
    && u < |s.users| && r.user == u && s.users[u].clientSeed == Some(r.client)
    && r.seed < |s.seeds| && s.seeds[r.seed].active && s.seeds[r.seed].user == u
    && r.nonce == s.seeds[r.seed].nonce + ahead
    && IsHexDigest(digest(r.seed, r.client, r.nonce)) && r.roll == RollFromHmac(digest(r.seed, r.client, r.nonce))
  }

  // ----- drops

  /** The recorded item is one of the case, at its price, and its range holds the roll. */
  predicate Holds(c: Case, k: nat, d: Row) {
    && k < |c.items| && d.purpose.Opening?
    && c.items[k].range.rangeFrom <= d.roll <= c.items[k].range.rangeTo
    && d.purpose.itemId == c.items[k].itemId && d.purpose.itemPrice == c.items[k].price && d.purpose.casePrice == c.price
  }

  ghost predicate DropIsWon(d: Row, c: Case) {
    exists k :: Holds(c, k, d)
  }

  lemma RowIsWon(digest: Digest, u: nat, seed: nat, client: nat, nonce: nat, caseId: nat, c: Case, battle: Option<BattleRound>)
    requires IsDigest(digest) && ValidCase(c)
    ensures var d := DropRow(digest, u, seed, client, nonce, caseId, c, battle);
            && DropIsWon(d, c) && d.purpose.caseId == caseId && d.purpose.battle == battle
            && d.user == u && d.seed == seed && d.client == client && d.nonce == nonce
            && IsHexDigest(digest(seed, client, nonce)) && d.roll == RollFromHmac(digest(seed, client, nonce))
  {
    var d := DropRow(digest, u, seed, client, nonce, caseId, c, battle);
    assert IsHexDigest(digest(seed, client, nonce));
    assert Holds(c, Won(c, d.roll), d);
  }

  /** Every opening records the item whose range holds its roll, at the prices read, and grants exactly that item. */
  lemma OpeningRecordsWhatWasWon(s: State, digest: Digest, u: nat, caseId: nat, read: Case, count: int, seen: set<nat>, i: nat)
    requires IsDigest(digest) && (read.items != [] ==> ValidCase(read))
    requires TxOpenCase(s, digest, u, caseId, read, count, seen).Ok? && i < count
    ensures var o := TxOpenCase(s, digest, u, caseId, read, count, seen).value;
            && |o.drops| == count && o.state.rows == s.rows + o.drops
            && DropIsWon(o.drops[i], read) && o.drops[i].purpose.caseId == caseId && o.drops[i].purpose.battle == None
            && RolledBy(s, digest, u, o.drops[i], i + 1)
            && |o.state.inventory| == |s.inventory| + count && s.inventory <= o.state.inventory
            && o.state.inventory[|s.inventory| + i]
               == InventoryItem(u, o.drops[i].purpose.itemId, o.drops[i].purpose.itemPrice, Available, |s.rows| + i)
  {
    hide IsDigest, ValidCase, DropRow, Applied, DropIsWon;
    var o := TxOpenCase(s, digest, u, caseId, read, count, seen).value;
    var seed, client := ActiveSeed(s.seeds, u).value, s.users[u].clientSeed.value;
    var first := s.seeds[seed].nonce + 1;
    var ids, views := seq(count, _ => caseId), seq(count, _ => read);
    RollAllIs(digest, u, seed, client, first, ids, views, None);
    RowIsWon(digest, u, seed, client, first + i, caseId, read, None);
    hide RollAll;
    assert o.drops[i] == DropRow(digest, u, seed, client, first + i, caseId, read, None);
  }

  /** At this place of the openings: a player's drop of one round of a battle, won from that round's case. */
  ghost predicate RoundIsPlayed(rows: seq<Row>, at: nat, k: nat, user: nat, round: nat, caseId: nat, c: Case) {
    && at < |rows| && rows[at].user == user && DropIsWon(rows[at], c) && rows[at].purpose.Opening?
    && rows[at].purpose.caseId == caseId && rows[at].purpose.battle == Some(BattleRound(k, round))
  }

  lemma RoundStays(rows: seq<Row>, more: seq<Row>, at: nat, k: nat, user: nat, round: nat, caseId: nat, c: Case)
    requires rows <= more && RoundIsPlayed(rows, at, k, user, round, caseId, c)
    ensures RoundIsPlayed(more, at, k, user, round, caseId, c)
  {
  }

  /** Where the drops of the `a`-th player start. */
  function Offset(a: nat, rounds: nat): nat {
    a * rounds
  }

  lemma OffsetGrows(a: nat, rounds: nat)
    ensures Offset(0, rounds) == 0 && (a > 0 ==> Offset(a, rounds) == rounds + Offset(a - 1, rounds))
  {
  }

  lemma OneTurnIsWon(s: State, digest: Digest, k: nat, u: nat, seed: nat, ids: seq<nat>, views: seq<Case>, j: nat)
    requires IsDigest(digest) && ValidCases(views) && |ids| == |views| && k < |s.battles|
    requires u < |s.users| && s.users[u].clientSeed.Some? && seed < |s.seeds| && j < |ids|
    ensures RoundIsPlayed(PlayOne(s, digest, k, u, seed, ids, views).rows, |s.rows| + j, k, u, j + 1, ids[j], views[j])
  {
    hide IsDigest, ValidCase, DropRow, DropIsWon, RollAll;
    var client, first := s.users[u].clientSeed.value, s.seeds[seed].nonce + 1;
    RollAllIs(digest, u, seed, client, first, ids, views, Some(k));
    RowIsWon(digest, u, seed, client, first + j, ids[j], views[j], RoundOf(Some(k), j + 1));
  }

  lemma {:induction false} SeatsPlayEveryRound(s: State, digest: Digest, k: nat, seats: seq<Seat>, ids: seq<nat>, views: seq<Case>,
                                               a: nat, j: nat)
    requires IsDigest(digest) && ValidCases(views) && |ids| == |views| && k < |s.battles|
    requires forall i :: 0 <= i < |seats| ==> seats[i].user < |s.users|
    requires PlaySeats(s, digest, k, seats, ids, views).Ok? && a < |seats| && j < |ids|
    ensures var p := PlaySeats(s, digest, k, seats, ids, views).value;
            RoundIsPlayed(p.rows, |s.rows| + Offset(a, |ids|) + j, k, seats[a].user, j + 1, ids[j], views[j])
    decreases |seats|
  {
    var u := seats[0].user;
    var seed := ActiveSeed(s.seeds, u).value;
    var next := PlayOne(s, digest, k, u, seed, ids, views);
    assert PlaySeats(s, digest, k, seats, ids, views) == PlaySeats(next, digest, k, seats[1..], ids, views);
    hide IsDigest, ValidCases, PlaySeats, PlayOne, ActiveSeed, BattleDrop, RoundIsPlayed, Offset;
    PlayOneIs(s, digest, k, u, seed, ids, views);
    OffsetGrows(a, |ids|);
    if a == 0 {
      PlayedIs(next, digest, k, seats[1..], ids, views);
      OneTurnIsWon(s, digest, k, u, seed, ids, views, j);
      RoundStays(next.rows, PlaySeats(s, digest, k, seats, ids, views).value.rows, |s.rows| + j, k, u, j + 1, ids[j], views[j]);
    } else {
      SeatsPlayEveryRound(next, digest, k, seats[1..], ids, views, a - 1, j);
    }
  }

  /**
   * Every seat of a settled battle has one drop for every round, won from the
   * case of that round as it is at the settlement.
   */
  lemma BattleRecordsWhatWasWon(s: State, digest: Digest, k: nat, a: nat, round: nat)
    requires IsDigest(digest) && CanSettle(s, k) && Settles(s, digest, k)
    requires a < |s.battles[k].seats| && 1 <= round <= s.battles[k].rounds
    ensures multiset(Seating(s.battles[k])) == multiset(s.battles[k].seats)
    ensures forall i, j :: 0 <= i < j < |Seating(s.battles[k])| ==> Seating(s.battles[k])[i].user <= Seating(s.battles[k])[j].user
    ensures |Seating(s.battles[k])| == |s.battles[k].seats| && round <= |Expanded(s.battles[k].lines)|
    ensures Expanded(s.battles[k].lines)[round - 1] < |s.cases|
    ensures var b, caseId := s.battles[k], Expanded(s.battles[k].lines)[round - 1];
            RoundIsPlayed(SettledState(s, digest, k).rows, |s.rows| + Offset(a, b.rounds) + (round - 1), k, Seating(b)[a].user,
                          round, caseId, s.cases[caseId])
  {
    hide IsDigest, PlaySeats, ValidCase, BattleDrop, Seating, RoundIsPlayed, Offset, Settle, Settles, SettledState, FinishedRow;
    SettlesByPlaying(s, digest, k);
    var t := Claim(s, k).value;
    var b := t.battles[k];
    RoundsExist(b, |s.cases|);
    SeatingIs(b, |s.users|);
    SameSeating(b, s.battles[k]);
    SeatsPlayEveryRound(t, digest, k, Seating(b), Expanded(b.lines), ViewsOf(t.cases, Expanded(b.lines)), a, round - 1);
    PlayClaimedKeepsRows(t, digest, k);
  }

  lemma PlayClaimedKeepsRows(t: State, digest: Digest, k: nat)
    requires IsDigest(digest) && CanSettle(t, k) && PlayClaimed(t, digest, k).Ok?
    ensures Played(t, digest, k).Ok? && PlayClaimed(t, digest, k).value.rows == Played(t, digest, k).value.rows
  {
    hide IsDigest, Played, ValidCase, FinishedRow;
  }

  lemma SameSeating(b: BattleRow, c: BattleRow)
    requires b.seats == c.seats
    ensures Seating(b) == Seating(c)
  {
  }
}
