/** Battles: seats, settlement, cancellation, and where the money is meanwhile. */
module SiteBattles {
  import opened Battle
  import opened Site
  import opened Sorting
  import opened Wrappers

  // ----- the state machine's invariant

  predicate Seated(b: BattleRow, u: nat) {
    exists i :: 0 <= i < |b.seats| && b.seats[i].user == u
  }

  /** Seats 1 to `filledSlots`, in the order taken, for distinct players, the host first. */
  ghost predicate SeatsOk(b: BattleRow, users: nat) {
    && |b.seats| == b.filledSlots >= 1 && b.seats[0].user == b.host
    && (forall i :: 0 <= i < |b.seats| ==> b.seats[i].slot == i + 1 && b.seats[i].user < users)
    && (forall i, j :: 0 <= i < j < |b.seats| ==> b.seats[i].user != b.seats[j].user)
  }

  function SumTotals(seats: seq<Seat>): int {
    if seats == [] then 0 else SumTotals(seats[..|seats| - 1]) + seats[|seats| - 1].total
  }

  predicate BeatsOrTies(mode: Mode, a: int, b: int) {
    if mode == Crazy then a <= b else a >= b
  }

  predicate WonBy(b: BattleRow, k: nat) {
    && k < |b.seats| && b.winner == Some(b.seats[k].user)
    && (forall i :: 0 <= i < |b.seats| ==> (b.seats[i].isWinner <==> i == k))
    && (forall i :: 0 <= i < |b.seats| ==> BeatsOrTies(b.mode, b.seats[k].total, b.seats[i].total))
  }

  /** One seat won with the best total, and the seats' totals are everything that dropped. */
  ghost predicate Settled(b: BattleRow) {
    SumTotals(b.seats) == b.totalValue && exists k :: WonBy(b, k)
  }

  /** What is fixed when a battle is created. */
  predicate TermsOk(b: BattleRow, cases: nat) {
    && b.slots >= 2 && b.entryPrice >= 0 && b.rounds == TotalRounds(b.lines)
    && forall i :: 0 <= i < |b.lines| ==> b.lines[i].caseId < cases
  }

  /** A committed battle: waiting with a free seat, finished with all seats, or cancelled; never running. */
  ghost predicate BattleOk(b: BattleRow, users: nat, cases: nat) {
    && TermsOk(b, cases) && SeatsOk(b, users) && b.status != Running
    && (b.status == Finished ==> b.filledSlots == b.slots && Settled(b))
    && (b.status != Finished ==> b.filledSlots < b.slots && b.winner == None)
  }

  ghost predicate BattlesOk(users: nat, cases: nat, battles: seq<BattleRow>) {
    forall k :: 0 <= k < |battles| ==> BattleOk(battles[k], users, cases)
  }

  // ----- the money in battles

  function SumBalances(users: seq<User>): int {
    if users == [] then 0 else SumBalances(users[..|users| - 1]) + users[|users| - 1].balance
  }

  lemma {:induction false} BalanceMoves(users: seq<User>, u: nat, balance: int)
    requires u < |users|
    ensures SumBalances(SetBalance(users, u, balance)) == SumBalances(users) - users[u].balance + balance
  {
    var n := |users| - 1;
    var changed := SetBalance(users, u, balance);
    if u == n {
      assert changed[..n] == users[..n];
    } else {
      BalanceMoves(users[..n], u, balance);
      assert changed[..n] == SetBalance(users[..n], u, balance);
    }
  }

  /** The seats' money a battle holds while it waits, or took when it was played. */
  function Held(b: BattleRow): int {
    if b.status == Cancelled then 0 else b.filledSlots * b.entryPrice
  }

  function SumHeld(battles: seq<BattleRow>): int {
    if battles == [] then 0 else SumHeld(battles[..|battles| - 1]) + Held(battles[|battles| - 1])
  }

  lemma {:induction false} HeldMoves(battles: seq<BattleRow>, k: nat, b: BattleRow)
    requires k < |battles|
    ensures SumHeld(battles[k := b]) == SumHeld(battles) - Held(battles[k]) + Held(b)
  {
    hide Held;
    var n := |battles| - 1;
    if k == n {
      assert battles[k := b][..n] == battles[..n];
    } else {
      HeldMoves(battles[..n], k, b);
      assert battles[k := b][..n] == battles[..n][k := b];
    }
  }

  /** Player balances, seats held in waiting battles, and the takings of finished ones. */
  function TotalMoney(s: State): int {
    SumBalances(s.users) + SumHeld(s.battles)
  }

  // ----- the ledger of a battle

  function CountOf(ledger: seq<Entry>, kind: Kind, battle: nat, u: nat): nat {
    if ledger == [] then 0
    else
      var e := ledger[|ledger| - 1];
      CountOf(ledger[..|ledger| - 1], kind, battle, u)
      + (if e.kind == kind && e.battle == Some(battle) && e.user == u then 1 else 0)
  }

  lemma CountGrows(ledger: seq<Entry>, e: Entry, kind: Kind, battle: nat, u: nat)
    ensures CountOf(ledger + [e], kind, battle, u)
            == CountOf(ledger, kind, battle, u) + (if e.kind == kind && e.battle == Some(battle) && e.user == u then 1 else 0)
  {
    assert (ledger + [e])[..|ledger|] == ledger;
  }

  /** Every seat was paid for once, and refunded once exactly when its battle was cancelled. */
  predicate PaidOnce(ledger: seq<Entry>, battles: seq<BattleRow>, k: nat, u: nat)
    requires k < |battles|
  {
    && CountOf(ledger, BattleEntry, k, u) == (if Seated(battles[k], u) then 1 else 0)
    && CountOf(ledger, BattleRefund, k, u) == (if Seated(battles[k], u) && battles[k].status == Cancelled then 1 else 0)
  }

  predicate EntryOk(e: Entry, battles: seq<BattleRow>) {
    if e.kind == BattleEntry || e.kind == BattleRefund then
      && e.battle.Some? && e.battle.value < |battles|
      && e.amount == (if e.kind == BattleEntry then -battles[e.battle.value].entryPrice else battles[e.battle.value].entryPrice)
    else e.battle == None
  }

  ghost predicate EntriesOk(ledger: seq<Entry>, battles: seq<BattleRow>) {
    forall i :: 0 <= i < |ledger| ==> EntryOk(ledger[i], battles)
  }

  ghost predicate BattleLedgerOk(ledger: seq<Entry>, battles: seq<BattleRow>) {
    && EntriesOk(ledger, battles)
    && (forall k, u: nat :: 0 <= k < |battles| ==> PaidOnce(ledger, battles, k, u))
  }

  lemma {:induction false} NoEntryForLaterBattles(ledger: seq<Entry>, battles: seq<BattleRow>, kind: Kind, k: nat, u: nat)
    requires EntriesOk(ledger, battles) && k >= |battles|
    ensures CountOf(ledger, kind, k, u) == 0
  {
    if ledger != [] {
      NoEntryForLaterBattles(ledger[..|ledger| - 1], battles, kind, k, u);
      assert EntryOk(ledger[|ledger| - 1], battles);
    }
  }

  /** A payment that is not a battle's leaves the battles' ledger alone. */
  lemma OtherEntriesKeep(ledger: seq<Entry>, e: Entry, battles: seq<BattleRow>)
    requires BattleLedgerOk(ledger, battles) && e.kind != BattleEntry && e.kind != BattleRefund && e.battle == None
    ensures BattleLedgerOk(ledger + [e], battles)
  {
    hide CountOf, Seated;
    forall k, u: nat | 0 <= k < |battles| ensures PaidOnce(ledger + [e], battles, k, u) {
      assert PaidOnce(ledger, battles, k, u);
      CountGrows(ledger, e, BattleEntry, k, u);
      CountGrows(ledger, e, BattleRefund, k, u);
    }
  }

  // ----- taking a seat

  function WithSeat(b: BattleRow, u: nat): BattleRow {
    b.(filledSlots := b.filledSlots + 1, seats := b.seats + [Seat(u, b.filledSlots + 1, 0, false)])
  }

  /** Debit, claim the next seat, record both. */
  function TakeSeat(s: State, k: nat, u: nat): Result<State, SiteError>
    requires k < |s.battles| && u < |s.users|
  {
    var b := s.battles[k];
    if s.users[u].balance < b.entryPrice then Err(InsufficientFunds)
    else if b.status != Waiting || b.filledSlots >= b.slots then Err(BattleIsFull)
    else Ok(Pay(s, u, -b.entryPrice, BattleEntry, Some(k)).(battles := s.battles[k := WithSeat(b, u)]))
  }

  lemma SeatAdds(b: BattleRow, u: nat, v: nat)
    ensures Seated(WithSeat(b, u), v) <==> Seated(b, v) || u == v
  {
    var b' := WithSeat(b, u);
    if Seated(b, v) {
      var i :| 0 <= i < |b.seats| && b.seats[i].user == v;
      assert b'.seats[i].user == v;
    }
    assert b'.seats[|b.seats|].user == u;
  }

  lemma SeatMoney(b: BattleRow, u: nat)
    requires b.status != Cancelled
    ensures Held(WithSeat(b, u)) == Held(b) + b.entryPrice
  {
    OneMorePrice(b.filledSlots, b.entryPrice);
  }

  /** Taking a seat moves the entry price from the player to the battle. */
  lemma TakeSeatKeepsMoney(s: State, k: nat, u: nat)
    requires k < |s.battles| && u < |s.users| && MoneyOk(s.users, s.ledger) && TakeSeat(s, k, u).Ok?
    ensures var s' := TakeSeat(s, k, u).value; MoneyOk(s'.users, s'.ledger) && TotalMoney(s') == TotalMoney(s)
  {
    hide Held, MoneyOk, LedgerSum, SumBalances, SumHeld;
    var b := s.battles[k];
    PayKeepsMoney(s, u, -b.entryPrice, BattleEntry, Some(k));
    BalanceMoves(s.users, u, s.users[u].balance - b.entryPrice);
    SeatMoney(b, u);
    HeldMoves(s.battles, k, WithSeat(b, u));
  }

  lemma TakeSeatKeepsLedger(s: State, k: nat, u: nat)
    requires k < |s.battles| && u < |s.users| && BattleLedgerOk(s.ledger, s.battles)
    requires TakeSeat(s, k, u).Ok? && !Seated(s.battles[k], u)
    ensures var s' := TakeSeat(s, k, u).value; BattleLedgerOk(s'.ledger, s'.battles)
  {
    var s' := TakeSeat(s, k, u).value;
    var e := s'.ledger[|s.ledger|];
    hide CountOf, Seated;
    forall i | 0 <= i < |s'.ledger| ensures EntryOk(s'.ledger[i], s'.battles) {
      assert i < |s.ledger| ==> EntryOk(s.ledger[i], s.battles);
    }
    forall j, v: nat | 0 <= j < |s'.battles| ensures PaidOnce(s'.ledger, s'.battles, j, v) {
      assert PaidOnce(s.ledger, s.battles, j, v);
      CountGrows(s.ledger, e, BattleEntry, j, v);
      CountGrows(s.ledger, e, BattleRefund, j, v);
      if j == k {
        SeatAdds(s.battles[k], u, v);
      }
    }
  }

  /** A seat taken by somebody new keeps seats numbered and players distinct. */
  lemma SeatKeepsSeats(b: BattleRow, u: nat, users: nat)
    requires SeatsOk(b, users) && u < users && !Seated(b, u)
    ensures SeatsOk(WithSeat(b, u), users)
  {
    var b' := WithSeat(b, u);
    forall i, j | 0 <= i < j < |b'.seats| ensures b'.seats[i].user != b'.seats[j].user {
      if j == |b.seats| {
        assert b.seats[i].user != u;
      }
    }
  }

  // ----- cancelling

  /** One refund per seat, in seat order. */
  function RefundSeats(s: State, k: nat, seats: seq<Seat>): State
    requires k < |s.battles| && forall i :: 0 <= i < |seats| ==> seats[i].user < |s.users|
    ensures var r := RefundSeats(s, k, seats); |r.users| == |s.users| && r.battles == s.battles && r.rows == s.rows
  {
    if seats == [] then s
    else
      var n := |seats| - 1;
      Pay(RefundSeats(s, k, seats[..n]), seats[n].user, s.battles[k].entryPrice, BattleRefund, Some(k))
  }

  function CancelledRow(b: BattleRow): BattleRow {
    b.(status := Cancelled)
  }

  /** The claim is the conditional update on WAITING: `None` is a battle that was no longer waiting. */
  function CancelAndRefund(s: State, k: nat): Option<State>
    requires k < |s.battles| && SeatsOk(s.battles[k], |s.users|)
  {
    if s.battles[k].status != Waiting then None
    else
      Some(RefundSeats(s, k, s.battles[k].seats).(battles := s.battles[k := CancelledRow(s.battles[k])]))
  }

  lemma {:induction false} RefundsPay(s: State, k: nat, seats: seq<Seat>)
    requires k < |s.battles| && forall i :: 0 <= i < |seats| ==> seats[i].user < |s.users|
    requires MoneyOk(s.users, s.ledger) && s.battles[k].entryPrice >= 0
    ensures var r := RefundSeats(s, k, seats);
            MoneyOk(r.users, r.ledger) && SumBalances(r.users) == SumBalances(s.users) + |seats| * s.battles[k].entryPrice
  {
    if seats != [] {
      var n := |seats| - 1;
      RefundsPay(s, k, seats[..n]);
      OneRefund(RefundSeats(s, k, seats[..n]), k, seats[n].user, s.battles[k].entryPrice);
      OneMorePrice(n, s.battles[k].entryPrice);
      hide MoneyOk, SumBalances;
    }
  }

  lemma NotNegative(s: State, u: nat)
    requires MoneyOk(s.users, s.ledger) && u < |s.users|
    ensures s.users[u].balance >= 0
  {
  }

  lemma OneRefund(s: State, k: nat, u: nat, price: int)
    requires u < |s.users| && MoneyOk(s.users, s.ledger) && price >= 0
    ensures var r := Pay(s, u, price, BattleRefund, Some(k));
            MoneyOk(r.users, r.ledger) && SumBalances(r.users) == SumBalances(s.users) + price
  {
    hide MoneyOk, LedgerSum, SumBalances;
    NotNegative(s, u);
    PayKeepsMoney(s, u, price, BattleRefund, Some(k));
    BalanceMoves(s.users, u, s.users[u].balance + price);
  }

  lemma OneMorePrice(n: nat, price: int)
    ensures (n + 1) * price == n * price + price
  {
  }

  predicate SeatedAmong(seats: seq<Seat>, u: nat) {
    exists i :: 0 <= i < |seats| && seats[i].user == u
  }

  lemma {:induction false} RefundsCount(s: State, k: nat, seats: seq<Seat>, kind: Kind, j: nat, u: nat)
    requires k < |s.battles| && forall i :: 0 <= i < |seats| ==> seats[i].user < |s.users|
    requires forall i, l :: 0 <= i < l < |seats| ==> seats[i].user != seats[l].user
    ensures CountOf(RefundSeats(s, k, seats).ledger, kind, j, u)
            == CountOf(s.ledger, kind, j, u) + (if kind == BattleRefund && j == k && SeatedAmong(seats, u) then 1 else 0)
  {
    if seats != [] {
      var n := |seats| - 1;
      RefundsCount(s, k, seats[..n], kind, j, u);
      var before, after := RefundSeats(s, k, seats[..n]), RefundSeats(s, k, seats);
      CountGrows(before.ledger, after.ledger[|before.ledger|], kind, j, u);
      if SeatedAmong(seats[..n], u) {
        var i :| 0 <= i < n && seats[..n][i].user == u;
        assert seats[i].user == u && seats[i].user != seats[n].user;
      }
      assert SeatedAmong(seats, u) <==> SeatedAmong(seats[..n], u) || seats[n].user == u by {
        SeatedAmongGrows(seats, u);
      }
    }
  }

  lemma SeatedAmongGrows(seats: seq<Seat>, u: nat)
    requires seats != []
    ensures SeatedAmong(seats, u) <==> SeatedAmong(seats[..|seats| - 1], u) || seats[|seats| - 1].user == u
  {
    var n := |seats| - 1;
    if SeatedAmong(seats[..n], u) {
      var i :| 0 <= i < n && seats[..n][i].user == u;
      assert seats[i].user == u;
    }
    if SeatedAmong(seats, u) && seats[n].user != u {
      var i :| 0 <= i < |seats| && seats[i].user == u;
      assert seats[..n][i].user == u;
    }
  }

  lemma {:induction false} RefundEntries(s: State, k: nat, seats: seq<Seat>, battles: seq<BattleRow>)
    requires k < |s.battles| && forall i :: 0 <= i < |seats| ==> seats[i].user < |s.users|
    requires EntriesOk(s.ledger, battles) && k < |battles| && battles[k].entryPrice == s.battles[k].entryPrice
    ensures EntriesOk(RefundSeats(s, k, seats).ledger, battles)
  {
    if seats != [] {
      RefundEntries(s, k, seats[..|seats| - 1], battles);
    }
  }

  /** Cancelling turns the held money of this battle into balances, and keeps the total. */
  lemma CancelKeepsMoney(s: State, k: nat)
    requires k < |s.battles| && SeatsOk(s.battles[k], |s.users|) && s.battles[k].entryPrice >= 0
    requires MoneyOk(s.users, s.ledger) && CancelAndRefund(s, k).Some?
    ensures var s' := CancelAndRefund(s, k).value; MoneyOk(s'.users, s'.ledger) && TotalMoney(s') == TotalMoney(s)
  {
    var b := s.battles[k];
    RefundsPay(s, k, b.seats);
    HeldMoves(s.battles, k, CancelledRow(b));
  }

  lemma CancelKeepsLedger(s: State, k: nat)
    requires k < |s.battles| && SeatsOk(s.battles[k], |s.users|) && BattleLedgerOk(s.ledger, s.battles)
    requires CancelAndRefund(s, k).Some?
    ensures var s' := CancelAndRefund(s, k).value; BattleLedgerOk(s'.ledger, s'.battles)
  {
    var b, s' := s.battles[k], CancelAndRefund(s, k).value;
    forall i | 0 <= i < |s.ledger| ensures EntryOk(s.ledger[i], s'.battles) {
      assert EntryOk(s.ledger[i], s.battles);
    }
    RefundEntries(s, k, b.seats, s'.battles);
    hide CountOf;
    forall j, u: nat | 0 <= j < |s'.battles| ensures PaidOnce(s'.ledger, s'.battles, j, u) {
      assert PaidOnce(s.ledger, s.battles, j, u);
      RefundsCount(s, k, b.seats, BattleEntry, j, u);
      RefundsCount(s, k, b.seats, BattleRefund, j, u);
      assert SeatedAmong(b.seats, u) <==> Seated(b, u);
      assert Seated(CancelledRow(b), u) <==> Seated(b, u);
    }
  }

  // ----- settling

  predicate ByUser(a: Seat, b: Seat) {
    a.user <= b.user
  }

  function ViewsOf(cases: seq<Case>, ids: seq<nat>): (views: seq<Case>)
    requires forall i :: 0 <= i < |ids| ==> ids[i] < |cases|
    ensures |views| == |ids|
  {
    seq(|ids|, i requires 0 <= i < |ids| => cases[ids[i]])
  }

  /** Each player in turn: reserve the block of nonces, then one roll per round. */
  function PlaySeats(s: State, digest: Digest, k: nat, seats: seq<Seat>, ids: seq<nat>, views: seq<Case>): Result<State, SiteError>
    requires IsDigest(digest) && ValidCases(views) && |ids| == |views| && k < |s.battles|
    requires forall i :: 0 <= i < |seats| ==> seats[i].user < |s.users|
    decreases |seats|
  {
    if seats == [] then Ok(s)
    else
      var u := seats[0].user;
      var seed := ActiveSeed(s.seeds, u);
      if seed.None? || s.users[u].clientSeed.None? then Err(NoActiveSeed)
      else if exists i :: 0 <= i < |views| && views[i].items == [] then Err(CaseIsEmpty)
      else
        PlaySeats(PlayOne(s, digest, k, u, seed.value, ids, views), digest, k, seats[1..], ids, views)
  }

  /** What one player's drops were worth, in round order. */
  function DropsOf(drops: seq<Row>, u: nat): seq<int> {
    if drops == [] then []
    else
      var d := drops[|drops| - 1];
      DropsOf(drops[..|drops| - 1], u) + (if d.user == u && d.purpose.Opening? then [d.purpose.itemPrice] else [])
  }

  function TalliesOf(seats: seq<Seat>, drops: seq<Row>): (t: seq<Tally>)
    ensures |t| == |seats|
  {
    seq(|seats|, i requires 0 <= i < |seats| => Tally(seats[i].slot, DropsOf(drops, seats[i].user)))
  }

  function DropTotal(drops: seq<Row>): int {
    if drops == [] then 0
    else
      var d := drops[|drops| - 1];
      DropTotal(drops[..|drops| - 1]) + (if d.purpose.Opening? then d.purpose.itemPrice else 0)
  }

  /** The seat the final table puts first. */
  function WinningSeat(b: BattleRow, drops: seq<Row>): (k: nat)
    requires b.seats != [] && forall i :: 0 <= i < |b.seats| ==> b.seats[i].slot == i + 1
    ensures k < |b.seats|
  {
    StandingsAreRanked(TalliesOf(b.seats, drops), b.mode);
    var top := Standings(TalliesOf(b.seats, drops), b.mode)[0].score;
    TopIsASeat(b, drops);
    top.slot - 1
  }

  lemma ScoreKeepsSlot(tallies: seq<Tally>, mode: Mode)
    ensures forall i :: 0 <= i < |tallies| ==> ScoresOf(tallies, mode)[i].slot == tallies[i].slot
  {
  }

  lemma TopIsASeat(b: BattleRow, drops: seq<Row>)
    requires b.seats != [] && forall i :: 0 <= i < |b.seats| ==> b.seats[i].slot == i + 1
    ensures var s := Standings(TalliesOf(b.seats, drops), b.mode);
            |s| == |b.seats| && 1 <= s[0].score.slot <= |b.seats|
            && s[0].score == ScoreOf(TalliesOf(b.seats, drops)[s[0].score.slot - 1], b.mode)
  {
    hide ScoreOf, DropsOf, OrderOf, SortedScores;
    var tallies := TalliesOf(b.seats, drops);
    StandingsAreRanked(tallies, b.mode);
    ScoreKeepsSlot(tallies, b.mode);
    var top := Standings(tallies, b.mode)[0].score;
    assert top in ScoresOf(tallies, b.mode);
    var i :| 0 <= i < |tallies| && ScoresOf(tallies, b.mode)[i] == top;
  }

  function ScoredSeats(b: BattleRow, drops: seq<Row>): (seats: seq<Seat>)
    requires b.seats != [] && forall i :: 0 <= i < |b.seats| ==> b.seats[i].slot == i + 1
    ensures |seats| == |b.seats|
  {
    seq(|b.seats|, i requires 0 <= i < |b.seats| =>
      b.seats[i].(total := SumOf(DropsOf(drops, b.seats[i].user)), isWinner := i == WinningSeat(b, drops)))
  }

  function FinishedRow(b: BattleRow, drops: seq<Row>): BattleRow
    requires b.seats != [] && forall i :: 0 <= i < |b.seats| ==> b.seats[i].slot == i + 1
  {
    b.(status := Finished, seats := ScoredSeats(b, drops), totalValue := DropTotal(drops),
       winner := Some(b.seats[WinningSeat(b, drops)].user))
  }

  /** The players in the order their seeds are reserved. */
  function Seating(b: BattleRow): seq<Seat> {
    SortBy(b.seats, ByUser)
  }

  lemma SeatingIs(b: BattleRow, users: nat)
    requires SeatsOk(b, users)
    ensures |Seating(b)| == |b.seats| && multiset(Seating(b)) == multiset(b.seats)
    ensures forall i :: 0 <= i < |Seating(b)| ==> Seating(b)[i].user < users && Seated(b, Seating(b)[i].user)
    ensures forall i, j :: 0 <= i < j < |Seating(b)| ==> Seating(b)[i].user <= Seating(b)[j].user
  {
    assert TotalPreorder(ByUser);
    SortBySorts(b.seats, ByUser);
    SameMembers(b.seats, Seating(b));
    forall i | 0 <= i < |Seating(b)| ensures Seating(b)[i].user < users && Seated(b, Seating(b)[i].user) {
      assert Seating(b)[i] in b.seats;
      var j :| 0 <= j < |b.seats| && b.seats[j] == Seating(b)[i];
    }
  }

  /** The order of play, and the cases as they are now. */
  lemma RoundsExist(b: BattleRow, cases: nat)
    requires TermsOk(b, cases)
    ensures |Expanded(b.lines)| == b.rounds
    ensures forall i :: 0 <= i < |Expanded(b.lines)| ==> Expanded(b.lines)[i] < cases
  {
    OneRoundPerNonce(b.lines);
  }

  ghost predicate CanSettle(s: State, k: nat) {
    k < |s.battles| && ValidCases(s.cases) && SeatsOk(s.battles[k], |s.users|) && TermsOk(s.battles[k], |s.cases|)
  }

  /** Everyone has played. */
  function Played(s: State, digest: Digest, k: nat): Result<State, SiteError>
    requires IsDigest(digest) && CanSettle(s, k)
  {
    var b := s.battles[k];
    RoundsExist(b, |s.cases|);
    SeatingIs(b, |s.users|);
    PlaySeats(s, digest, k, Seating(b), Expanded(b.lines), ViewsOf(s.cases, Expanded(b.lines)))
  }

  /** What the battle added to the openings. */
  function DropsSince(s: State, p: State): seq<Row>
    requires |s.rows| <= |p.rows|
  {
    p.rows[|s.rows|..]
  }

  lemma PlayedAppends(s: State, digest: Digest, k: nat)
    requires IsDigest(digest) && CanSettle(s, k) && Played(s, digest, k).Ok?
    ensures var p := Played(s, digest, k).value;
            && p == s.(seeds := p.seeds, rows := p.rows) && s.rows <= p.rows && |p.seeds| == |s.seeds|
            && p.rows == s.rows + DropsSince(s, p)
            && |DropsSince(s, p)| == |s.battles[k].seats| * s.battles[k].rounds
            && (forall i :: 0 <= i < |DropsSince(s, p)| ==>
                  BattleDrop(DropsSince(s, p)[i], k) && Seated(s.battles[k], DropsSince(s, p)[i].user))
  {
    var b := s.battles[k];
    RoundsExist(b, |s.cases|);
    SeatingIs(b, |s.users|);
    PlayedIs(s, digest, k, Seating(b), Expanded(b.lines), ViewsOf(s.cases, Expanded(b.lines)));
    hide PlaySeats, IsDigest, Seating, BattleDrop, ValidCases;
    var p := Played(s, digest, k).value;
    var drops := DropsSince(s, p);
    forall i | 0 <= i < |drops| ensures BattleDrop(drops[i], k) && Seated(b, drops[i].user) {
      assert drops[i] == p.rows[|s.rows| + i];
      assert SeatedAmong(Seating(b), drops[i].user);
    }
  }

  /** The conditional update WAITING to RUNNING: nothing is claimed of a battle that is not waiting. */
  function Claim(s: State, k: nat): Option<State>
    requires k < |s.battles|
  {
    if s.battles[k].status != Waiting then None
    else Some(s.(battles := s.battles[k := s.battles[k].(status := Running)]))
  }

  lemma ClaimRuns(s: State, k: nat)
    requires CanSettle(s, k) && Claim(s, k).Some?
    ensures var t := Claim(s, k).value;
            && CanSettle(t, k) && t == s.(battles := t.battles) && t.battles == s.battles[k := t.battles[k]]
            && t.battles[k] == s.battles[k].(status := Running) && s.battles[k].status == Waiting
  {
  }

  /** Play a claimed battle out: everything down to the winner's items, or nothing. */
  function PlayClaimed(t: State, digest: Digest, k: nat): Result<State, SiteError>
    requires IsDigest(digest) && CanSettle(t, k)
  {
    var played := Played(t, digest, k);
    if played.Err? then played
    else
      PlayedAppends(t, digest, k);
      var p := played.value;
      var drops := DropsSince(t, p);
      var finished := FinishedRow(p.battles[k], drops);
      Ok(p.(battles := p.battles[k := finished], inventory := p.inventory + ItemsOf(drops, finished.winner.value, |t.rows|)))
  }

  /** Claim the transition, then play; `None` is a battle somebody else has claimed. */
  function Settle(s: State, digest: Digest, k: nat): Result<Option<State>, SiteError>
    requires IsDigest(digest) && CanSettle(s, k)
  {
    match Claim(s, k)
    case None => Ok(None)
    case Some(t) =>
      ClaimRuns(s, k);
      match PlayClaimed(t, digest, k)
      case Err(e) => Err(e)
      case Ok(finished) => Ok(Some(finished))
  }

  predicate BattleDrop(r: Row, k: nat) {
    match r.purpose
    case Opening(_, _, _, _, Some(round)) => round.battleId == k
    case _ => false
  }

  /** One player's turn. */
  function PlayOne(s: State, digest: Digest, k: nat, u: nat, seed: nat, ids: seq<nat>, views: seq<Case>): State
    requires IsDigest(digest) && ValidCases(views) && |ids| == |views| && k < |s.battles|
    requires u < |s.users| && s.users[u].clientSeed.Some? && seed < |s.seeds|
  {
    var block := RollAll(digest, u, seed, s.users[u].clientSeed.value, s.seeds[seed].nonce + 1, ids, views, Some(k));
    s.(seeds := Reserved(s.seeds, seed, s.battles[k].rounds), rows := s.rows + block)
  }

  lemma PlayOneIs(s: State, digest: Digest, k: nat, u: nat, seed: nat, ids: seq<nat>, views: seq<Case>)
    requires IsDigest(digest) && ValidCases(views) && |ids| == |views| && k < |s.battles|
    requires u < |s.users| && s.users[u].clientSeed.Some? && seed < |s.seeds|
    ensures var p := PlayOne(s, digest, k, u, seed, ids, views);
            && p == s.(seeds := p.seeds, rows := p.rows) && s.rows <= p.rows && |p.seeds| == |s.seeds|
            && |p.rows| == |s.rows| + |ids|
            && (forall i :: |s.rows| <= i < |p.rows| ==> BattleDrop(p.rows[i], k) && p.rows[i].user == u)
  {
    hide IsDigest, ValidCase, RollAll, DropRow;
    var first := s.seeds[seed].nonce + 1;
    var block := RollAll(digest, u, seed, s.users[u].clientSeed.value, first, ids, views, Some(k));
    forall i | 0 <= i < |block| ensures BattleDrop(block[i], k) && block[i].user == u {
      DropRowUser(digest, u, seed, s.users[u].clientSeed.value, first, ids, views, Some(k), i);
    }
  }

  lemma SeatedLater(seats: seq<Seat>, u: nat)
    requires seats != []
    ensures SeatedAmong(seats, seats[0].user)
    ensures SeatedAmong(seats[1..], u) ==> SeatedAmong(seats, u)
  {
    assert seats[0].user == seats[0].user;
    if SeatedAmong(seats[1..], u) {
      var j :| 0 <= j < |seats[1..]| && seats[1..][j].user == u;
      assert seats[j + 1].user == u;
    }
  }

  /** Playing only reserves nonces and appends this battle's openings. */
  lemma {:induction false} PlayedIs(s: State, digest: Digest, k: nat, seats: seq<Seat>, ids: seq<nat>, views: seq<Case>)
    requires IsDigest(digest) && ValidCases(views) && |ids| == |views| && k < |s.battles|
    requires forall i :: 0 <= i < |seats| ==> seats[i].user < |s.users|
    requires PlaySeats(s, digest, k, seats, ids, views).Ok?
    ensures var p := PlaySeats(s, digest, k, seats, ids, views).value;
            && p == s.(seeds := p.seeds, rows := p.rows) && s.rows <= p.rows && |p.seeds| == |s.seeds|
            && |p.rows| == |s.rows| + |seats| * |ids|
            && (forall i :: |s.rows| <= i < |p.rows| ==>
                  BattleDrop(p.rows[i], k) && SeatedAmong(seats, p.rows[i].user))
    decreases |seats|
  {
    if seats != [] {
      var u := seats[0].user;
      var seed := ActiveSeed(s.seeds, u).value;
      var next := PlayOne(s, digest, k, u, seed, ids, views);
      PlayOneIs(s, digest, k, u, seed, ids, views);
      assert PlaySeats(s, digest, k, seats, ids, views) == PlaySeats(next, digest, k, seats[1..], ids, views);
      hide IsDigest, ValidCases, PlayOne, PlaySeats, ActiveSeed, BattleDrop, SeatedAmong;
      PlayedIs(next, digest, k, seats[1..], ids, views);
      var p := PlaySeats(s, digest, k, seats, ids, views).value;
      OneMorePrice(|seats| - 1, |ids|);
      forall i | |s.rows| <= i < |p.rows| ensures BattleDrop(p.rows[i], k) && SeatedAmong(seats, p.rows[i].user) {
        SeatedLater(seats, p.rows[i].user);
        assert i < |next.rows| ==> p.rows[i] == next.rows[i];
      }
    }
  }

  lemma DropRowUser(digest: Digest, u: nat, seed: nat, client: nat, first: nat, ids: seq<nat>, views: seq<Case>, battle: Option<nat>, i: nat)
    requires IsDigest(digest) && ValidCases(views) && |ids| == |views| && i < |ids|
    ensures var rows := RollAll(digest, u, seed, client, first, ids, views, battle);
            rows[i].user == u && rows[i].purpose.Opening? && rows[i].purpose.battle == RoundOf(battle, i + 1)
  {
    RollAllIs(digest, u, seed, client, first, ids, views, battle);
  }
}
