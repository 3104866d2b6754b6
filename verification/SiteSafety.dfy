/** What holds over every run of the site. */
module SiteSafety {
  import opened ContractOdds
  import Rolls
  import opened Site
  import opened SiteBattles
  import opened SiteCases
  import opened SiteInvariant
  import opened SiteOpenings
  import opened SiteRuns
  import opened SiteSettlement
  import opened Wrappers

  ghost predicate Feasible(s: State, digest: Digest, maths: Maths, run: seq<Move>)
    requires IsDigest(digest) && maths.Valid() && Inv(s, digest)
    decreases |run|
  {
    run == []
    || (Possible(s, run[0])
        && (StepKeeps(s, digest, maths, run[0]); Feasible(Step(s, digest, maths, run[0]), digest, maths, run[1..])))
  }

  ghost function After(s: State, digest: Digest, maths: Maths, run: seq<Move>): State
    requires IsDigest(digest) && maths.Valid() && Inv(s, digest) && Feasible(s, digest, maths, run)
    decreases |run|
  {
    if run == [] then s
    else
      StepKeeps(s, digest, maths, run[0]);
      After(Step(s, digest, maths, run[0]), digest, maths, run[1..])
  }

  /** Nothing yet. */
  predicate Empty(s: State) {
    s.users == [] && s.ledger == [] && s.seeds == [] && s.rows == [] && s.bonuses == [] && s.cases == []
    && s.battles == [] && s.inventory == []
  }

  lemma EmptyIsFine(s: State, digest: Digest)
    requires IsDigest(digest) && Empty(s)
    ensures Inv(s, digest)
  {
  }

  lemma {:induction false} RunKeepsInv(s: State, digest: Digest, maths: Maths, run: seq<Move>)
    requires IsDigest(digest) && maths.Valid() && Inv(s, digest) && Feasible(s, digest, maths, run)
    ensures Inv(After(s, digest, maths, run), digest)
    decreases |run|
  {
    hide IsDigest, Inv, Step, Possible;
    if run != [] {
      StepKeeps(s, digest, maths, run[0]);
      RunKeepsInv(Step(s, digest, maths, run[0]), digest, maths, run[1..]);
    }
  }

  /** The empty site is fine, and so is every site reached from it. */
  lemma ReachedFromEmptyIsFine(s: State, digest: Digest, maths: Maths, run: seq<Move>)
    requires IsDigest(digest) && maths.Valid() && Empty(s)
    ensures Inv(s, digest)
    ensures Feasible(s, digest, maths, run) ==> Inv(After(s, digest, maths, run), digest)
  {
    EmptyIsFine(s, digest);
    hide IsDigest, Inv, Step, Possible;
    if Feasible(s, digest, maths, run) {
      RunKeepsInv(s, digest, maths, run);
    }
  }

  /** In every reachable state each balance is the sum of its ledger rows and not negative. */
  lemma BalancesAgreeWithLedger(s: State, digest: Digest, maths: Maths, run: seq<Move>, u: nat)
    requires IsDigest(digest) && maths.Valid() && Inv(s, digest) && Feasible(s, digest, maths, run)
    requires u < |After(s, digest, maths, run).users|
    ensures var s' := After(s, digest, maths, run);
            s'.users[u].balance == LedgerSum(s'.ledger, u) && s'.users[u].balance >= 0
  {
    hide IsDigest, Step, Possible, After;
    RunKeepsInv(s, digest, maths, run);
    hide ItemsOk, BattlesOk, BattleLedgerOk, NoncesOk, RowsOk, SeedsOk;
  }

  /** In every reachable state the nonces used on a seed are exactly 1 to its counter, and no two rows share a pair. */
  lemma NoncesAreExact(s: State, digest: Digest, maths: Maths, run: seq<Move>, seed: nat)
    requires IsDigest(digest) && maths.Valid() && Inv(s, digest) && Feasible(s, digest, maths, run)
    requires seed < |After(s, digest, maths, run).seeds|
    ensures var s' := After(s, digest, maths, run);
            && NoncesOf(s'.rows, seed) == UpTo(s'.seeds[seed].nonce)
            && forall i, j :: 0 <= i < j < |s'.rows| && s'.rows[i].seed == seed && s'.rows[j].seed == seed ==>
                 s'.rows[i].nonce != s'.rows[j].nonce
  {
    hide IsDigest, Step, Possible, After;
    RunKeepsInv(s, digest, maths, run);
    hide ItemsOk, BattlesOk, BattleLedgerOk, RowsOk, SeedsOk;
    var s' := After(s, digest, maths, run);
    forall i, j | 0 <= i < j < |s'.rows| && s'.rows[i].seed == seed && s'.rows[j].seed == seed
      ensures s'.rows[i].nonce != s'.rows[j].nonce
    {
      NoNonceTwice(s'.seeds, s'.rows, i, j);
    }
  }

  // ----- rolls

  lemma JoinKeepsRows(s: State, digest: Digest, u: nat, k: nat)
    requires IsDigest(digest) && Inv(s, digest) && TxJoin(s, digest, u, k).Ok?
    ensures s.rows <= TxJoin(s, digest, u, k).value.rows
  {
    hide IsDigest, MoneyOk, SeedsOk, NoncesOk, RowsOk, ItemsOk, BattleLedgerOk, BattlesOk, Settle, Played;
    if s.battles[k].filledSlots + 1 < s.battles[k].slots {
      SeatTaken(s, k, u);
    } else {
      LastSeatTaken(s, digest, u, k);
      hide TakeSeat, TxJoin, CanSettle;
      var t := TakeSeat(s, k, u).value;
      WinnerTakesEverything(t, digest, k);
      hide Settles, SettledState;
    }
  }

  lemma OtherStepsKeepRows(s: State, digest: Digest, maths: Maths, m: Move)
    requires IsDigest(digest) && maths.Valid() && Inv(s, digest) && Possible(s, m) && !m.JoinBattle?
    ensures s.rows <= Step(s, digest, maths, m).rows
  {
    hide IsDigest, MoneyOk, GateAccepts, TxJoin, ValidCase, ValidWheel, ReadFrom, StoredCase, ItemsOk, NoncesOk, RowsOk,
         BattleLedgerOk, OpenRows, Applied, PickGrant, SliceAt, NewBattle, SeatsOk, ContractPool.BuiltPool, OutcomeAt;
  }

  lemma {:induction false} RunKeepsRows(s: State, digest: Digest, maths: Maths, run: seq<Move>)
    requires IsDigest(digest) && maths.Valid() && Inv(s, digest) && Feasible(s, digest, maths, run)
    ensures s.rows <= After(s, digest, maths, run).rows
    decreases |run|
  {
    hide IsDigest, Inv, Step, Possible;
    if run != [] {
      StepKeeps(s, digest, maths, run[0]);
      StepKeepsRows(s, digest, maths, run[0]);
      RunKeepsRows(Step(s, digest, maths, run[0]), digest, maths, run[1..]);
    }
  }

  lemma StepKeepsRows(s: State, digest: Digest, maths: Maths, m: Move)
    requires IsDigest(digest) && maths.Valid() && Inv(s, digest) && Possible(s, m)
    ensures s.rows <= Step(s, digest, maths, m).rows
  {
    hide IsDigest, Inv, TxJoin, GateAccepts, ValidCase, ValidWheel, ReadFrom, StoredCase;
    match m
    case JoinBattle(u, k) =>
      if TxJoin(s, digest, u, k).Ok? {
        JoinKeepsRows(s, digest, u, k);
      }
    case _ => OtherStepsKeepRows(s, digest, maths, m);
  }

  /** A roll once recorded is never changed, and every roll on record can be recomputed from its seeds and its nonce. */
  lemma RollsStayVerifiable(s: State, digest: Digest, maths: Maths, run: seq<Move>)
    requires IsDigest(digest) && maths.Valid() && Inv(s, digest) && Feasible(s, digest, maths, run)
    ensures var s' := After(s, digest, maths, run);
            && s.rows <= s'.rows
            && forall i :: 0 <= i < |s'.rows| ==>
                 var r := s'.rows[i];
                 && r.seed < |s'.seeds| && r.user == s'.seeds[r.seed].user
                 && IsHexDigest(digest(r.seed, r.client, r.nonce)) && r.roll == Rolls.RollFromHmac(digest(r.seed, r.client, r.nonce))
  {
    hide IsDigest, Step, Possible, After;
    RunKeepsInv(s, digest, maths, run);
    RunKeepsRows(s, digest, maths, run);
    hide ItemsOk, BattlesOk, BattleLedgerOk, NoncesOk, SeedsOk, MoneyOk;
    var s' := After(s, digest, maths, run);
    forall i | 0 <= i < |s'.rows| ensures RowOk(s'.rows[i], s'.seeds, digest) {
    }
  }

  // ----- battles

  predicate IsOver(b: BattleRow) {
    b.status == Finished || b.status == Cancelled
  }

  /** Battles that are over stay exactly as they are. */
  ghost predicate KeepsOver(before: seq<BattleRow>, later: seq<BattleRow>) {
    |before| <= |later| && forall k :: 0 <= k < |before| && IsOver(before[k]) ==> later[k] == before[k]
  }

  lemma JoinTouchesOne(s: State, digest: Digest, u: nat, k: nat)
    requires IsDigest(digest) && Inv(s, digest) && TxJoin(s, digest, u, k).Ok? && k < |s.battles|
    ensures var s' := TxJoin(s, digest, u, k).value;
            |s'.battles| == |s.battles| && s'.battles == s.battles[k := s'.battles[k]]
    ensures s.battles[k].status == Waiting && TxJoin(s, digest, u, k).value.bonuses == s.bonuses
  {
    hide IsDigest, MoneyOk, SeedsOk, NoncesOk, RowsOk, ItemsOk, BattleLedgerOk, BattlesOk, Settle, Played;
    if s.battles[k].filledSlots + 1 < s.battles[k].slots {
      SeatTaken(s, k, u);
    } else {
      LastSeatTaken(s, digest, u, k);
      hide TakeSeat, TxJoin, CanSettle;
      var t := TakeSeat(s, k, u).value;
      SettleFinishes(t, digest, k);
      hide Settles, SettledState;
      assert t.battles[k := TxJoin(s, digest, u, k).value.battles[k]]
          == s.battles[k := TxJoin(s, digest, u, k).value.battles[k]];
    }
  }

  lemma StepKeepsOver(s: State, digest: Digest, maths: Maths, m: Move)
    requires IsDigest(digest) && maths.Valid() && Inv(s, digest) && Possible(s, m)
    ensures KeepsOver(s.battles, Step(s, digest, maths, m).battles)
  {
    hide IsDigest, Inv, BattlesOk, MoneyOk, GateAccepts, TxJoin, ValidCase, ValidWheel, ReadFrom, StoredCase;
    match m
    case JoinBattle(u, k) =>
      if TxJoin(s, digest, u, k).Ok? {
        assert k < |s.battles| by { JoinNeedsBattle(s, digest, u, k); }
        JoinTouchesOne(s, digest, u, k);
      }
    case _ => OtherStepsKeepOver(s, digest, maths, m);
  }

  lemma JoinNeedsBattle(s: State, digest: Digest, u: nat, k: nat)
    requires IsDigest(digest) && Inv(s, digest) && TxJoin(s, digest, u, k).Ok?
    ensures k < |s.battles|
  {
  }

  lemma OtherStepsKeepOver(s: State, digest: Digest, maths: Maths, m: Move)
    requires IsDigest(digest) && maths.Valid() && Inv(s, digest) && Possible(s, m) && !m.JoinBattle?
    ensures KeepsOver(s.battles, Step(s, digest, maths, m).battles)
  {
    hide IsDigest, MoneyOk, GateAccepts, TxJoin, ValidCase, ValidWheel, ReadFrom, StoredCase, ItemsOk, NoncesOk, RowsOk,
         BattleLedgerOk, OpenRows, Applied, PickGrant, SliceAt, NewBattle, RefundSeats, SeatsOk, ContractPool.BuiltPool, OutcomeAt;
  }

  lemma {:induction false} RunKeepsOver(s: State, digest: Digest, maths: Maths, run: seq<Move>)
    requires IsDigest(digest) && maths.Valid() && Inv(s, digest) && Feasible(s, digest, maths, run)
    ensures KeepsOver(s.battles, After(s, digest, maths, run).battles)
    decreases |run|
  {
    hide IsDigest, Inv, Step, Possible;
    if run != [] {
      StepKeeps(s, digest, maths, run[0]);
      StepKeepsOver(s, digest, maths, run[0]);
      RunKeepsOver(Step(s, digest, maths, run[0]), digest, maths, run[1..]);
    }
  }

  /** Seats 1 to `filledSlots`, each of another player. */
  predicate SeatedInOrder(b: BattleRow) {
    && (forall i :: 0 <= i < |b.seats| ==> b.seats[i].slot == i + 1)
    && (forall i, j :: 0 <= i < j < |b.seats| ==> b.seats[i].user != b.seats[j].user)
  }

  /**
   * The battle state machine: no reachable state shows a running battle; the
   * seats are 1 to `filledSlots` for distinct players; a
   * waiting one has a free seat and at least its host; a finished one has all
   * its seats and a winner; what is over stays as it is; and every cancelled
   * seat was refunded exactly once, no other ever.
   */
  lemma BattlesRunTheirCourse(s: State, digest: Digest, maths: Maths, run: seq<Move>, k: nat, u: nat)
    requires IsDigest(digest) && maths.Valid() && Inv(s, digest) && Feasible(s, digest, maths, run)
    requires k < |After(s, digest, maths, run).battles|
    ensures var s' := After(s, digest, maths, run);
            var b := s'.battles[k];
            && b.status != Running
            && (b.status == Waiting ==> 1 <= b.filledSlots < b.slots)
            && (b.status == Finished ==> b.filledSlots == b.slots && b.winner.Some? && Settled(b))
            && |b.seats| == b.filledSlots && SeatedInOrder(b)
            && (k < |s.battles| && IsOver(s.battles[k]) ==> b == s.battles[k])
            && CountOf(s'.ledger, BattleRefund, k, u) == (if Seated(b, u) && b.status == Cancelled then 1 else 0)
            && CountOf(s'.ledger, BattleEntry, k, u) == (if Seated(b, u) then 1 else 0)
  {
    hide IsDigest, Step, Possible, After;
    RunKeepsInv(s, digest, maths, run);
    RunKeepsOver(s, digest, maths, run);
    hide ItemsOk, MoneyOk, NoncesOk, RowsOk, SeedsOk, CountOf, Seated, Settled;
    var s' := After(s, digest, maths, run);
    assert BattleOk(s'.battles[k], |s'.users|, |s'.cases|);
    assert PaidOnce(s'.ledger, s'.battles, k, u);
    if s'.battles[k].status == Finished {
      SettledHasWinner(s'.battles[k]);
    }
  }

  lemma SettledHasWinner(b: BattleRow)
    requires Settled(b)
    ensures b.winner.Some?
  {
    var k :| WonBy(b, k);
  }

  predicate OnlyBattles(run: seq<Move>) {
    forall i :: 0 <= i < |run| ==> IsBattleMove(run[i])
  }

  /** Over creations, joins, cancellations and sweeps, no money appears or disappears. */
  lemma {:induction false} BattlesConserveMoney(s: State, digest: Digest, maths: Maths, run: seq<Move>)
    requires IsDigest(digest) && maths.Valid() && Inv(s, digest) && Feasible(s, digest, maths, run) && OnlyBattles(run)
    ensures TotalMoney(After(s, digest, maths, run)) == TotalMoney(s)
    decreases |run|
  {
    hide IsDigest, Inv, Step, Possible, TotalMoney;
    if run != [] {
      StepKeeps(s, digest, maths, run[0]);
      BattlesConserveMoney(Step(s, digest, maths, run[0]), digest, maths, run[1..]);
    }
  }

  // ----- vouchers

  /** Rewards keep what they are, and a consumed one stays consumed. */
  ghost predicate KeepsConsumed(before: seq<Bonus>, later: seq<Bonus>) {
    |before| <= |later|
    && forall i :: 0 <= i < |before| ==>
         later[i].(consumed := before[i].consumed) == before[i] && (before[i].consumed ==> later[i].consumed)
  }

  lemma StepKeepsConsumed(s: State, digest: Digest, maths: Maths, m: Move)
    requires IsDigest(digest) && maths.Valid() && Inv(s, digest) && Possible(s, m)
    ensures KeepsConsumed(s.bonuses, Step(s, digest, maths, m).bonuses)
  {
    hide IsDigest, Inv, BattlesOk, MoneyOk, GateAccepts, TxJoin, ValidCase, ValidWheel, ReadFrom, StoredCase, KeepsConsumed;
    match m
    case JoinBattle(u, k) =>
      if TxJoin(s, digest, u, k).Ok? {
        assert k < |s.battles| by { JoinNeedsBattle(s, digest, u, k); }
        JoinTouchesOne(s, digest, u, k);
      }
      ConsumedStays(s.bonuses);
    case CancelBattle(u, k) =>
      RefundsLeaveBonuses(s, digest, k);
      ConsumedStays(s.bonuses);
    case SweepBattle(k) =>
      RefundsLeaveBonuses(s, digest, k);
      ConsumedStays(s.bonuses);
    case _ => OtherStepsKeepConsumed(s, digest, maths, m);
  }

  lemma ConsumedStays(bonuses: seq<Bonus>)
    ensures KeepsConsumed(bonuses, bonuses)
  {
  }

  lemma RefundsLeaveBonuses(s: State, digest: Digest, k: nat)
    requires IsDigest(digest) && Inv(s, digest)
    ensures k < |s.battles| ==> SeatsOk(s.battles[k], |s.users|)
    ensures k < |s.battles| && CancelAndRefund(s, k).Some? ==> CancelAndRefund(s, k).value.bonuses == s.bonuses
  {
    if k < |s.battles| {
      assert BattleOk(s.battles[k], |s.users|, |s.cases|);
      RefundsOnlyPay(s, k, s.battles[k].seats);
    }
  }

  lemma OtherStepsKeepConsumed(s: State, digest: Digest, maths: Maths, m: Move)
    requires IsDigest(digest) && maths.Valid() && Inv(s, digest) && Possible(s, m)
    requires !m.JoinBattle? && !m.CancelBattle? && !m.SweepBattle?
    ensures KeepsConsumed(s.bonuses, Step(s, digest, maths, m).bonuses)
  {
    hide IsDigest, MoneyOk, GateAccepts, TxJoin, ValidCase, ValidWheel, ReadFrom, StoredCase, ItemsOk, NoncesOk, RowsOk,
         BattleLedgerOk, OpenRows, BestVoucher, PickGrant, SliceAt, NewBattle, SeatsOk, ContractPool.BuiltPool, OutcomeAt;
  }

  lemma {:induction false} RunKeepsConsumed(s: State, digest: Digest, maths: Maths, run: seq<Move>)
    requires IsDigest(digest) && maths.Valid() && Inv(s, digest) && Feasible(s, digest, maths, run)
    ensures KeepsConsumed(s.bonuses, After(s, digest, maths, run).bonuses)
    decreases |run|
  {
    hide IsDigest, Inv, Step, Possible;
    if run != [] {
      StepKeeps(s, digest, maths, run[0]);
      StepKeepsConsumed(s, digest, maths, run[0]);
      RunKeepsConsumed(Step(s, digest, maths, run[0]), digest, maths, run[1..]);
    }
  }

  /** The voucher a committed opening spent, if it spent one. */
  function SpentBy(s: State, digest: Digest, m: Move): Option<nat>
    requires IsDigest(digest) && m.OpenCase? && (m.read.items != [] ==> ValidCase(m.read))
  {
    var r := TxOpenCase(s, digest, m.u, m.caseId, m.read, m.count, m.seen);
    if r.Ok? then r.value.bonus else None
  }

  /** A voucher is spent by at most one committed opening, however stale the list a later one read. */
  lemma VoucherSpentOnce(s: State, digest: Digest, maths: Maths, run: seq<Move>, second: Move)
    requires IsDigest(digest) && maths.Valid() && Inv(s, digest) && Feasible(s, digest, maths, run)
    requires run != [] && run[0].OpenCase? && SpentBy(s, digest, run[0]).Some?
    requires second.OpenCase? && (second.read.items != [] ==> ValidCase(second.read))
    ensures SpentBy(After(s, digest, maths, run), digest, second) != SpentBy(s, digest, run[0])
  {
    hide IsDigest, Inv, MoneyOk, GateAccepts, TxJoin, ValidCase, TxOpenCase, Step;
    var spent := SpentBy(s, digest, run[0]).value;
    StepKeeps(s, digest, maths, run[0]);
    SpentIsConsumed(s, digest, maths, run[0]);
    var s1 := Step(s, digest, maths, run[0]);
    RunKeepsConsumed(s1, digest, maths, run[1..]);
    SpentWasOpen(After(s, digest, maths, run), digest, second);
  }

  lemma SpentIsConsumed(s: State, digest: Digest, maths: Maths, m: Move)
    requires IsDigest(digest) && maths.Valid() && Inv(s, digest) && Possible(s, m)
    requires m.OpenCase? && SpentBy(s, digest, m).Some?
    ensures var bonuses := Step(s, digest, maths, m).bonuses;
            SpentBy(s, digest, m).value < |bonuses| && bonuses[SpentBy(s, digest, m).value].consumed
  {
    hide IsDigest, Inv, BestVoucher, OpenRows, ValidCase;
  }

  lemma SpentWasOpen(s: State, digest: Digest, m: Move)
    requires IsDigest(digest) && m.OpenCase? && (m.read.items != [] ==> ValidCase(m.read))
    ensures SpentBy(s, digest, m).Some? ==> SpentBy(s, digest, m).value < |s.bonuses| && !s.bonuses[SpentBy(s, digest, m).value].consumed
  {
  }

  /** What an opening charges is the list price less the voucher's saving, which never exceeds it. */
  lemma OpeningCharges(s: State, digest: Digest, m: Move)
    requires IsDigest(digest) && Inv(s, digest) && m.OpenCase? && (m.read.items != [] ==> ValidCase(m.read))
    requires TxOpenCase(s, digest, m.u, m.caseId, m.read, m.count, m.seen).Ok?
    ensures var o := TxOpenCase(s, digest, m.u, m.caseId, m.read, m.count, m.seen).value;
            && 0 <= o.saving <= m.read.price * m.count && o.totalPrice == m.read.price * m.count - o.saving
            && o.state.users[m.u].balance == s.users[m.u].balance - o.totalPrice
            && |o.drops| == m.count
  {
    hide IsDigest, MoneyOk, ItemsOk, NoncesOk, RowsOk, BattlesOk, BattleLedgerOk, OpenRows, BestVoucher, VoucherSaving;
    var used := Applied(s.bonuses, m.u, m.read.price, m.count, m.seen);
    ListAtLeastOne(m.read.price, m.count);
    if used.Some? {
      SavingIsAtMostListPrice(s.bonuses[used.value], |s.users|, m.read.price, m.count);
    }
  }
}
