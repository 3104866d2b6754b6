/**
 * Why the protocol's environment is assumed to be what it is: each lemma
 * takes any reachable world, breaks one premise, lets the worker go on as it
 * would, and shows the harm. The worlds they ask for are reached.
 */
module MarketPremises {
  import opened Wrappers
  import opened Market
  import opened MarketWorld
  import opened MarketInvariant
  import opened MarketProcessor
  import opened MarketSafety
  import opened MarketSettle
  import opened MarketSteps

  /** The rest of a first attempt after the offer was found: record it, send it, the market accepts. */
  function RecordAndBuy(w: World, r: RequestId, marketId: nat, price: nat): World
    requires CanRecord(w, r) && price <= PhaseOf(w, r).p.maxPrice
  {
    DoBuy(DoRecord(w, r), r, Accepted(marketId, price))
  }

  lemma StartedLineIsReleased(w: World, r: RequestId)
    requires Inv(w) && CanRecord(w, r) && PhaseOf(w, r).p.attempts == 0
    ensures var i, s := CurrentLine(w, r), Settle(w, r);
            i in s.items && s.items[i].status.Available? && s.rows == w.rows && s.charges == w.charges && s.tasks == w.tasks
    ensures Settle(w, r).requests[r].lines == w.requests[r].lines && w.rows[CurrentLine(w, r)].id == PhaseOf(w, r).p.id
  {
    var i := CurrentLine(w, r);
    RunHolds(w, r);
    hide Inv;
    assert Outcome(w, r, i).RefundedLine? && Attached(w, r, i);
    PlanCountsEveryLine(w, r, w.requests[r].lines);
    hide PlanOf;
    assert i in PlanOf(w, r, w.requests[r].lines).release;
  }

  /**
   * A settle in the middle of a run: the line about to be bought counts as
   * never started, so its item goes back to the player, and the purchase then
   * goes through all the same.
   */
  lemma SettleDuringRunGivesAwayPaidItem(w: World, r: RequestId, marketId: nat, price: nat)
    requires Reachable(w) && CanRecord(w, r) && PhaseOf(w, r).p.attempts == 0 && price <= PhaseOf(w, r).p.maxPrice
    ensures CanRecord(Settle(w, r), r)
    ensures var i, v := CurrentLine(w, r), RecordAndBuy(Settle(w, r), r, marketId, price);
            && i in v.items && v.items[i].status.Available?
            && Standing(v, i, |HistoryOf(w, i)|)
  {
    ReachableInv(w);
    hide Inv, Settle;
    StartedLineIsReleased(w, r);
  }

  /** What a worker does that was told, wrongly, that nothing stands: it claims, finds an offer, and buys again. */
  function BuyAgain(w: World, r: RequestId, account: AccountId, marketId: nat, price: nat): World
    requires OnLine(w, r) && PhaseOf(w, r).Ensured? && CurrentLine(w, r) in w.rows && price <= PhaseOf(w, r).p.maxPrice
  {
    var p := PhaseOf(w, r).p;
    var cleared := ToPhase(w, r, Clear(p));
    var claimed := DoClaim(cleared, r, Some(account));
    var found := ToPhase(claimed, r, Recording(p, account));
    RecordAndBuy(found, r, marketId, price)
  }

  /** A lookup that misses a standing charge: the retry pays a second time for the same item. */
  lemma BlindRetryPaysTwice(w: World, r: RequestId, account: AccountId, marketId: nat, price: nat, k: nat)
    requires Reachable(w) && OnLine(w, r) && PhaseOf(w, r).Ensured? && AsksFirst(PhaseOf(w, r).p)
    requires price <= PhaseOf(w, r).p.maxPrice && Standing(w, CurrentLine(w, r), k)
    ensures CurrentLine(w, r) in w.rows
    ensures var i, v := CurrentLine(w, r), BuyAgain(w, r, account, marketId, price);
            k != |HistoryOf(w, i)| && Standing(v, i, k) && Standing(v, i, |HistoryOf(w, i)|)
  {
    ReachableInv(w);
    RunHolds(w, r);
  }

  /** A lookup answered with a refusal: the row is written off while the charge stands. */
  lemma RefusedLookupForgetsCharge(w: World, r: RequestId, k: nat)
    requires Reachable(w) && OnLine(w, r) && PhaseOf(w, r).Ensured? && Standing(w, CurrentLine(w, r), k)
    ensures CurrentLine(w, r) in w.rows
    ensures var i, v := CurrentLine(w, r), DoWrite(ToPhase(w, r, Failing(PhaseOf(w, r).p)), r);
            v.rows[i].status.Failed? && Standing(v, i, k)
  {
    ReachableInv(w);
    RunHolds(w, r);
  }

  /** What a poll writes onto a row it asked about, from an answer it may get. */
  function PolledOver(w: World, i: ItemId, reply: Reply): World
    requires i in w.rows
  {
    match PollWrite(w.rows[i], Asked(w.rows[i], reply, w.now), w.now)
    case None => w
    case Some(p) => PutRow(w, i, p)
  }

  /** The run goes on with what it holds: it records its attempt and buys, and the reply is lost. */
  function BuysBlindly(w: World, r: RequestId, marketId: nat, price: nat): World
    requires CanRecord(w, r) && price <= PhaseOf(w, r).p.maxPrice
  {
    DoBuy(DoRecord(w, r), r, ChargedReplyLost(marketId, price))
  }

  lemma PolledLineIsWrittenOff(w: World, r: RequestId, reply: Reply, marketId: nat, price: nat)
    requires Inv(w) && CanRecord(w, r) && price <= PhaseOf(w, r).p.maxPrice
    requires PolledOver(w, CurrentLine(w, r), reply).rows[CurrentLine(w, r)].status.Failed?
    ensures CanRecord(PolledOver(w, CurrentLine(w, r), reply), r)
    ensures var i := CurrentLine(w, r); var v := BuysBlindly(PolledOver(w, i, reply), r, marketId, price);
            && RowOfRun(v, r, i) && v.rows[i].status.Failed? && Standing(v, i, |HistoryOf(w, i)|)
            && v.requests == w.requests && v.items == w.items
  {
    RunHolds(w, r);
    hide Inv;
  }

  /**
   * A poll of the row in the middle of a retry: the retry has asked, found
   * nothing and is about to buy when the poll, which finds nothing either,
   * writes the row off. The purchase goes through, the charge stands on a
   * FAILED row, and the run's own settle gives the item back.
   */
  lemma PollDuringRunForgetsCharge(w: World, r: RequestId, reply: Reply, marketId: nat, price: nat)
    requires Reachable(w) && CanRecord(w, r) && price <= PhaseOf(w, r).p.maxPrice
    requires PolledOver(w, CurrentLine(w, r), reply).rows[CurrentLine(w, r)].status.Failed?
    ensures CanRecord(PolledOver(w, CurrentLine(w, r), reply), r)
    ensures var i := CurrentLine(w, r); var v := BuysBlindly(PolledOver(w, i, reply), r, marketId, price);
            && v.rows[i].status.Failed? && Standing(v, i, |HistoryOf(w, i)|)
            && r in v.requests && i in Settle(v, r).items && Settle(v, r).items[i].status.Available?
  {
    ReachableInv(w);
    hide Reachable;
    RunHolds(w, r);
    PolledLineIsWrittenOff(w, r, reply, marketId, price);
    hide Inv, BuysBlindly, PolledOver, Settle, PhaseOk;
    var i := CurrentLine(w, r);
    var v := BuysBlindly(PolledOver(w, i, reply), r, marketId, price);
    SettleMovesEachLine(v, r, i);
  }

  /** The account row is deleted, and the purchase rows that name it forget it. */
  function ForgetAccount(w: World, account: AccountId): World {
    w.(rows := map i | i in w.rows ::
         if w.rows[i].account == Some(account) then w.rows[i].(account := None) else w.rows[i])
  }

  /** A retry whose row has lost its account asks nobody: it claims another account and pays again. */
  lemma DeletedAccountPaysTwice(w: World, r: RequestId, id: CustomId, account: AccountId, marketId: nat, price: nat, k: nat)
    requires Reachable(w) && OnLine(w, r) && PhaseOf(w, r).AtLine?
    requires Standing(w, CurrentLine(w, r), k) && w.rows[CurrentLine(w, r)].status.Pending?
    requires price <= w.rows[CurrentLine(w, r)].maxPrice
    ensures var i := CurrentLine(w, r);
            var gone := ForgetAccount(w, HistoryOf(w, i)[k].account);
            && CanEnsure(gone, r, id)
            && var e := DoEnsure(gone, r, id);
               && CanClaim(e, r) && PhaseOf(e, r).Ensured? && !AsksFirst(PhaseOf(e, r).p) && price <= PhaseOf(e, r).p.maxPrice
               && var v := BuyAgain(e, r, account, marketId, price);
                  k != |HistoryOf(w, i)| && Standing(v, i, k) && Standing(v, i, |HistoryOf(w, i)|)
  {
    PaidItemsStayLocked(w, CurrentLine(w, r), k);
    AtMostOneStandingCharge(w, CurrentLine(w, r), k, k);
    ReachableInv(w);
    RunHolds(w, r);
    var i := CurrentLine(w, r);
    assert HistoryOk(w.rows[i], HistoryOf(w, i)) && HeldFor(w, r, i);
    hide Inv;
  }

  // ----- such worlds are reached

  lemma ReachOn(w: World, a: Action)
    requires Reachable(w) && Enabled(w, a)
    ensures Reachable(Step(w, a))
  {
    LeadsOn(EMPTY_WORLD, w, a);
  }

  lemma Arrives(w: World, a: Action, v: World)
    requires Reachable(w) && Enabled(w, a) && Step(w, a) == v
    ensures Reachable(v)
  {
    ReachOn(w, a);
  }

  const LOCKED_ITEM := Item(Locked, Some(0), 100, 100)
  const FIRST_ROW := Purchase(0, 0, None, Pending, 0, 100, None, None, None, 0, Quote(100, 100, 0))
  const TRIED_ROW := FIRST_ROW.(account := Some(0), attempts := 1)
  const SILENT_CHARGE := Charge(0, 7, 100, 1)
  const LATER := UNCONFIRMED_GRACE_MS + 1

  /** One request of one item, being processed. */
  function OneLine(now: nat, row: Option<Purchase>, charges: map<CustomId, seq<Charge>>, tasks: map<RequestId, Task>): World {
    World(now, map[0 := LOCKED_ITEM], map[0 := Request([0], Processing, None, None)],
          if row.Some? then map[0 := row.value] else map[], charges, tasks)
  }

  /** Where the run of that request stands. */
  function InPhase(phase: Phase): map<RequestId, Task> {
    map[0 := Run(0, phase, 0)]
  }

  lemma RunIsStarted()
    ensures Reachable(OneLine(0, None, map[], InPhase(AtLine)))
  {
    hide Reachable;
    EmptyIsReached();
    var owned := EMPTY_WORLD.(items := map[0 := Item(Available, None, 100, 100)]);
    Arrives(EMPTY_WORLD, Outside(NewItem(0, 100, 100)), owned);
    var queued := EMPTY_WORLD.(items := map[0 := LOCKED_ITEM], requests := map[0 := Request([0], Queued, None, None)]);
    Arrives(owned, Outside(Submit(0, [0])), queued);
    Arrives(queued, Running(0, Start(0)), OneLine(0, None, map[], InPhase(AtLine)));
  }

  lemma EmptyIsReached()
    ensures Reachable(EMPTY_WORLD)
  {
    assert Feasible(EMPTY_WORLD, []) && After(EMPTY_WORLD, []) == EMPTY_WORLD;
  }

  /** A first attempt whose offer has been found: the world `SettleDuringRunGivesAwayPaidItem` asks for. */
  lemma FirstAttemptIsReached()
    ensures var w := OneLine(0, Some(FIRST_ROW), map[], InPhase(Recording(FIRST_ROW, 0)));
            Reachable(w) && CanRecord(w, 0) && PhaseOf(w, 0).p.attempts == 0 && PhaseOf(w, 0).p.maxPrice == 100
  {
    hide Reachable;
    RunIsStarted();
    var w1 := OneLine(0, None, map[], InPhase(AtLine));
    var w2 := OneLine(0, Some(FIRST_ROW), map[], InPhase(Ensured(FIRST_ROW)));
    var w3 := OneLine(0, Some(FIRST_ROW), map[], InPhase(Searching(FIRST_ROW, 0)));
    var w4 := OneLine(0, Some(FIRST_ROW), map[], InPhase(Recording(FIRST_ROW, 0)));
    assert Ceiling(Quote(100, 100, 0)) == 100;
    Arrives(w1, Running(0, Ensure(0)), w2);
    Arrives(w2, Running(0, RunMove.Claim(Some(0))), w3);
    Arrives(w3, Running(0, Search(OfferWithinCap)), w4);
  }

  /** The attempt went out, the reply was lost, the worker crashed, and the job starts over some time later. */
  lemma RetryIsStarted(charged: bool, later: nat)
    ensures var charges := if charged then map[0 := [SILENT_CHARGE]] else map[];
            Reachable(OneLine(later, Some(TRIED_ROW), charges, InPhase(AtLine)))
  {
    hide Reachable;
    FirstAttemptIsReached();
    var charges := if charged then map[0 := [SILENT_CHARGE]] else map[];
    var w1 := OneLine(0, Some(FIRST_ROW), map[], InPhase(Recording(FIRST_ROW, 0)));
    var w2 := OneLine(0, Some(TRIED_ROW), map[], InPhase(Sending(FIRST_ROW, 0)));
    var w3 := OneLine(0, Some(TRIED_ROW), charges, map[0 := Run(1, AtLine, 0)]);
    Arrives(w1, Running(0, Record), w2);
    if charged {
      assert History(w2, 0) + [SILENT_CHARGE] == [SILENT_CHARGE];
      Arrives(w2, Running(0, RunMove.Buy(ChargedReplyLost(7, 100))), w3);
    } else {
      Arrives(w2, Running(0, RunMove.Buy(NotChargedReplyLost)), w3);
    }
    Restarts(charges, later);
  }

  lemma Restarts(charges: map<CustomId, seq<Charge>>, later: nat)
    requires Reachable(OneLine(0, Some(TRIED_ROW), charges, map[0 := Run(1, AtLine, 0)]))
    ensures Reachable(OneLine(later, Some(TRIED_ROW), charges, InPhase(AtLine)))
  {
    hide Reachable;
    var w3 := OneLine(0, Some(TRIED_ROW), charges, map[0 := Run(1, AtLine, 0)]);
    var w4 := OneLine(0, Some(TRIED_ROW), charges, map[]);
    var w5 := OneLine(later, Some(TRIED_ROW), charges, map[]);
    Arrives(w3, Outside(Crash(0)), w4);
    Arrives(w4, Outside(Tick(later)), w5);
    Arrives(w5, Running(0, Start(0)), OneLine(later, Some(TRIED_ROW), charges, InPhase(AtLine)));
  }

  /** A retry with its first charge standing: the worlds the lemmas about lookups and deleted accounts ask for. */
  lemma ChargedRetryIsReached()
    ensures var w := OneLine(0, Some(TRIED_ROW), map[0 := [SILENT_CHARGE]], InPhase(AtLine));
            Reachable(w) && OnLine(w, 0) && PhaseOf(w, 0).AtLine? && Standing(w, CurrentLine(w, 0), 0)
    ensures var w := OneLine(0, Some(TRIED_ROW), map[0 := [SILENT_CHARGE]], InPhase(Ensured(TRIED_ROW)));
            && Reachable(w) && OnLine(w, 0) && PhaseOf(w, 0).Ensured? && AsksFirst(PhaseOf(w, 0).p)
            && Standing(w, CurrentLine(w, 0), 0)
  {
    hide Reachable;
    RetryIsStarted(true, 0);
    var w1 := OneLine(0, Some(TRIED_ROW), map[0 := [SILENT_CHARGE]], InPhase(AtLine));
    var w2 := OneLine(0, Some(TRIED_ROW), map[0 := [SILENT_CHARGE]], InPhase(Ensured(TRIED_ROW)));
    Arrives(w1, Running(0, Ensure(0)), w2);
  }

  lemma OldRetryIsClear()
    ensures Reachable(OneLine(LATER, Some(TRIED_ROW), map[], InPhase(Clear(TRIED_ROW))))
  {
    hide Reachable;
    RetryIsStarted(false, LATER);
    var w1 := OneLine(LATER, Some(TRIED_ROW), map[], InPhase(AtLine));
    var w2 := OneLine(LATER, Some(TRIED_ROW), map[], InPhase(Ensured(TRIED_ROW)));
    Arrives(w1, Running(0, Ensure(0)), w2);
    Arrives(w2, Running(0, RunMove.Lookup(Answered(Missing))), OneLine(LATER, Some(TRIED_ROW), map[], InPhase(Clear(TRIED_ROW))));
  }

  lemma OldRetryFindsOffer()
    ensures Reachable(OneLine(LATER, Some(TRIED_ROW), map[], InPhase(Recording(TRIED_ROW, 0))))
  {
    hide Reachable;
    OldRetryIsClear();
    var w3 := OneLine(LATER, Some(TRIED_ROW), map[], InPhase(Clear(TRIED_ROW)));
    var w4 := OneLine(LATER, Some(TRIED_ROW), map[], InPhase(Searching(TRIED_ROW, 0)));
    Arrives(w3, Running(0, RunMove.Claim(Some(0))), w4);
    Arrives(w4, Running(0, Search(OfferWithinCap)), OneLine(LATER, Some(TRIED_ROW), map[], InPhase(Recording(TRIED_ROW, 0))));
  }

  /** A retry about to buy, old enough for a poll to write its row off. */
  lemma OldRetryIsReached()
    ensures var w := OneLine(LATER, Some(TRIED_ROW), map[], InPhase(Recording(TRIED_ROW, 0)));
            && Reachable(w) && CanRecord(w, 0) && CurrentLine(w, 0) == 0 && OpenRow(w.rows[0])
            && PollReplyTruthful(w, w.rows[0], Missing) && PolledOver(w, 0, Missing).rows[0].status.Failed?
  {
    hide Reachable;
    OldRetryFindsOffer();
  }
}
