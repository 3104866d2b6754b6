/**
 * What holds in every reachable world, over all interleavings of requests,
 * retries, lost replies, crashes and market moves.
 */
module MarketSafety {
  import opened Wrappers
  import opened Market
  import opened MarketWorld
  import opened MarketInvariant
  import opened MarketSteps

  lemma ItemMoveStep(w: World, m: OutsideMove)
    requires Inv(w) && OutsideEnabled(w, m) && (m.NewItem? || m.Reprice? || m.Spend?)
    ensures Inv(OutsideStep(w, m))
  {
    if m.Spend? {
      assert ItemOk(w, m.i);
    }
    ItemStep(w, m.i, OutsideStep(w, m).items[m.i]);
  }

  lemma RequestMoveStep(w: World, m: OutsideMove)
    requires Inv(w) && OutsideEnabled(w, m) && (m.Submit? || m.Cancel?)
    ensures Inv(OutsideStep(w, m))
  {
    if m.Submit? {
      SubmitStep(w, m.r, m.lines);
    } else {
      CancelStep(w, m.r);
    }
  }

  lemma SystemMoveStep(w: World, m: OutsideMove)
    requires Inv(w) && OutsideEnabled(w, m) && (m.Tick? || m.MarketMoves? || m.Crash?)
    ensures Inv(OutsideStep(w, m))
  {
    match m
    case Tick(ms) => TickStep(w, ms);
    case MarketMoves(id, k, stage) => MoveStep(w, id, k, stage);
    case Crash(r) => DropStep(w, r);
  }

  lemma OutsideKeepsInv(w: World, m: OutsideMove)
    requires Inv(w) && OutsideEnabled(w, m)
    ensures Inv(OutsideStep(w, m))
  {
    if m.Submit? || m.Cancel? {
      RequestMoveStep(w, m);
    } else if m.NewItem? || m.Reprice? || m.Spend? {
      ItemMoveStep(w, m);
    } else {
      SystemMoveStep(w, m);
    }
  }

  lemma RunMoveKeepsInv(w: World, r: RequestId, m: RunMove)
    requires Inv(w) && RunEnabled(w, r, m)
    ensures Inv(RunStep(w, r, m))
  {
    match m
    case Start(overpayBps) => StartStep(w, r, overpayBps);
    case Abandon => AbandonStep(w, r);
    case Ensure(id) => EnsureStep(w, r, id);
    case Lookup(shown) => LookupStep(w, r, shown);
    case Claim(account) => ClaimStep(w, r, account);
    case Search(found) => SearchStep(w, r, found);
    case Record => RecordStep(w, r);
    case Buy(answer) => BuyStep(w, r, answer);
    case Write => WriteStep(w, r);
    case LeaveLoop => LeaveStep(w, r);
  }

  lemma WatchKeepsInv(w: World, r: RequestId, m: WatchMove)
    requires Inv(w) && WatchEnabled(w, r, m)
    ensures Inv(WatchStep(w, r, m))
  {
    match m
    case PollAsk(i, reply) => PollAskStep(w, r, i, reply);
    case PollApply(i) => PollApplyStep(w, r, i);
    case SettleBegin => TaskStep(w, r, SettleDue);
    case SettleRead => SettleReadStep(w, r);
    case SettleWrite => SettleWriteStep(w, r);
  }

  lemma StepKeepsInv(w: World, a: Action)
    requires Inv(w) && Enabled(w, a)
    ensures Inv(Step(w, a))
  {
    match a
    case Outside(m) => OutsideKeepsInv(w, m);
    case Running(r, m) => RunMoveKeepsInv(w, r, m);
    case Watching(r, m) => WatchKeepsInv(w, r, m);
  }

  lemma {:induction false} RunKeepsInv(w: World, actions: seq<Action>)
    requires Inv(w) && Feasible(w, actions)
    ensures Inv(After(w, actions))
    decreases |actions|
  {
    if actions != [] {
      StepKeepsInv(w, actions[0]);
      RunKeepsInv(Step(w, actions[0]), actions[1..]);
    }
  }

  lemma ReachableInv(w: World)
    requires Reachable(w)
    ensures Inv(w)
  {
    var actions :| Feasible(EMPTY_WORLD, actions) && After(EMPTY_WORLD, actions) == w;
    RunKeepsInv(EMPTY_WORLD, actions);
  }

  /** An uncancelled charge: money the market has taken for this item and not returned. */
  predicate Standing(w: World, i: ItemId, k: nat) {
    i in w.rows && k < |HistoryOf(w, i)| && !IsCancelled(HistoryOf(w, i)[k])
  }

  /** An item somebody has paid a seller for is not in the player's hands. */
  lemma PaidItemsStayLocked(w: World, i: ItemId, k: nat)
    requires Reachable(w) && Standing(w, i, k)
    ensures i in w.items
    ensures w.items[i].status.Locked? || w.items[i].status.Withdrawn?
    ensures w.items[i].request == Some(w.rows[i].request)
  {
    ReachableInv(w);
    assert ItemOk(w, i);
  }

  /** An item the player may sell, stake or request again has no standing charge on any account. */
  lemma AvailableItemsAreUnpaid(w: World, i: ItemId)
    requires Reachable(w) && i in w.items && (w.items[i].status.Available? || w.items[i].status.Spent?)
    ensures forall k :: !Standing(w, i, k)
  {
    forall k ensures !Standing(w, i, k) {
      if Standing(w, i, k) {
        PaidItemsStayLocked(w, i, k);
      }
    }
  }

  /** This channel marks an item withdrawn only once the market has delivered it. */
  lemma WithdrawnItemsWereDelivered(w: World, i: ItemId)
    requires Reachable(w) && i in w.items && w.items[i].status.Withdrawn?
    ensures i in w.rows && HistoryOf(w, i) != []
    ensures ClassifyStage(Last(HistoryOf(w, i)).stage).Given?
  {
    ReachableInv(w);
    assert ItemOk(w, i);
  }

  /** Never paying twice: at most one standing charge, on the recorded account, within the ceiling. */
  lemma AtMostOneStandingCharge(w: World, i: ItemId, j: nat, k: nat)
    requires Reachable(w) && Standing(w, i, j) && Standing(w, i, k)
    ensures j == k == |HistoryOf(w, i)| - 1
    ensures w.rows[i].account == Some(HistoryOf(w, i)[k].account)
    ensures var q := w.rows[i].quote;
            HistoryOf(w, i)[k].price * 10_000 <= Max(q.catalogue, q.acquired) * (10_000 + q.overpayBps)
  {
    ReachableInv(w);
    assert HistoryOk(w.rows[i], HistoryOf(w, i));
    var q := w.rows[i].quote;
    MaxPayableIsTightest(Max(q.catalogue, q.acquired), q.overpayBps, HistoryOf(w, i)[k].price);
  }

  /** The same row, belonging to the same request, paid from the same account under the same ceiling. */
  predicate SamePurchase(p: Purchase, q: Purchase) {
    p.id == q.id && p.request == q.request && p.account == q.account && p.maxPrice == q.maxPrice && p.quote == q.quote
  }

  ghost predicate Pinned(w: World, v: World, i: ItemId)
    requires i in w.rows
  {
    i in v.rows && SamePurchase(w.rows[i], v.rows[i]) && |HistoryOf(v, i)| == |HistoryOf(w, i)|
  }

  lemma EnsurePins(w: World, r: RequestId, id: CustomId, i: ItemId, k: nat)
    requires Inv(w) && CanEnsure(w, r, id) && Standing(w, i, k)
    ensures Pinned(w, DoEnsure(w, r, id), i)
  {
    RunHolds(w, r);
    EnsureNeverThrows(w, r);
    var line := CurrentLine(w, r);
    EnsureShape(w, r, id, line, EnsuredRow(w, r, line, id, w.tasks[r].overpayBps));
    assert HistoryOk(w.rows[i], HistoryOf(w, i));
    assert ItemOk(w, line);
  }

  lemma BuyPins(w: World, r: RequestId, answer: BuyAnswer, i: ItemId, k: nat)
    requires Inv(w) && CanBuy(w, r, answer) && Standing(w, i, k)
    ensures Pinned(w, DoBuy(w, r, answer), i)
  {
    RunHolds(w, r);
    assert w.rows[CurrentLine(w, r)].id == PhaseOf(w, r).p.id;
  }

  lemma RecordPins(w: World, r: RequestId, i: ItemId, k: nat)
    requires Inv(w) && CanRecord(w, r) && Standing(w, i, k)
    ensures Pinned(w, DoRecord(w, r), i)
  {
    RunHolds(w, r);
  }

  /** The other statements of a run write neither rows nor charges. */
  lemma UntouchedPins(w: World, r: RequestId, m: RunMove, i: ItemId)
    requires RunEnabled(w, r, m) && !m.Ensure? && !m.Buy? && !m.Record? && !m.Write? && i in w.rows
    ensures Pinned(w, RunStep(w, r, m), i)
  {
  }

  lemma WritePins(w: World, r: RequestId, i: ItemId)
    requires CanWrite(w, r) && i in w.rows
    ensures Pinned(w, DoWrite(w, r), i)
  {
  }

  lemma RunMovePins(w: World, r: RequestId, m: RunMove, i: ItemId, k: nat)
    requires Inv(w) && RunEnabled(w, r, m) && Standing(w, i, k)
    ensures Pinned(w, RunStep(w, r, m), i)
  {
    hide Inv, Pinned;
    match m
    case Ensure(id) => EnsurePins(w, r, id, i, k);
    case Buy(answer) => BuyPins(w, r, answer, i, k);
    case Record => RecordPins(w, r, i, k);
    case Write => WritePins(w, r, i);
    case _ => UntouchedPins(w, r, m, i);
  }

  lemma WatchPins(w: World, r: RequestId, m: WatchMove, i: ItemId, k: nat)
    requires Inv(w) && WatchEnabled(w, r, m) && Standing(w, i, k)
    ensures Pinned(w, WatchStep(w, r, m), i)
  {
  }

  /** While a charge stands, no step moves the row to another request or account, or buys again. */
  lemma StandingChargePinsRow(w: World, a: Action, i: ItemId, k: nat)
    requires Inv(w) && Enabled(w, a) && Standing(w, i, k)
    ensures Pinned(w, Step(w, a), i)
  {
    match a
    case Outside(m) =>
    case Running(r, m) => RunMovePins(w, r, m, i, k);
    case Watching(r, m) => WatchPins(w, r, m, i, k);
  }
}
