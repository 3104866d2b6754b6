/** What one settle does to a request and to its items. */
module MarketSettle {
  import opened Wrappers
  import opened MarketWorld
  import opened MarketInvariant

  /** Reading the plan and writing it with nothing in between. */
  function Settle(w: World, r: RequestId): World
    requires r in w.requests
  {
    ApplyPlan(w, r, PlanOf(w, r, w.requests[r].lines))
  }

  /** How many of the lines came out one way. */
  function CountOf(w: World, r: RequestId, lines: seq<ItemId>, outcome: LineOutcome): nat {
    if lines == [] then 0
    else CountOf(w, r, lines[..|lines| - 1], outcome) + (if Outcome(w, r, lines[|lines| - 1]) == outcome then 1 else 0)
  }

  lemma {:induction false} CountBounds(w: World, r: RequestId, lines: seq<ItemId>, outcome: LineOutcome)
    ensures CountOf(w, r, lines, outcome) <= |lines|
    ensures CountOf(w, r, lines, outcome) == 0 <==> forall i :: i in lines ==> Outcome(w, r, i) != outcome
    ensures CountOf(w, r, lines, outcome) == |lines| <==> forall i :: i in lines ==> Outcome(w, r, i) == outcome
  {
    hide Outcome;
    if lines != [] {
      var init, last := lines[..|lines| - 1], lines[|lines| - 1];
      assert forall i :: i in lines <==> i in init || i == last by {
        assert lines == init + [last];
      }
      CountBounds(w, r, init, outcome);
    }
  }

  /** Every line is counted exactly once, and lands in the list its outcome calls for. */
  lemma {:induction false} PlanCountsEveryLine(w: World, r: RequestId, lines: seq<ItemId>)
    ensures var plan := PlanOf(w, r, lines);
            && plan.delivered == CountOf(w, r, lines, DeliveredLine)
            && plan.failed == CountOf(w, r, lines, RefundedLine)
            && plan.open == CountOf(w, r, lines, OpenLine)
            && plan.delivered + plan.failed + plan.open == |lines|
            && plan.delivered <= plan.bought <= plan.delivered + plan.open
    ensures forall i :: i in PlanOf(w, r, lines).release <==>
                          i in lines && Outcome(w, r, i).RefundedLine? && Attached(w, r, i)
    ensures forall i :: i in PlanOf(w, r, lines).deliver <==>
                          i in lines && Outcome(w, r, i).DeliveredLine? && Attached(w, r, i)
  {
    if lines != [] {
      var init, last := lines[..|lines| - 1], lines[|lines| - 1];
      assert lines == init + [last];
      PlanCountsEveryLine(w, r, init);
    }
  }

  /** What each final status says about the lines, both ways round. */
  lemma StatusSaysWhatHappened(w: World, r: RequestId)
    requires r in w.requests
    ensures var lines := w.requests[r].lines; var status := Settle(w, r).requests[r].status;
            && (status.Sent? <==> exists i :: i in lines && Outcome(w, r, i).OpenLine?)
            && (status.Completed? <==> lines != [] && forall i :: i in lines ==> Outcome(w, r, i).DeliveredLine?)
            && (status.Refused? <==> forall i :: i in lines ==> Outcome(w, r, i).RefundedLine?)
            && (status.Partial? <==>
                  && (forall i :: i in lines ==> !Outcome(w, r, i).OpenLine?)
                  && (exists i :: i in lines && Outcome(w, r, i).DeliveredLine?)
                  && (exists i :: i in lines && Outcome(w, r, i).RefundedLine?))
  {
    var lines := w.requests[r].lines;
    PlanCountsEveryLine(w, r, lines);
    CountBounds(w, r, lines, DeliveredLine);
    CountBounds(w, r, lines, RefundedLine);
    CountBounds(w, r, lines, OpenLine);
    assert lines != [] ==> lines[0] in lines;
  }

  lemma {:induction false} BoughtIsCounted(w: World, r: RequestId, lines: seq<ItemId>)
    ensures PlanOf(w, r, lines).bought > 0 <==> exists i :: i in lines && CountsAsBought(w, r, i)
  {
    if lines != [] {
      var init, last := lines[..|lines| - 1], lines[|lines| - 1];
      assert lines == init + [last];
      BoughtIsCounted(w, r, init);
    }
  }

  /** A request is stamped sent once, with its first purchase, and completed while no line is open, once. */
  lemma SettleStampsOnce(w: World, r: RequestId)
    requires r in w.requests
    ensures var q, v := w.requests[r], Settle(w, r).requests[r];
            && (q.sentAt.Some? ==> v.sentAt == q.sentAt)
            && (q.sentAt.None? ==>
                  v.sentAt == if exists i :: i in q.lines && CountsAsBought(w, r, i) then Some(w.now) else None)
            && (v.completedAt.None? <==> exists i :: i in q.lines && Outcome(w, r, i).OpenLine?)
            && (v.completedAt.Some? ==> v.completedAt == if q.completedAt.Some? then q.completedAt else Some(w.now))
  {
    var lines := w.requests[r].lines;
    BoughtIsCounted(w, r, lines);
    PlanCountsEveryLine(w, r, lines);
    CountBounds(w, r, lines, OpenLine);
  }

  /** Every held line ends where its purchase says; nothing else moves. */
  lemma SettleMovesEachLine(w: World, r: RequestId, i: ItemId)
    requires r in w.requests && i in w.items
    ensures i in Settle(w, r).items
    ensures var before := w.items[i]; var later := Settle(w, r).items[i];
            if i !in w.requests[r].lines || before.request != Some(r) then later == before
            else match Outcome(w, r, i)
                 case RefundedLine => later == before.(status := Available, request := None)
                 case DeliveredLine => later == before.(status := Withdrawn)
                 case OpenLine => later == before
    ensures Settle(w, r).rows == w.rows && Settle(w, r).charges == w.charges
  {
    PlanCountsEveryLine(w, r, w.requests[r].lines);
  }

  /**
   * An item that has gone to another request is left alone, also when its
   * purchase row has moved there: the line then counts as refunded only.
   */
  lemma SettleLeavesOthersAlone(w: World, r: RequestId, other: RequestId, i: ItemId)
    requires r in w.requests && other != r && i in w.items && w.items[i].request == Some(other)
    ensures Settle(w, r).items[i] == w.items[i]
    ensures other in w.requests ==> Settle(w, r).requests[other] == w.requests[other]
    ensures RowOfRun(w, other, i) && i in w.requests[r].lines ==> Outcome(w, r, i).RefundedLine?
  {
    SettleMovesEachLine(w, r, i);
  }

  /** A plan depends on nothing but rows and items. */
  lemma {:induction false} PlanReadsRows(w: World, v: World, r: RequestId, lines: seq<ItemId>)
    requires v.rows == w.rows && v.items == w.items
    ensures PlanOf(v, r, lines) == PlanOf(w, r, lines)
  {
    if lines != [] {
      PlanReadsRows(w, v, r, lines[..|lines| - 1]);
    }
  }

  /** The tally of a later world in which no row moved and only settled lines were released. */
  lemma {:induction false} SamePlanCounts(w: World, v: World, r: RequestId, lines: seq<ItemId>)
    requires v.rows == w.rows
    ensures var p := PlanOf(w, r, lines); var q := PlanOf(v, r, lines);
            q.delivered == p.delivered && q.failed == p.failed && q.open == p.open && q.bought == p.bought
  {
    if lines != [] {
      SamePlanCounts(w, v, r, lines[..|lines| - 1]);
    }
  }

  /** Settling again later changes nothing while no purchase moves: not even the timestamps. */
  lemma SettleIsIdempotent(w: World, r: RequestId, ms: nat)
    requires r in w.requests
    ensures var once := DoTick(Settle(w, r), ms); Settle(once, r) == once
  {
    var lines := w.requests[r].lines;
    var once := DoTick(Settle(w, r), ms);
    var again := Settle(once, r);
    SamePlanCounts(w, once, r, lines);
    PlanCountsEveryLine(w, r, lines);
    PlanCountsEveryLine(once, r, lines);
    forall i | i in once.items ensures again.items[i] == once.items[i] {
      SettleMovesEachLine(w, r, i);
      SettleMovesEachLine(once, r, i);
    }
    assert again.items == once.items;
  }
}
