/** Every step of the withdrawal protocol keeps the invariant. */
module MarketSteps {
  import opened Wrappers
  import opened Market
  import opened MarketWorld
  import opened MarketInvariant

  // ----- players, operators, time and the market

  lemma TickStep(w: World, ms: nat)
    requires Inv(w)
    ensures Inv(DoTick(w, ms))
  {
    var v := DoTick(w, ms);
    TasksFrame(w, v);
  }

  /** A new item, a repriced one, or one that leaves through a sale, an upgrade or a contract. */
  lemma ItemStep(w: World, i: ItemId, item: Item)
    requires Inv(w)
    requires if i in w.items then
               item.request == w.items[i].request &&
               (item.status == w.items[i].status || (w.items[i].status.Available? && item.status.Spent?))
             else item.status.Available? && item.request.None?
    ensures Inv(w.(items := w.items[i := item]))
  {
    var v := w.(items := w.items[i := item]);
    assert ItemsOk(v) by {
      forall j | j in v.items ensures ItemOk(v, j) {
        assert j in w.items ==> ItemOk(w, j);
      }
    }
    TasksFrame(w, v);
  }

  lemma SubmitItems(w: World, r: RequestId, lines: seq<ItemId>)
    requires Inv(w) && CanSubmit(w, r, lines)
    ensures ItemsOk(DoSubmit(w, r, lines))
  {
    var v := DoSubmit(w, r, lines);
    forall i | i in v.items ensures ItemOk(v, i) {
      assert ItemOk(w, i);
    }
  }

  lemma SubmitRequests(w: World, r: RequestId, lines: seq<ItemId>)
    requires RequestsOk(w) && LinesOk(w) && CanSubmit(w, r, lines)
    ensures RequestsOk(DoSubmit(w, r, lines)) && LinesOk(DoSubmit(w, r, lines))
  {
  }

  lemma SubmitTasks(w: World, r: RequestId, lines: seq<ItemId>)
    requires TasksOk(w) && CanSubmit(w, r, lines)
    ensures TasksOk(DoSubmit(w, r, lines)) && r !in w.tasks
  {
    assert r in w.tasks ==> TaskOk(w, r, w.tasks[r]);
    TasksFrame(w, DoSubmit(w, r, lines));
  }

  lemma SubmitStep(w: World, r: RequestId, lines: seq<ItemId>)
    requires Inv(w) && CanSubmit(w, r, lines)
    ensures Inv(DoSubmit(w, r, lines))
  {
    SubmitItems(w, r, lines);
    SubmitRequests(w, r, lines);
    SubmitTasks(w, r, lines);
  }

  lemma ReleasedItems(w: World, v: World, r: RequestId)
    requires Inv(w) && v.items == ReleaseAll(w.items, r) && v.rows == w.rows
    requires forall s :: s in w.requests ==> s in v.requests
    requires forall i :: RowOfRun(w, r, i) ==> Dormant(w.rows[i])
    ensures ItemsOk(v)
  {
    forall i | i in v.items ensures ItemOk(v, i) {
      assert ItemOk(w, i);
    }
  }

  lemma ReleasedRequests(w: World, r: RequestId, status: RequestStatus)
    requires RequestsOk(w) && LinesOk(w) && r in w.requests && !status.Queued? && !status.Processing?
    ensures var v := w.(requests := w.requests[r := w.requests[r].(status := status)], items := ReleaseAll(w.items, r));
            RequestsOk(v) && LinesOk(v)
  {
  }

  lemma ReleasedTasks(w: World, r: RequestId, status: RequestStatus)
    requires TasksOk(w) && r in w.requests && r !in w.tasks
    ensures TasksOk(w.(requests := w.requests[r := w.requests[r].(status := status)], items := ReleaseAll(w.items, r)))
  {
    hide TaskOk;
    TasksFrame(w, w.(requests := w.requests[r := w.requests[r].(status := status)], items := ReleaseAll(w.items, r)));
  }

  /** Giving back every item of a request no row of which is in use. */
  lemma ReleaseStep(w: World, r: RequestId, status: RequestStatus)
    requires Inv(w) && r in w.requests && !status.Queued? && !status.Processing?
    requires forall i :: RowOfRun(w, r, i) ==> Dormant(w.rows[i])
    requires r !in w.tasks
    ensures Inv(w.(requests := w.requests[r := w.requests[r].(status := status)], items := ReleaseAll(w.items, r)))
  {
    var v := w.(requests := w.requests[r := w.requests[r].(status := status)], items := ReleaseAll(w.items, r));
    ReleasedItems(w, v, r);
    ReleasedRequests(w, r, status);
    ReleasedTasks(w, r, status);
    hide ItemsOk, RequestsOk, LinesOk, TasksOk, HistoryOk;
  }

  lemma AbandonStep(w: World, r: RequestId)
    requires Inv(w) && r in w.requests && r in w.tasks
    ensures Inv(DoAbandon(w, r))
  {
    if AnySpent(w, r) {
      TaskStep(w, r, SettleDue);
    } else {
      DropStep(w, r);
      var d := Drop(w, r);
      ReleaseStep(d, r, Refused);
    }
  }

  lemma CancelStep(w: World, r: RequestId)
    requires Inv(w) && r in w.requests && w.requests[r].status.Queued?
    ensures Inv(DoCancel(w, r))
  {
    ReleaseStep(w, r, Cancelled);
  }

  /** What a move of the market leaves true of the records of one row. */
  lemma MoveKeepsRow(w: World, id: CustomId, k: nat, stage: int, i: ItemId)
    requires RowsOk(w) && i in w.rows && k < |History(w, id)| && !Final(History(w, id)[k].stage)
    ensures HistoryOk(w.rows[i], HistoryOf(DoMarketMoves(w, id, k, stage), i))
    ensures NoneLive(HistoryOf(w, i)) ==> NoneLive(HistoryOf(DoMarketMoves(w, id, k, stage), i))
    ensures forall c :: InfoOk(w.rows[i], c, HistoryOf(w, i)) ==>
                          InfoOk(w.rows[i], c, HistoryOf(DoMarketMoves(w, id, k, stage), i))
    ensures forall a :: Newest(HistoryOf(w, i), a).Some? ==> Newest(HistoryOf(DoMarketMoves(w, id, k, stage), i), a).Some?
  {
    if w.rows[i].id == id {
      MoveKeepsHistory(w.rows[i], HistoryOf(w, i), k, stage);
    }
  }

  lemma MoveKeepsTask(w: World, id: CustomId, k: nat, stage: int, s: RequestId)
    requires RowsOk(w) && k < |History(w, id)| && !Final(History(w, id)[k].stage)
    requires s in w.tasks && TaskOk(w, s, w.tasks[s])
    ensures TaskOk(DoMarketMoves(w, id, k, stage), s, w.tasks[s])
  {
    var v := DoMarketMoves(w, id, k, stage);
    match w.tasks[s]
    case Run(line, phase, _) =>
      if !phase.AtLine? {
        MoveKeepsRow(w, id, k, stage, w.requests[s].lines[line]);
      }
    case Polling(asked) =>
      forall i | i in asked ensures AskedOk(v, s, i, asked[i]) {
        assert AskedOk(w, s, i, asked[i]);
        MoveKeepsRow(w, id, k, stage, i);
      }
    case SettleDue =>
    case Settling(plan) =>
  }

  lemma MoveStep(w: World, id: CustomId, k: nat, stage: int)
    requires Inv(w) && k < |History(w, id)| && !Final(History(w, id)[k].stage)
    ensures Inv(DoMarketMoves(w, id, k, stage))
  {
    var v := DoMarketMoves(w, id, k, stage);
    forall i | i in v.rows ensures HistoryOk(v.rows[i], HistoryOf(v, i)) {
      MoveKeepsRow(w, id, k, stage, i);
    }
    forall s | s in v.tasks ensures TaskOk(v, s, v.tasks[s]) {
      MoveKeepsTask(w, id, k, stage, s);
    }
  }

  // ----- one processing run

  /** Claiming a request for a run. */
  lemma ClaimRequest(w: World, r: RequestId)
    requires Inv(w) && CanStart(w, r)
    ensures Inv(w.(requests := w.requests[r := w.requests[r].(status := Processing)]))
  {
    var v := w.(requests := w.requests[r := w.requests[r].(status := Processing)]);
    forall i | i in v.items ensures ItemOk(v, i) {
      assert ItemOk(w, i);
    }
    TasksFrame(w, v);
  }

  lemma StartStep(w: World, r: RequestId, overpayBps: nat)
    requires Inv(w) && CanStart(w, r)
    ensures Inv(DoStart(w, r, overpayBps))
  {
    ClaimRequest(w, r);
    TaskStep(w.(requests := w.requests[r := w.requests[r].(status := Processing)]), r, Run(0, AtLine, overpayBps));
  }

  /** The run of `r` holds the item of its line, and knows where it stands. */
  lemma RunHolds(w: World, r: RequestId)
    requires Inv(w) && OnLine(w, r)
    ensures HeldFor(w, r, CurrentLine(w, r)) && w.requests[r].status.Processing?
    ensures !PhaseOf(w, r).AtLine? ==> PhaseOk(w, r, CurrentLine(w, r), PhaseOf(w, r))
    ensures CurrentLine(w, r) in w.rows ==> HistoryOk(w.rows[CurrentLine(w, r)], HistoryOf(w, CurrentLine(w, r)))
  {
    assert TaskOk(w, r, w.tasks[r]);
    assert CurrentLine(w, r) in w.requests[r].lines;
  }

  /** The error the source calls unreachable by design is unreachable. */
  lemma EnsureNeverThrows(w: World, r: RequestId)
    requires Inv(w) && OnLine(w, r)
    ensures !EnsureThrows(w, r, CurrentLine(w, r))
  {
    RunHolds(w, r);
    assert ItemOk(w, CurrentLine(w, r));
  }

  /** Where the run goes once the row of its line is known to be `p`. */
  function AfterEnsure(t: Task, p: Purchase): Task
    requires t.Run?
  {
    if p.status.Pending? then t.(phase := Ensured(p)) else t.(phase := AtLine, line := t.line + 1)
  }

  lemma EnsureOwnRow(w: World, r: RequestId)
    requires Inv(w) && OnLine(w, r) && RowOfRun(w, r, CurrentLine(w, r))
    ensures Inv(Resume(w, r, AfterEnsure(w.tasks[r], w.rows[CurrentLine(w, r)])))
  {
    RunHolds(w, r);
    TaskStep(w, r, AfterEnsure(w.tasks[r], w.rows[CurrentLine(w, r)]));
  }

  lemma EnsureTakesRow(w: World, r: RequestId, p: Purchase)
    requires Inv(w) && OnLine(w, r) && Takeover(w, r, CurrentLine(w, r), p) && p.status.Pending?
    ensures Inv(w.(rows := w.rows[CurrentLine(w, r) := p], tasks := w.tasks[r := AfterEnsure(w.tasks[r], p)]))
  {
    RunHolds(w, r);
    TakeRowStep(w, r, CurrentLine(w, r), p, AfterEnsure(w.tasks[r], p));
  }

  lemma EnsureShape(w: World, r: RequestId, id: CustomId, i: ItemId, p: Purchase)
    requires CanEnsure(w, r, id) && i == CurrentLine(w, r) && !EnsureThrows(w, r, i)
    requires p == EnsuredRow(w, r, i, id, w.tasks[r].overpayBps)
    ensures DoEnsure(w, r, id) == w.(rows := w.rows[i := p], tasks := w.tasks[r := AfterEnsure(w.tasks[r], p)])
    ensures RowOfRun(w, r, i) ==> p == w.rows[i] && w.rows[i := p] == w.rows
    ensures !RowOfRun(w, r, i) ==>
              && p.request == r && p.status.Pending? && Dormant(p) && p.maxPrice == Ceiling(p.quote)
              && (if i in w.rows then p.id == w.rows[i].id else FreshId(w, p.id))
  {
  }

  lemma EnsureStep(w: World, r: RequestId, id: CustomId)
    requires Inv(w) && CanEnsure(w, r, id)
    ensures Inv(DoEnsure(w, r, id))
  {
    var i := CurrentLine(w, r);
    var p := EnsuredRow(w, r, i, id, w.tasks[r].overpayBps);
    RunHolds(w, r);
    EnsureNeverThrows(w, r);
    EnsureShape(w, r, id, i, p);
    if RowOfRun(w, r, i) {
      EnsureOwnRow(w, r);
    } else {
      assert Takeover(w, r, i, p);
      EnsureTakesRow(w, r, p);
    }
  }

  /** A fresh row, or a leftover one reset: what either promises before it is put in place. */
  ghost predicate Takeover(w: World, r: RequestId, i: ItemId, p: Purchase) {
    && HeldFor(w, r, i) && r in w.requests && !w.requests[r].status.Queued?
    && (if i in w.rows then w.rows[i].request != r && p.id == w.rows[i].id else FreshId(w, p.id))
    && p.request == r && Dormant(p) && p.maxPrice == Ceiling(p.quote)
  }

  /** Making the row of a held line, or resetting a leftover one onto this request. */
  lemma TakeRowStep(w: World, r: RequestId, i: ItemId, p: Purchase, t: Task)
    requires Inv(w) && Takeover(w, r, i, p)
    requires TaskOk(w.(rows := w.rows[i := p], tasks := w.tasks[r := t]), r, t)
    ensures Inv(w.(rows := w.rows[i := p], tasks := w.tasks[r := t]))
  {
    var v := w.(rows := w.rows[i := p], tasks := w.tasks[r := t]);
    TakeoverRows(w, v, r, i, p);
    TakeoverItems(w, v, r, i, p);
    TakeoverTasks(w, v, r, i);
  }

  lemma TakeoverTasks(w: World, v: World, r: RequestId, i: ItemId)
    requires Inv(w) && HeldFor(w, r, i)
    requires i in w.rows ==> w.rows[i].request != r
    requires i in v.rows && v.rows[i].request == r && v.rows == w.rows[i := v.rows[i]]
    requires v.items == w.items && v.requests == w.requests && v.charges == w.charges
    requires r in v.tasks && v.tasks == w.tasks[r := v.tasks[r]] && TaskOk(v, r, v.tasks[r])
    ensures TasksOk(v)
  {
    forall s | s in w.tasks && s != r ensures TaskOk(v, s, w.tasks[s]) {
      ForeignTask(w, v, r, i, s);
    }
  }

  lemma TakeoverRows(w: World, v: World, r: RequestId, i: ItemId, p: Purchase)
    requires Inv(w) && Takeover(w, r, i, p)
    requires v.rows == w.rows[i := p]
    requires v.items == w.items && v.requests == w.requests && v.charges == w.charges
    ensures RowsOk(v) && IdsDistinct(v)
  {
    TakeoverHistory(w, r, i, p);
  }

  lemma TakeoverHistory(w: World, r: RequestId, i: ItemId, p: Purchase)
    requires Inv(w) && Takeover(w, r, i, p)
    ensures NoneLive(History(w, p.id)) && HistoryOk(p, History(w, p.id))
  {
    assert ItemOk(w, i);
    if i in w.rows {
      DormantNoneLive(w.rows[i], HistoryOf(w, i));
    }
  }

  lemma TakeoverItems(w: World, v: World, r: RequestId, i: ItemId, p: Purchase)
    requires Inv(w) && Takeover(w, r, i, p)
    requires v.rows == w.rows[i := p] && v.items == w.items && v.requests == w.requests
    ensures ItemsOk(v)
  {
    forall j | j in v.items ensures ItemOk(v, j) {
      assert ItemOk(w, j);
    }
  }

  lemma ForeignRun(w: World, v: World, r: RequestId, i: ItemId, s: RequestId)
    requires RequestsOk(w) && HeldFor(w, r, i) && s != r
    requires i in v.rows && v.rows == w.rows[i := v.rows[i]]
    requires v.items == w.items && v.requests == w.requests && v.charges == w.charges
    requires s in w.tasks && w.tasks[s].Run? && TaskOk(w, s, w.tasks[s])
    ensures TaskOk(v, s, w.tasks[s])
  {
    if !w.tasks[s].phase.AtLine? {
      assert HeldFor(w, s, w.requests[s].lines[w.tasks[s].line]);
      assert w.requests[s].lines[w.tasks[s].line] != i;
    }
  }

  /** Taking over a leftover row disturbs no task of the request it came from. */
  lemma ForeignTask(w: World, v: World, r: RequestId, i: ItemId, s: RequestId)
    requires Inv(w) && HeldFor(w, r, i) && s != r && s in w.tasks
    requires i in w.rows ==> w.rows[i].request != r
    requires i in v.rows && v.rows[i].request == r && v.rows == w.rows[i := v.rows[i]]
    requires v.items == w.items && v.requests == w.requests && v.charges == w.charges
    ensures TaskOk(v, s, w.tasks[s])
  {
    assert TaskOk(w, s, w.tasks[s]);
    match w.tasks[s]
    case Run(_, _, _) => ForeignRun(w, v, r, i, s);
    case Polling(asked) =>
      assert ItemOk(w, i);
      forall j | j in asked ensures AskedOk(v, s, j, asked[j]) {
        assert AskedOk(w, s, j, asked[j]);
      }
    case SettleDue =>
    case Settling(plan) =>
  }

  lemma LookupStep(w: World, r: RequestId, shown: LookupAnswer)
    requires Inv(w) && CanLookup(w, r, shown)
    ensures Inv(DoLookup(w, r, shown))
  {
    RunHolds(w, r);
    var i := CurrentLine(w, r);
    var p := PhaseOf(w, r).p;
    if shown.Answered? {
      match shown.reply
      case Info(c) => TruthfulInfo(p, c, HistoryOf(w, i));
      case Missing => TruthfulMissing(p, HistoryOf(w, i));
    }
    TaskStep(w, r, DoLookup(w, r, shown).tasks[r]);
  }

  lemma ClaimStep(w: World, r: RequestId, account: Option<AccountId>)
    requires Inv(w) && CanClaim(w, r)
    ensures Inv(DoClaim(w, r, account))
  {
    RunHolds(w, r);
    TaskStep(w, r, DoClaim(w, r, account).tasks[r]);
  }

  lemma SearchStep(w: World, r: RequestId, found: SearchAnswer)
    requires Inv(w) && CanSearch(w, r)
    ensures Inv(DoSearch(w, r, found))
  {
    RunHolds(w, r);
    TaskStep(w, r, DoSearch(w, r, found).tasks[r]);
  }

  lemma RecordStep(w: World, r: RequestId)
    requires Inv(w) && CanRecord(w, r)
    ensures Inv(DoRecord(w, r))
  {
    RunHolds(w, r);
    var i := CurrentLine(w, r);
    RowStep(w, r, i, DoRecord(w, r).rows[i], DoRecord(w, r).tasks[r]);
  }

  lemma BuyStep(w: World, r: RequestId, answer: BuyAnswer)
    requires Inv(w) && CanBuy(w, r, answer)
    ensures Inv(DoBuy(w, r, answer))
  {
    RunHolds(w, r);
    if answer.Accepted? || answer.ChargedReplyLost? {
      var phase := PhaseOf(w, r);
      var c := Charge(phase.account, answer.marketId, answer.price, 1);
      ChargeStep(w, r, CurrentLine(w, r), c, DoBuy(w, r, answer).tasks[r]);
    } else {
      TaskStep(w, r, DoBuy(w, r, answer).tasks[r]);
    }
  }

  /** A charge lands on the recorded account of a row that had none standing. */
  lemma ChargeStep(w: World, r: RequestId, i: ItemId, c: Charge, t: Task)
    requires Inv(w) && HeldFor(w, r, i) && OnLine(w, r)
    requires RowOfRun(w, r, i) && NoneLive(HistoryOf(w, i))
    requires w.rows[i].status.Pending? && w.rows[i].attempts > 0 && w.rows[i].account == Some(c.account)
    requires c.price <= w.rows[i].maxPrice && !IsCancelled(c) && !ClassifyStage(c.stage).Given?
    requires TaskOk(Resume(AddCharge(w, w.rows[i].id, c), r, t), r, t)
    ensures Inv(Resume(AddCharge(w, w.rows[i].id, c), r, t))
  {
    var v := Resume(AddCharge(w, w.rows[i].id, c), r, t);
    assert TaskOk(w, r, w.tasks[r]);
    forall j | j in v.rows ensures HistoryOk(v.rows[j], HistoryOf(v, j)) {
      if j != i {
        assert HistoryOf(v, j) == HistoryOf(w, j);
      }
    }
    forall s | s in v.tasks ensures TaskOk(v, s, v.tasks[s]) {
      if s != r {
        TaskFrame(w, v, s);
      }
    }
  }

  lemma WriteStep(w: World, r: RequestId)
    requires Inv(w) && CanWrite(w, r)
    ensures Inv(DoWrite(w, r))
  {
    RunHolds(w, r);
    var i := CurrentLine(w, r);
    RowStep(w, r, i, DoWrite(w, r).rows[i], DoWrite(w, r).tasks[r]);
  }

  /** The end of the loop, or an exception that leaves it early. */
  lemma LeaveStep(w: World, r: RequestId)
    requires Inv(w) && r in w.tasks && w.tasks[r].Run?
    ensures Inv(Resume(w, r, SettleDue))
  {
    assert TaskOk(w, r, w.tasks[r]);
    TaskStep(w, r, SettleDue);
  }

  // ----- the poller

  /** A row that is open belongs to the request that holds its item. */
  lemma OpenRowHeld(w: World, i: ItemId)
    requires Inv(w) && i in w.rows && OpenRow(w.rows[i])
    ensures HeldFor(w, w.rows[i].request, i) && !w.requests[w.rows[i].request].status.Queued?
  {
    assert ItemOk(w, i);
    assert RowOfRun(w, w.rows[i].request, i);
  }

  lemma PollAskStep(w: World, r: RequestId, i: ItemId, reply: Reply)
    requires Inv(w) && CanPollAsk(w, r, i, reply)
    ensures Inv(DoPollAsk(w, r, i, reply))
  {
    OpenRowHeld(w, i);
    var p := w.rows[i];
    match reply {
      case Info(c) => TruthfulInfo(p, c, HistoryOf(w, i));
      case Missing =>
        if Newest(HistoryOf(w, i), p.account.value).None? {
          TruthfulMissing(p, HistoryOf(w, i));
        }
    }
    var asked := AskedSoFar(w, r);
    if r in w.tasks {
      assert TaskOk(w, r, w.tasks[r]);
    }
    assert AskedOk(w, r, i, Asked(p, reply, w.now));
    TaskStep(w, r, Polling(asked[i := Asked(p, reply, w.now)]));
  }

  function Without(asked: map<ItemId, Asked>, i: ItemId): map<ItemId, Asked> {
    map j | j in asked && j != i :: asked[j]
  }

  /** The other answers of a poll stay good while one of them is acted on. */
  lemma AskedRest(w: World, v: World, r: RequestId, i: ItemId, asked: map<ItemId, Asked>)
    requires forall j :: j in asked ==> AskedOk(w, r, j, asked[j])
    requires forall j :: j != i && j in w.rows ==> j in v.rows && v.rows[j] == w.rows[j]
    requires v.charges == w.charges
    ensures forall j :: j in Without(asked, i) ==> AskedOk(v, r, j, asked[j])
  {
    forall j | j in Without(asked, i) ensures AskedOk(v, r, j, asked[j]) {
      assert AskedOk(w, r, j, asked[j]);
    }
  }

  lemma PollWriteSound(w: World, r: RequestId, i: ItemId)
    requires Inv(w) && CanPollApply(w, r, i)
    requires PollWrite(w.rows[i], w.tasks[r].asked[i], w.now).Some?
    ensures AskedOk(w, r, i, w.tasks[r].asked[i])
    ensures var p := PollWrite(w.rows[i], w.tasks[r].asked[i], w.now).value;
            HistoryOk(p.(updatedAt := w.now), HistoryOf(w, i)) && p.id == w.rows[i].id && p.request == r
  {
    assert TaskOk(w, r, w.tasks[r]);
    assert AskedOk(w, r, i, w.tasks[r].asked[i]);
    assert HistoryOk(w.rows[i], HistoryOf(w, i));
  }

  lemma PollApplyStep(w: World, r: RequestId, i: ItemId)
    requires Inv(w) && CanPollApply(w, r, i)
    ensures Inv(DoPollApply(w, r, i))
  {
    var asked := w.tasks[r].asked;
    assert TaskOk(w, r, w.tasks[r]);
    assert AskedOk(w, r, i, asked[i]);
    OpenRowHeld(w, i);
    match PollWrite(w.rows[i], asked[i], w.now)
    case None =>
      AskedRest(w, w, r, i, asked);
      TaskStep(w, r, Polling(Without(asked, i)));
    case Some(p) =>
      PollWriteSound(w, r, i);
      AskedRest(w, w.(rows := w.rows[i := p.(updatedAt := w.now)]), r, i, asked);
      PollRowStep(w, r, i, p.(updatedAt := w.now), asked);
  }

  lemma PollRowStep(w: World, r: RequestId, i: ItemId, p: Purchase, asked: map<ItemId, Asked>)
    requires Inv(w) && RowOfRun(w, r, i) && HeldFor(w, r, i)
    requires p.id == w.rows[i].id && p.request == r && HistoryOk(p, HistoryOf(w, i))
    requires forall j :: j in Without(asked, i) ==> AskedOk(w.(rows := w.rows[i := p]), r, j, asked[j])
    ensures Inv(w.(rows := w.rows[i := p], tasks := w.tasks[r := Polling(Without(asked, i))]))
  {
    var v := w.(rows := w.rows[i := p], tasks := w.tasks[r := Polling(Without(asked, i))]);
    forall j | j in Without(asked, i) ensures AskedOk(v, r, j, asked[j]) {
      assert AskedOk(w.(rows := w.rows[i := p]), r, j, asked[j]);
    }
    RowStep(w, r, i, p, Polling(Without(asked, i)));
  }

  // ----- settling

  /** A plan releases only lines nothing was spent on, and delivers only delivered ones. */
  lemma {:induction false} PlanSound(w: World, r: RequestId, lines: seq<ItemId>)
    ensures PlanOk(w, r, PlanOf(w, r, lines))
    ensures forall i :: i in PlanOf(w, r, lines).release ==> Outcome(w, r, i).RefundedLine?
    ensures forall i :: i in PlanOf(w, r, lines).deliver ==> Outcome(w, r, i).DeliveredLine?
  {
    if lines != [] {
      PlanSound(w, r, lines[..|lines| - 1]);
    }
  }

  lemma SettleReadStep(w: World, r: RequestId)
    requires Inv(w) && r in w.requests && r in w.tasks
    ensures Inv(DoSettleRead(w, r))
  {
    PlanSound(w, r, w.requests[r].lines);
    TaskStep(w, r, Settling(PlanOf(w, r, w.requests[r].lines)));
  }

  lemma PlanItems(w: World, r: RequestId, plan: SettlePlan)
    requires Inv(w) && r in w.requests && PlanOk(w, r, plan)
    ensures ItemsOk(ApplyPlan(w, r, plan))
  {
    var v := ApplyPlan(w, r, plan);
    forall i | i in v.items ensures ItemOk(v, i) {
      assert ItemOk(w, i);
    }
  }

  lemma PlanRequests(w: World, r: RequestId, plan: SettlePlan)
    requires RequestsOk(w) && LinesOk(w) && QueuedUntouched(w) && r in w.requests && r !in w.tasks
    ensures RequestsOk(ApplyPlan(w, r, plan)) && LinesOk(ApplyPlan(w, r, plan))
    ensures QueuedUntouched(ApplyPlan(w, r, plan))
  {
  }

  lemma PlanTasks(w: World, r: RequestId, plan: SettlePlan)
    requires TasksOk(w) && r in w.requests && r !in w.tasks
    ensures TasksOk(ApplyPlan(w, r, plan))
  {
    TasksFrame(w, ApplyPlan(w, r, plan));
  }

  lemma ApplyPlanStep(w: World, r: RequestId, plan: SettlePlan)
    requires Inv(w) && r in w.requests && r !in w.tasks && PlanOk(w, r, plan)
    requires !w.requests[r].status.Queued?
    ensures Inv(ApplyPlan(w, r, plan))
  {
    PlanItems(w, r, plan);
    PlanRequests(w, r, plan);
    PlanTasks(w, r, plan);
  }

  lemma SettleWriteStep(w: World, r: RequestId)
    requires Inv(w) && CanSettleWrite(w, r)
    ensures Inv(DoSettleWrite(w, r))
  {
    assert TaskOk(w, r, w.tasks[r]);
    DropStep(w, r);
    ApplyPlanStep(Drop(w, r), r, w.tasks[r].plan);
    assert Drop(ApplyPlan(w, r, w.tasks[r].plan), r) == ApplyPlan(Drop(w, r), r, w.tasks[r].plan);
  }
}
