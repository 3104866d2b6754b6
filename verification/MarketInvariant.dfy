/**
 * The inductive invariant of the withdrawal protocol, and the safety
 * statements it gives for every reachable world.
 */
module MarketInvariant {
  import opened Wrappers
  import opened Market
  import opened MarketWorld

  function Last(h: seq<Charge>): Charge
    requires h != []
  {
    h[|h| - 1]
  }

  /** No charge of this custom id is standing: each was cancelled, or there is none. */
  ghost predicate NoneLive(h: seq<Charge>) {
    forall k :: 0 <= k < |h| ==> IsCancelled(h[k])
  }

  /** How a purchase row and the market's records of its custom id fit together. */
  ghost predicate HistoryOk(p: Purchase, h: seq<Charge>) {
    && (forall k :: 0 <= k < |h| - 1 ==> IsCancelled(h[k]))
    && (h != [] && !IsCancelled(Last(h)) ==>
          p.account == Some(Last(h).account) && Last(h).price <= p.maxPrice && !Dormant(p))
    && (p.status.Delivered? ==>
          h != [] && p.account == Some(Last(h).account) && ClassifyStage(Last(h).stage).Given?)
    && (p.status.Bought? ==> p.account.Some? && Newest(h, p.account.value).Some?)
    && (OpenRow(p) ==> p.account.Some?)
    && p.maxPrice == Ceiling(p.quote)
  }

  /** An answer about a charge, still true of the records when it is acted on. */
  ghost predicate InfoOk(p: Purchase, c: Charge, h: seq<Charge>) {
    && OpenRow(p) && p.account.Some?
    && Newest(h, p.account.value).Some?
    && (ClassifyStage(c.stage).Given? ==>
          h != [] && p.account == Some(Last(h).account) && ClassifyStage(Last(h).stage).Given?)
    && (ClassifyStage(c.stage).TimedOut? ==> NoneLive(h))
  }

  predicate RowOfRun(w: World, r: RequestId, i: ItemId) {
    i in w.rows && w.rows[i].request == r
  }

  function HistoryOf(w: World, i: ItemId): seq<Charge>
    requires i in w.rows
  {
    History(w, w.rows[i].id)
  }

  /** What the run of `r` may rely on in each phase of the line of item `i`. */
  ghost predicate PhaseOk(w: World, r: RequestId, i: ItemId, phase: Phase)
    requires !phase.AtLine?
  {
    && RowOfRun(w, r, i)
    && var row := w.rows[i];
       var h := HistoryOf(w, i);
       match phase
       case Ensured(p) => row == p && p.status.Pending?
       case Adopting(p, info) => row == p && InfoOk(p, info, h)
       case Clear(p) => row == p && p.status.Pending? && NoneLive(h)
       case Searching(p, _) => row == p && p.status.Pending? && NoneLive(h)
       case Recording(p, _) => row == p && p.status.Pending? && NoneLive(h)
       case Sending(p, account) =>
         && row.id == p.id && row.maxPrice == p.maxPrice && row.account == Some(account)
         && row.status.Pending? && row.attempts > 0 && NoneLive(h)
       case Confirming(p, _) =>
         row.status.Pending? && row.attempts > 0 && row.account.Some? && Newest(h, row.account.value).Some?
       case Failing(p) => row.status.Pending? && NoneLive(h)
       case AtLine => true
  }

  ghost predicate AskedOk(w: World, r: RequestId, i: ItemId, asked: Asked) {
    && RowOfRun(w, r, i) && w.rows[i] == asked.p && OpenRow(asked.p)
    && match asked.reply
       case Info(c) => InfoOk(asked.p, c, HistoryOf(w, i))
       case Missing =>
         NoneLive(HistoryOf(w, i)) || asked.at + REQUEST_TIMEOUT_MS <= asked.p.updatedAt + UNCONFIRMED_GRACE_MS
  }

  /** What a settle that has read its plan may rely on until it writes. */
  ghost predicate PlanOk(w: World, r: RequestId, plan: SettlePlan) {
    && (forall i :: i in plan.release && Attached(w, r, i) && RowOfRun(w, r, i) ==> Dormant(w.rows[i]))
    && (forall i :: i in plan.deliver && Attached(w, r, i) ==>
          RowOfRun(w, r, i) && w.rows[i].status.Delivered?)
  }

  ghost predicate TaskOk(w: World, r: RequestId, t: Task) {
    && r in w.requests
    && match t
       case Run(line, phase, _) =>
         && w.requests[r].status.Processing?
         && line <= |w.requests[r].lines|
         && (phase.AtLine? ||
             (line < |w.requests[r].lines| && PhaseOk(w, r, w.requests[r].lines[line], phase)))
       case Polling(asked) => forall i :: i in asked ==> AskedOk(w, r, i, asked[i])
       case SettleDue => true
       case Settling(plan) => PlanOk(w, r, plan)
  }

  ghost predicate ItemOk(w: World, i: ItemId)
    requires i in w.items
  {
    var item := w.items[i];
    match item.status
    case Locked =>
      && item.request.Some? && item.request.value in w.requests
      && (i in w.rows && w.rows[i].request != item.request.value ==> Dormant(w.rows[i]))
    case Withdrawn =>
      && item.request.Some? && RowOfRun(w, item.request.value, i) && w.rows[i].status.Delivered?
    case _ => item.request.None? && (i in w.rows ==> Dormant(w.rows[i]))
  }

  ghost predicate RowsOk(w: World) {
    forall i :: i in w.rows ==>
      && i in w.items && w.rows[i].request in w.requests
      && !w.requests[w.rows[i].request].status.Queued?
      && HistoryOk(w.rows[i], HistoryOf(w, i))
  }

  ghost predicate IdsDistinct(w: World) {
    forall i, j :: i in w.rows && j in w.rows && i != j ==> w.rows[i].id != w.rows[j].id
  }

  ghost predicate ItemsOk(w: World) {
    forall i :: i in w.items ==> ItemOk(w, i)
  }

  predicate HeldFor(w: World, r: RequestId, i: ItemId) {
    i in w.items && w.items[i].status.Locked? && w.items[i].request == Some(r)
  }

  /** Until it is first settled, a request holds every one of its lines. */
  ghost predicate RequestsOk(w: World) {
    forall r :: r in w.requests && (w.requests[r].status.Queued? || w.requests[r].status.Processing?) ==>
      forall i :: i in w.requests[r].lines ==> HeldFor(w, r, i)
  }

  /** Nothing has been done yet for a queued request. */
  ghost predicate QueuedUntouched(w: World) {
    forall r :: r in w.requests && w.requests[r].status.Queued? ==> r !in w.tasks
  }

  predicate Distinct(lines: seq<ItemId>) {
    forall j, k :: 0 <= j < k < |lines| ==> lines[j] != lines[k]
  }

  /** A request names each item once, and only items on its lines ever point at it. */
  ghost predicate LinesOk(w: World) {
    && (forall r :: r in w.requests ==> Distinct(w.requests[r].lines))
    && (forall i :: i in w.items && w.items[i].request.Some? ==>
          w.items[i].request.value in w.requests && i in w.requests[w.items[i].request.value].lines)
  }

  ghost predicate TasksOk(w: World) {
    forall r :: r in w.tasks ==> TaskOk(w, r, w.tasks[r])
  }

  ghost predicate Inv(w: World) {
    RowsOk(w) && IdsDistinct(w) && ItemsOk(w) && RequestsOk(w) && QueuedUntouched(w)
    && LinesOk(w) && TasksOk(w)
  }

  // ----- facts about the market's records

  lemma {:induction false} NewestIsLast(h: seq<Charge>, account: AccountId)
    ensures h != [] && Last(h).account == account ==> Newest(h, account) == Some(Last(h))
    ensures Newest(h, account).Some? ==>
              exists k :: 0 <= k < |h| && h[k] == Newest(h, account).value && h[k].account == account
  {
    if h != [] && Last(h).account != account {
      NewestIsLast(h[..|h| - 1], account);
    }
  }

  /** Nothing stands against a row nothing was spent on. */
  lemma DormantNoneLive(p: Purchase, h: seq<Charge>)
    requires HistoryOk(p, h) && Dormant(p)
    ensures NoneLive(h)
  {
    assert h != [] ==> IsCancelled(Last(h));
  }

  /** A truthful answer gives what acting on it needs. */
  lemma TruthfulInfo(p: Purchase, c: Charge, h: seq<Charge>)
    requires HistoryOk(p, h) && OpenRow(p) && p.account.Some? && Newest(h, p.account.value) == Some(c)
    ensures InfoOk(p, c, h)
  {
    NewestIsLast(h, p.account.value);
  }

  lemma TruthfulMissing(p: Purchase, h: seq<Charge>)
    requires HistoryOk(p, h) && p.account.Some? && Newest(h, p.account.value).None?
    ensures NoneLive(h)
  {
    NewestIsLast(h, p.account.value);
  }

  /** Moving one record to another stage keeps which records an account shows. */
  lemma {:induction false} NewestAfterMove(h: seq<Charge>, k: nat, stage: int, account: AccountId)
    requires k < |h|
    ensures Newest(h[k := h[k].(stage := stage)], account).Some? <==> Newest(h, account).Some?
  {
    var moved := h[k := h[k].(stage := stage)];
    if Last(h).account != account && k < |h| - 1 {
      assert moved[..|h| - 1] == h[..|h| - 1][k := h[k].(stage := stage)];
      NewestAfterMove(h[..|h| - 1], k, stage, account);
    } else if Last(h).account != account {
      assert moved[..|h| - 1] == h[..|h| - 1];
    }
  }

  /** What a move of the market keeps for one custom id. */
  lemma MoveKeepsHistory(p: Purchase, h: seq<Charge>, k: nat, stage: int)
    requires HistoryOk(p, h) && k < |h| && !Final(h[k].stage)
    ensures HistoryOk(p, h[k := h[k].(stage := stage)])
    ensures NoneLive(h) ==> NoneLive(h[k := h[k].(stage := stage)])
    ensures forall c :: InfoOk(p, c, h) ==> InfoOk(p, c, h[k := h[k].(stage := stage)])
    ensures forall a :: Newest(h, a).Some? ==> Newest(h[k := h[k].(stage := stage)], a).Some?
  {
    assert k == |h| - 1;
    forall a ensures Newest(h[k := h[k].(stage := stage)], a).Some? <==> Newest(h, a).Some? {
      NewestAfterMove(h, k, stage, a);
    }
  }

  // ----- frames: what a step does not touch stays as good as it was

  /** The task of `s` depends on rows of `s`, their records, its request and its items only. */
  lemma TaskFrame(w: World, v: World, s: RequestId)
    requires s in w.tasks && TaskOk(w, s, w.tasks[s])
    requires s in v.requests && v.requests[s] == w.requests[s]
    requires forall i :: RowOfRun(w, s, i) ==> i in v.rows && v.rows[i] == w.rows[i] && HistoryOf(v, i) == HistoryOf(w, i)
    requires forall i :: Attached(v, s, i) ==> Attached(w, s, i)
    requires forall i :: Attached(v, s, i) && RowOfRun(v, s, i) ==> RowOfRun(w, s, i)
    ensures TaskOk(v, s, w.tasks[s])
  {
  }

  /** A step that writes neither rows nor charges, and attaches items to requests without a task at most. */
  lemma TasksFrame(w: World, v: World)
    requires TasksOk(w) && v.rows == w.rows && v.charges == w.charges
    requires forall s :: s in v.tasks ==>
               && s in w.tasks && v.tasks[s] == w.tasks[s]
               && (s in w.requests ==> s in v.requests && v.requests[s] == w.requests[s])
    requires forall i :: i in v.items && v.items[i].request.Some? && v.items[i].request.value in v.tasks ==>
               i in w.items && w.items[i].request == v.items[i].request
    ensures TasksOk(v)
  {
    forall s | s in v.tasks ensures TaskOk(v, s, v.tasks[s]) {
      TaskFrame(w, v, s);
    }
  }

  /** Rewriting a row of `r` disturbs no task of another request. */
  lemma RowStepTasks(w: World, v: World, r: RequestId, i: ItemId)
    requires TasksOk(w) && RowOfRun(w, r, i)
    requires i in v.rows && v.rows[i].request == r && v.rows[i].id == w.rows[i].id
    requires v.rows == w.rows[i := v.rows[i]]
    requires v.items == w.items && v.requests == w.requests && v.charges == w.charges
    requires r in v.tasks && v.tasks == w.tasks[r := v.tasks[r]] && TaskOk(v, r, v.tasks[r])
    ensures TasksOk(v)
  {
    forall s | s in w.tasks && s != r ensures TaskOk(v, s, w.tasks[s]) {
      TaskFrame(w, v, s);
    }
  }

  lemma RowStepRest(w: World, v: World, r: RequestId, i: ItemId)
    requires RowsOk(w) && IdsDistinct(w) && ItemsOk(w) && RowOfRun(w, r, i) && HeldFor(w, r, i)
    requires i in v.rows && v.rows[i].request == r && v.rows[i].id == w.rows[i].id
    requires v.rows == w.rows[i := v.rows[i]] && HistoryOk(v.rows[i], HistoryOf(w, i))
    requires v.items == w.items && v.requests == w.requests && v.charges == w.charges
    ensures RowsOk(v) && IdsDistinct(v) && ItemsOk(v)
  {
  }

  /** A step that rewrites the row of a held line of `r` and the task of `r`. */
  lemma RowStep(w: World, r: RequestId, i: ItemId, p: Purchase, t: Task)
    requires Inv(w) && RowOfRun(w, r, i) && HeldFor(w, r, i)
    requires p.id == w.rows[i].id && p.request == r
    requires HistoryOk(p, HistoryOf(w, i))
    requires TaskOk(w.(rows := w.rows[i := p], tasks := w.tasks[r := t]), r, t)
    ensures Inv(w.(rows := w.rows[i := p], tasks := w.tasks[r := t]))
  {
    var v := w.(rows := w.rows[i := p], tasks := w.tasks[r := t]);
    RowStepRest(w, v, r, i);
    RowStepTasks(w, v, r, i);
  }

  /** A step that changes nothing but the task of `r`. */
  lemma TaskStep(w: World, r: RequestId, t: Task)
    requires Inv(w) && TaskOk(w, r, t) && !w.requests[r].status.Queued?
    ensures Inv(Resume(w, r, t))
  {
    var v := Resume(w, r, t);
    assert TasksOk(v) by {
      forall s | s in v.tasks ensures TaskOk(v, s, v.tasks[s]) {
        TaskRereads(w, v, s, v.tasks[s]);
      }
    }
  }

  /** Tasks do not depend on each other, nor on the clock. */
  lemma TaskRereads(w: World, v: World, s: RequestId, t: Task)
    requires TaskOk(w, s, t)
    requires v.rows == w.rows && v.items == w.items && v.requests == w.requests && v.charges == w.charges
    ensures TaskOk(v, s, t)
  {
  }

  lemma DropStep(w: World, r: RequestId)
    requires Inv(w)
    ensures Inv(Drop(w, r))
  {
    TasksFrame(w, Drop(w, r));
  }
}
