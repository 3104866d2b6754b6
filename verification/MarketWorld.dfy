/**
 * The market withdrawal protocol as a transition system.
 *
 * One step is one thing that happens atomically: a database statement or
 * transaction, one answer of the market, one move of the market or of a
 * player, or a crash. Everything the worker holds in memory between two of
 * its steps is in its task, so a crash is the loss of a task.
 */
module MarketWorld {
  import opened Wrappers
  import opened Market

  type ItemId = nat
  type RequestId = nat
  type CustomId = nat

  // ----- database rows

  datatype ItemStatus =
    | Available
    | Locked
    | Withdrawn
    | Spent  // sold, upgraded or contracted

  /** `request` is the row's `withdrawalId`. */
  datatype Item = Item(status: ItemStatus, request: Option<RequestId>, catalogue: nat, acquired: nat)

  /** `Queued` and `Refused` are the source's PENDING and FAILED. */
  datatype RequestStatus = Queued | Processing | Sent | Completed | Partial | Refused | Cancelled

  datatype Request = Request(
    lines: seq<ItemId>, status: RequestStatus, sentAt: Option<nat>, completedAt: Option<nat>)

  datatype PurchaseStatus = Pending | Bought | Delivered | Failed

  /** What the ceiling was computed from when the row was made; kept for the price theorem only. */
  datatype Quote = Quote(catalogue: nat, acquired: nat, overpayBps: nat)

  datatype Purchase = Purchase(
    id: CustomId,
    request: RequestId,
    account: Option<AccountId>,
    status: PurchaseStatus,
    attempts: nat,
    maxPrice: nat,
    stage: Option<int>,
    marketId: Option<nat>,
    paidPrice: Option<nat>,
    updatedAt: nat,
    quote: Quote)

  /** A row nothing was ever spent on: refused, or not attempted yet. */
  predicate Dormant(p: Purchase) {
    p.status.Failed? || (p.status.Pending? && p.attempts == 0)
  }

  // ----- the market's own records

  datatype Charge = Charge(account: AccountId, marketId: nat, price: nat, stage: int)

  predicate IsCancelled(c: Charge) {
    ClassifyStage(c.stage).TimedOut?
  }

  /** What a lookup with the key of `account` shows: that account's newest charge. */
  function Newest(history: seq<Charge>, account: AccountId): Option<Charge> {
    if history == [] then None
    else if history[|history| - 1].account == account then Some(history[|history| - 1])
    else Newest(history[..|history| - 1], account)
  }

  // ----- what the worker holds in memory

  datatype Reply = Info(charge: Charge) | Missing

  datatype Phase =
    | AtLine                                  // about to fetch or make the row
    | Ensured(p: Purchase)                    // holding a PENDING row
    | Adopting(p: Purchase, info: Charge)     // a retry that found its earlier charge
    | Clear(p: Purchase)                      // first attempt, or a lookup that found nothing
    | Searching(p: Purchase, account: AccountId)
    | Recording(p: Purchase, account: AccountId)
    | Sending(p: Purchase, account: AccountId)
    | Confirming(p: Purchase, marketId: nat)
    | Failing(p: Purchase)

  datatype SettlePlan = SettlePlan(
    release: seq<ItemId>, deliver: seq<ItemId>, delivered: nat, failed: nat, open: nat, bought: nat)

  /** A poll entry: the row as read, the answer, and when the question was put. */
  datatype Asked = Asked(p: Purchase, reply: Reply, at: nat)

  datatype Task =
    | Run(line: nat, phase: Phase, overpayBps: nat)
    | Polling(asked: map<ItemId, Asked>)
    | SettleDue
    | Settling(plan: SettlePlan)

  datatype World = World(
    now: nat,
    items: map<ItemId, Item>,
    requests: map<RequestId, Request>,
    rows: map<ItemId, Purchase>,
    charges: map<CustomId, seq<Charge>>,
    tasks: map<RequestId, Task>)

  const EMPTY_WORLD := World(0, map[], map[], map[], map[], map[])

  function History(w: World, id: CustomId): seq<Charge> {
    if id in w.charges then w.charges[id] else []
  }

  // ----- actions

  datatype BuyAnswer =
    | Accepted(marketId: nat, price: nat)       // charged, and the reply arrived
    | ChargedReplyLost(marketId: nat, price: nat)
    | NotChargedReplyLost
    | RefusedByMarket                           // `success: false`: nothing was charged

  datatype SearchAnswer = OfferWithinCap | NoOffer | SearchRefused | SearchLost

  datatype LookupAnswer = KeyGone | LookupLost | Answered(reply: Reply)

  /** Players, operators, time, the market, and the loss of a worker. */
  datatype OutsideMove =
    | Tick(ms: nat)
    | NewItem(i: ItemId, catalogue: nat, acquired: nat)
    | Reprice(i: ItemId, catalogue: nat)
    | Spend(i: ItemId)
    | Submit(r: RequestId, lines: seq<ItemId>)
    | Cancel(r: RequestId)
    | MarketMoves(id: CustomId, k: nat, stage: int)
    | Crash(r: RequestId)

  /** One statement of a processing run. */
  datatype RunMove =
    | Start(overpayBps: nat)
    | Abandon
    | Ensure(id: CustomId)
    | Lookup(shown: LookupAnswer)
    | Claim(account: Option<AccountId>)
    | Search(found: SearchAnswer)
    | Record
    | Buy(answer: BuyAnswer)
    | Write
    | LeaveLoop

  /** One statement of the poller, or of a settle at the end of a run or of a poll. */
  datatype WatchMove =
    | PollAsk(i: ItemId, reply: Reply)
    | PollApply(i: ItemId)
    | SettleBegin
    | SettleRead
    | SettleWrite

  datatype Action =
    | Outside(outside: OutsideMove)
    | Running(r: RequestId, run: RunMove)
    | Watching(r: RequestId, watch: WatchMove)

  // ----- helpers of the steps

  function Line(w: World, r: RequestId, t: Task): ItemId
    requires r in w.requests && t.Run? && t.line < |w.requests[r].lines|
  {
    w.requests[r].lines[t.line]
  }

  function Resume(w: World, r: RequestId, t: Task): World {
    w.(tasks := w.tasks[r := t])
  }

  function Drop(w: World, r: RequestId): World {
    w.(tasks := map s | s in w.tasks && s != r :: w.tasks[s])
  }

  /** The run of `r` moves to another phase of its line, or on to the next line. */
  function ToPhase(w: World, r: RequestId, phase: Phase): World
    requires r in w.tasks && w.tasks[r].Run?
  {
    Resume(w, r, w.tasks[r].(phase := phase))
  }

  function NextLine(w: World, r: RequestId): World
    requires r in w.tasks && w.tasks[r].Run?
  {
    Resume(w, r, w.tasks[r].(phase := AtLine, line := w.tasks[r].line + 1))
  }

  function PutRow(w: World, i: ItemId, p: Purchase): World {
    w.(rows := w.rows[i := p.(updatedAt := w.now)])
  }

  function AddCharge(w: World, id: CustomId, c: Charge): World {
    w.(charges := w.charges[id := History(w, id) + [c]])
  }

  /** The run of `r` stands at an existing line, in some phase. */
  predicate OnLine(w: World, r: RequestId) {
    && r in w.requests && r in w.tasks && w.tasks[r].Run?
    && w.tasks[r].line < |w.requests[r].lines|
  }

  function PhaseOf(w: World, r: RequestId): Phase
    requires OnLine(w, r)
  {
    w.tasks[r].phase
  }

  function CurrentLine(w: World, r: RequestId): ItemId
    requires OnLine(w, r)
  {
    Line(w, r, w.tasks[r])
  }

  /** `applyBuyInfo`: a row that shows a charge is bought, delivered or failed, by the stage. */
  function ApplyInfo(p: Purchase, c: Charge): Purchase {
    p.(status := match ClassifyStage(c.stage) case InFlight => Bought case Given => Delivered case TimedOut => Failed,
       stage := Some(c.stage),
       marketId := if p.marketId.Some? then p.marketId else Some(c.marketId),
       paidPrice := Some(c.price))
  }

  // ----- settling

  datatype LineOutcome = DeliveredLine | RefundedLine | OpenLine

  /** The request's own row for an item: a row that belongs to another request does not count. */
  function OwnRow(w: World, r: RequestId, i: ItemId): Option<Purchase> {
    if i in w.rows && w.rows[i].request == r then Some(w.rows[i]) else None
  }

  function Outcome(w: World, r: RequestId, i: ItemId): LineOutcome {
    match OwnRow(w, r, i)
    case None => RefundedLine
    case Some(p) => if p.status.Delivered? then DeliveredLine else if Dormant(p) then RefundedLine else OpenLine
  }

  predicate Attached(w: World, r: RequestId, i: ItemId) {
    i in w.items && w.items[i].request == Some(r)
  }

  predicate CountsAsBought(w: World, r: RequestId, i: ItemId) {
    var row := OwnRow(w, r, i);
    row.Some? && (row.value.status.Delivered? || row.value.status.Bought?)
  }

  const EMPTY_PLAN := SettlePlan([], [], 0, 0, 0, 0)

  /** One turn of the tally loop. */
  function Tally(w: World, r: RequestId, i: ItemId, plan: SettlePlan): SettlePlan {
    var counted := if CountsAsBought(w, r, i) then plan.(bought := plan.bought + 1) else plan;
    match Outcome(w, r, i)
    case DeliveredLine =>
      counted.(delivered := plan.delivered + 1,
               deliver := if Attached(w, r, i) then plan.deliver + [i] else plan.deliver)
    case RefundedLine =>
      counted.(failed := plan.failed + 1,
               release := if Attached(w, r, i) then plan.release + [i] else plan.release)
    case OpenLine => counted.(open := plan.open + 1)
  }

  function PlanOf(w: World, r: RequestId, lines: seq<ItemId>): SettlePlan {
    if lines == [] then EMPTY_PLAN
    else Tally(w, r, lines[|lines| - 1], PlanOf(w, r, lines[..|lines| - 1]))
  }

  function PlanStatus(plan: SettlePlan): RequestStatus {
    if plan.open > 0 then Sent
    else if plan.delivered == 0 then Refused
    else if plan.failed == 0 then Completed
    else Partial
  }

  function Released(item: Item): Item {
    item.(status := Available, request := None)
  }

  /** Both conditional updates of the settle transaction: only rows still attached to `r` move. */
  function MoveItems(items: map<ItemId, Item>, r: RequestId, plan: SettlePlan): map<ItemId, Item> {
    map i | i in items ::
      if items[i].request != Some(r) then items[i]
      else if i in plan.release then Released(items[i])
      else if i in plan.deliver then items[i].(status := Withdrawn)
      else items[i]
  }

  function SettledRequest(q: Request, plan: SettlePlan, now: nat): Request {
    q.(status := PlanStatus(plan),
       sentAt := if q.sentAt.Some? then q.sentAt else if plan.bought > 0 then Some(now) else None,
       completedAt := if plan.open > 0 then None else if q.completedAt.Some? then q.completedAt else Some(now))
  }

  function ApplyPlan(w: World, r: RequestId, plan: SettlePlan): World
    requires r in w.requests
  {
    w.(items := MoveItems(w.items, r, plan),
       requests := w.requests[r := SettledRequest(w.requests[r], plan, w.now)])
  }

  // ----- environment premises

  /** An item id may appear on one line of a request only, and every line must be free. */
  predicate CanSubmit(w: World, r: RequestId, lines: seq<ItemId>) {
    && r !in w.requests
    && (forall j, k :: 0 <= j < k < |lines| ==> lines[j] != lines[k])
    && (forall i :: i in lines ==> i in w.items && w.items[i].status.Available?)
  }

  /** A retry's lookup shows the newest charge of the account it asks, or nothing if there is none. */
  predicate RetryReplyTruthful(w: World, p: Purchase, reply: Reply) {
    p.account.Some? &&
    match reply
    case Info(c) => Newest(History(w, p.id), p.account.value) == Some(c)
    case Missing => Newest(History(w, p.id), p.account.value).None?
  }

  /**
   * A poll may also miss a charge, but only while the row is younger than the
   * grace period less one request timeout.
   */
  predicate PollReplyTruthful(w: World, p: Purchase, reply: Reply) {
    p.account.Some? &&
    match reply
    case Info(c) => Newest(History(w, p.id), p.account.value) == Some(c)
    case Missing =>
      || Newest(History(w, p.id), p.account.value).None?
      || w.now <= p.updatedAt + UNCONFIRMED_GRACE_MS - REQUEST_TIMEOUT_MS
  }

  predicate Final(stage: int) {
    !ClassifyStage(stage).InFlight?
  }

  predicate OpenRow(p: Purchase) {
    p.status.Bought? || (p.status.Pending? && p.attempts > 0)
  }

  /** No row has been issued this custom id yet. */
  predicate FreshId(w: World, id: CustomId) {
    id !in w.charges && forall i :: i in w.rows ==> w.rows[i].id != id
  }

  // ----- the row a line starts from

  function NewQuote(w: World, i: ItemId, overpayBps: nat): Quote
    requires i in w.items
  {
    Quote(w.items[i].catalogue, w.items[i].acquired, overpayBps)
  }

  function Ceiling(q: Quote): nat {
    MaxPayable(Max(q.catalogue, q.acquired), q.overpayBps)
  }

  /** A leftover row is reset onto the new request; it keeps its id and its account. */
  function ResetRow(was: Purchase, r: RequestId, quote: Quote): Purchase {
    Purchase(was.id, r, was.account, Pending, 0, Ceiling(quote), None, None, None, was.updatedAt, quote)
  }

  function CreatedRow(id: CustomId, r: RequestId, quote: Quote, now: nat): Purchase {
    Purchase(id, r, None, Pending, 0, Ceiling(quote), None, None, None, now, quote)
  }

  /** A row of another request that is neither refused nor pending makes `ensurePurchase` throw. */
  predicate EnsureThrows(w: World, r: RequestId, i: ItemId) {
    i in w.rows && w.rows[i].request != r && !w.rows[i].status.Failed? && !w.rows[i].status.Pending?
  }

  function EnsuredRow(w: World, r: RequestId, i: ItemId, id: CustomId, overpayBps: nat): Purchase
    requires i in w.items
  {
    if i in w.rows && w.rows[i].request == r then w.rows[i]
    else if i in w.rows then ResetRow(w.rows[i], r, NewQuote(w, i, overpayBps)).(updatedAt := w.now)
    else CreatedRow(id, r, NewQuote(w, i, overpayBps), w.now)
  }

  // ----- when an action can happen

  predicate CanStart(w: World, r: RequestId) {
    && r in w.requests && r !in w.tasks
    && (w.requests[r].status.Queued? || w.requests[r].status.Processing?)
  }

  /** A trade URL that cannot be parsed is noticed before the first line. */
  predicate CanAbandon(w: World, r: RequestId) {
    r in w.requests && r in w.tasks && w.tasks[r].Run? && w.tasks[r].line == 0 && w.tasks[r].phase.AtLine?
  }

  predicate CanEnsure(w: World, r: RequestId, id: CustomId) {
    && OnLine(w, r) && PhaseOf(w, r).AtLine? && CurrentLine(w, r) in w.items
    && (CurrentLine(w, r) in w.rows || FreshId(w, id))
  }

  /** A retry asks first: an attempt is recorded and the account it was made on is known. */
  predicate AsksFirst(p: Purchase) {
    p.attempts > 0 && p.account.Some?
  }

  predicate CanLookup(w: World, r: RequestId, shown: LookupAnswer) {
    && OnLine(w, r) && PhaseOf(w, r).Ensured? && AsksFirst(PhaseOf(w, r).p)
    && (shown.Answered? ==> RetryReplyTruthful(w, PhaseOf(w, r).p, shown.reply))
  }

  predicate CanClaim(w: World, r: RequestId) {
    && OnLine(w, r)
    && (PhaseOf(w, r).Clear? || (PhaseOf(w, r).Ensured? && !AsksFirst(PhaseOf(w, r).p)))
  }

  predicate CanSearch(w: World, r: RequestId) {
    OnLine(w, r) && PhaseOf(w, r).Searching?
  }

  predicate CanRecord(w: World, r: RequestId) {
    OnLine(w, r) && PhaseOf(w, r).Recording? && CurrentLine(w, r) in w.rows
  }

  /** The market reads the ceiling it is given as a maximum. */
  predicate CanBuy(w: World, r: RequestId, answer: BuyAnswer) {
    && OnLine(w, r) && PhaseOf(w, r).Sending?
    && (answer.Accepted? || answer.ChargedReplyLost? ==> answer.price <= PhaseOf(w, r).p.maxPrice)
  }

  predicate CanWrite(w: World, r: RequestId) {
    && OnLine(w, r) && CurrentLine(w, r) in w.rows
    && (PhaseOf(w, r).Adopting? || PhaseOf(w, r).Confirming? || PhaseOf(w, r).Failing?)
  }

  /** No run or settle of the request is under way while one of its rows is polled. */
  predicate CanPollAsk(w: World, r: RequestId, i: ItemId, reply: Reply) {
    && r in w.requests && (r in w.tasks ==> w.tasks[r].Polling?)
    && i in w.rows && w.rows[i].request == r && OpenRow(w.rows[i])
    && PollReplyTruthful(w, w.rows[i], reply)
  }

  /** An answer is acted on within one request timeout of the question. */
  predicate CanPollApply(w: World, r: RequestId, i: ItemId) {
    && r in w.tasks && w.tasks[r].Polling? && i in w.tasks[r].asked && i in w.rows
    && w.now <= w.tasks[r].asked[i].at + REQUEST_TIMEOUT_MS
  }

  /** The poller comes to a request one of whose rows it has moved. */
  predicate CanSettleBegin(w: World, r: RequestId) {
    r in w.requests && r !in w.tasks && !w.requests[r].status.Queued?
  }

  predicate CanSettleRead(w: World, r: RequestId) {
    && r in w.requests && r in w.tasks
    && (w.tasks[r].SettleDue? || (w.tasks[r].Polling? && w.tasks[r].asked == map[]))
  }

  predicate CanSettleWrite(w: World, r: RequestId) {
    r in w.requests && r in w.tasks && w.tasks[r].Settling?
  }

  predicate OutsideEnabled(w: World, m: OutsideMove) {
    match m
    case Tick(_) => true
    case NewItem(i, _, _) => i !in w.items
    case Reprice(i, _) => i in w.items
    case Spend(i) => i in w.items && w.items[i].status.Available?
    case Submit(r, lines) => CanSubmit(w, r, lines)
    case Cancel(r) => r in w.requests && w.requests[r].status.Queued?
    case MarketMoves(id, k, _) => k < |History(w, id)| && !Final(History(w, id)[k].stage)
    case Crash(r) => r in w.tasks
  }

  predicate RunEnabled(w: World, r: RequestId, m: RunMove) {
    match m
    case Start(_) => CanStart(w, r)
    case Abandon => CanAbandon(w, r)
    case Ensure(id) => CanEnsure(w, r, id)
    case Lookup(shown) => CanLookup(w, r, shown)
    case Claim(_) => CanClaim(w, r)
    case Search(_) => CanSearch(w, r)
    case Record => CanRecord(w, r)
    case Buy(answer) => CanBuy(w, r, answer)
    case Write => CanWrite(w, r)
    case LeaveLoop => r in w.tasks && w.tasks[r].Run?
  }

  predicate WatchEnabled(w: World, r: RequestId, m: WatchMove) {
    match m
    case PollAsk(i, reply) => CanPollAsk(w, r, i, reply)
    case PollApply(i) => CanPollApply(w, r, i)
    case SettleBegin => CanSettleBegin(w, r)
    case SettleRead => CanSettleRead(w, r)
    case SettleWrite => CanSettleWrite(w, r)
  }

  predicate Enabled(w: World, a: Action) {
    match a
    case Outside(m) => OutsideEnabled(w, m)
    case Running(r, m) => RunEnabled(w, r, m)
    case Watching(r, m) => WatchEnabled(w, r, m)
  }

  // ----- what an action does

  function DoTick(w: World, ms: nat): World {
    w.(now := w.now + ms)
  }

  function DoSubmit(w: World, r: RequestId, lines: seq<ItemId>): World {
    w.(requests := w.requests[r := Request(lines, Queued, None, None)],
       items := map i | i in w.items ::
         if i in lines then w.items[i].(status := Locked, request := Some(r)) else w.items[i])
  }

  function ReleaseAll(items: map<ItemId, Item>, r: RequestId): map<ItemId, Item> {
    map i | i in items :: if items[i].request == Some(r) then Released(items[i]) else items[i]
  }

  function DoCancel(w: World, r: RequestId): World
    requires r in w.requests
  {
    w.(requests := w.requests[r := w.requests[r].(status := Cancelled)], items := ReleaseAll(w.items, r))
  }

  /** Rows of `r` that an attempt or an answer has touched. */
  predicate AnySpent(w: World, r: RequestId) {
    exists i :: i in w.rows && w.rows[i].request == r && !(w.rows[i].status.Pending? && w.rows[i].attempts == 0)
  }

  function DoAbandon(w: World, r: RequestId): World
    requires r in w.requests
  {
    if AnySpent(w, r) then Resume(w, r, SettleDue)
    else Drop(w.(requests := w.requests[r := w.requests[r].(status := Refused)], items := ReleaseAll(w.items, r)), r)
  }

  function DoMarketMoves(w: World, id: CustomId, k: nat, stage: int): World
    requires k < |History(w, id)|
  {
    w.(charges := w.charges[id := History(w, id)[k := History(w, id)[k].(stage := stage)]])
  }

  function DoStart(w: World, r: RequestId, overpayBps: nat): World
    requires r in w.requests
  {
    Resume(w.(requests := w.requests[r := w.requests[r].(status := Processing)]), r, Run(0, AtLine, overpayBps))
  }

  function DoEnsure(w: World, r: RequestId, id: CustomId): World
    requires CanEnsure(w, r, id)
  {
    var i := CurrentLine(w, r);
    if EnsureThrows(w, r, i) then Resume(w, r, SettleDue)
    else
      var p := EnsuredRow(w, r, i, id, w.tasks[r].overpayBps);
      var w1 := w.(rows := w.rows[i := p]);
      if p.status.Pending? then ToPhase(w1, r, Ensured(p)) else NextLine(w1, r)
  }

  function DoLookup(w: World, r: RequestId, shown: LookupAnswer): World
    requires CanLookup(w, r, shown)
  {
    var p := PhaseOf(w, r).p;
    match shown
    case KeyGone => NextLine(w, r)
    case LookupLost => NextLine(w, r)
    case Answered(Info(c)) => ToPhase(w, r, Adopting(p, c))
    case Answered(Missing) => ToPhase(w, r, Clear(p))
  }

  function DoClaim(w: World, r: RequestId, account: Option<AccountId>): World
    requires CanClaim(w, r)
  {
    var p := PhaseOf(w, r).p;
    match account
    case None => ToPhase(w, r, Failing(p))
    case Some(a) => ToPhase(w, r, Searching(p, a))
  }

  function DoSearch(w: World, r: RequestId, found: SearchAnswer): World
    requires CanSearch(w, r)
  {
    var phase := PhaseOf(w, r);
    match found
    case OfferWithinCap => ToPhase(w, r, Recording(phase.p, phase.account))
    case SearchLost => NextLine(w, r)
    case _ => ToPhase(w, r, Failing(phase.p))
  }

  function DoRecord(w: World, r: RequestId): World
    requires CanRecord(w, r)
  {
    var phase := PhaseOf(w, r);
    var i := CurrentLine(w, r);
    var row := w.rows[i];
    ToPhase(PutRow(w, i, row.(account := Some(phase.account), attempts := row.attempts + 1)),
            r, Sending(phase.p, phase.account))
  }

  function DoBuy(w: World, r: RequestId, answer: BuyAnswer): World
    requires CanBuy(w, r, answer)
  {
    var phase := PhaseOf(w, r);
    match answer
    case Accepted(id, price) =>
      ToPhase(AddCharge(w, phase.p.id, Charge(phase.account, id, price, 1)), r, Confirming(phase.p, id))
    case ChargedReplyLost(id, price) =>
      NextLine(AddCharge(w, phase.p.id, Charge(phase.account, id, price, 1)), r)
    case NotChargedReplyLost => NextLine(w, r)
    case RefusedByMarket => ToPhase(w, r, Failing(phase.p))
  }

  function DoWrite(w: World, r: RequestId): World
    requires CanWrite(w, r)
  {
    var phase := PhaseOf(w, r);
    var i := CurrentLine(w, r);
    var row := w.rows[i];
    match phase
    case Adopting(p, info) =>
      NextLine(PutRow(w, i, ApplyInfo(row.(marketId := p.marketId), info)), r)
    case Confirming(_, marketId) =>
      NextLine(PutRow(w, i, row.(status := Bought, marketId := Some(marketId))), r)
    case _ => NextLine(PutRow(w, i, row.(status := Failed)), r)
  }

  function AskedSoFar(w: World, r: RequestId): map<ItemId, Asked> {
    if r in w.tasks && w.tasks[r].Polling? then w.tasks[r].asked else map[]
  }

  function DoPollAsk(w: World, r: RequestId, i: ItemId, reply: Reply): World
    requires i in w.rows
  {
    Resume(w, r, Polling(AskedSoFar(w, r)[i := Asked(w.rows[i], reply, w.now)]))
  }

  /** What the poller writes, if anything, once it has the answer for a row. */
  function PollWrite(row: Purchase, asked: Asked, now: nat): Option<Purchase> {
    match asked.reply
    case Info(c) => Some(ApplyInfo(row.(marketId := asked.p.marketId), c))
    case Missing =>
      if asked.p.status.Pending? && now > asked.p.updatedAt + UNCONFIRMED_GRACE_MS
      then Some(row.(status := Failed))
      else None
  }

  function DoPollApply(w: World, r: RequestId, i: ItemId): World
    requires CanPollApply(w, r, i)
  {
    var asked := w.tasks[r].asked;
    var rest := map j | j in asked && j != i :: asked[j];
    var w1 := match PollWrite(w.rows[i], asked[i], w.now) case None => w case Some(p) => PutRow(w, i, p);
    Resume(w1, r, Polling(rest))
  }

  function OutsideStep(w: World, m: OutsideMove): World
    requires OutsideEnabled(w, m)
  {
    match m
    case Tick(ms) => DoTick(w, ms)
    case NewItem(i, catalogue, acquired) => w.(items := w.items[i := Item(Available, None, catalogue, acquired)])
    case Reprice(i, catalogue) => w.(items := w.items[i := w.items[i].(catalogue := catalogue)])
    case Spend(i) => w.(items := w.items[i := w.items[i].(status := Spent)])
    case Submit(r, lines) => DoSubmit(w, r, lines)
    case Cancel(r) => DoCancel(w, r)
    case MarketMoves(id, k, stage) => DoMarketMoves(w, id, k, stage)
    case Crash(r) => Drop(w, r)
  }

  function RunStep(w: World, r: RequestId, m: RunMove): World
    requires RunEnabled(w, r, m)
  {
    match m
    case Start(overpayBps) => DoStart(w, r, overpayBps)
    case Abandon => DoAbandon(w, r)
    case Ensure(id) => DoEnsure(w, r, id)
    case Lookup(shown) => DoLookup(w, r, shown)
    case Claim(account) => DoClaim(w, r, account)
    case Search(found) => DoSearch(w, r, found)
    case Record => DoRecord(w, r)
    case Buy(answer) => DoBuy(w, r, answer)
    case Write => DoWrite(w, r)
    case LeaveLoop => Resume(w, r, SettleDue)
  }

  function DoSettleRead(w: World, r: RequestId): World
    requires r in w.requests
  {
    Resume(w, r, Settling(PlanOf(w, r, w.requests[r].lines)))
  }

  function DoSettleWrite(w: World, r: RequestId): World
    requires CanSettleWrite(w, r)
  {
    Drop(ApplyPlan(w, r, w.tasks[r].plan), r)
  }

  function WatchStep(w: World, r: RequestId, m: WatchMove): World
    requires WatchEnabled(w, r, m)
  {
    match m
    case PollAsk(i, reply) => DoPollAsk(w, r, i, reply)
    case PollApply(i) => DoPollApply(w, r, i)
    case SettleBegin => Resume(w, r, SettleDue)
    case SettleRead => DoSettleRead(w, r)
    case SettleWrite => DoSettleWrite(w, r)
  }

  function Step(w: World, a: Action): World
    requires Enabled(w, a)
  {
    match a
    case Outside(m) => OutsideStep(w, m)
    case Running(r, m) => RunStep(w, r, m)
    case Watching(r, m) => WatchStep(w, r, m)
  }

  // ----- runs of the whole system

  predicate Feasible(w: World, actions: seq<Action>)
    decreases |actions|
  {
    actions == [] || (Enabled(w, actions[0]) && Feasible(Step(w, actions[0]), actions[1..]))
  }

  function After(w: World, actions: seq<Action>): World
    requires Feasible(w, actions)
    decreases |actions|
  {
    if actions == [] then w else After(Step(w, actions[0]), actions[1..])
  }

  ghost predicate Reachable(w: World) {
    exists actions :: Feasible(EMPTY_WORLD, actions) && After(EMPTY_WORLD, actions) == w
  }
}
