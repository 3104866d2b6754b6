/**
 * The poller: open rows are grouped by account, looked up batch by batch,
 * rewritten from the answers, and the requests they belong to settled.
 */
module MarketPoller {
  import opened Wrappers
  import opened Market
  import opened MarketWorld
  import opened MarketInvariant
  import opened MarketSteps
  import opened MarketSettle
  import opened MarketLines
  import opened MarketProcessor

  const POLL_BATCH := 20

  function AnswerFor(w: World, p: Purchase): Reply
    requires p.account.Some?
  {
    match Newest(History(w, p.id), p.account.value) case None => Missing case Some(c) => Info(c)
  }

  /**
   * What the poll is shown about a row. The lookups of a poll may miss some of
   * the rows, but none that is as old as the grace period less one request
   * timeout.
   */
  function Shown(w: World, missed: set<ItemId>, i: ItemId): Reply
    requires i in w.rows && w.rows[i].account.Some?
  {
    if i in missed && w.now <= w.rows[i].updatedAt + UNCONFIRMED_GRACE_MS - REQUEST_TIMEOUT_MS then Missing
    else AnswerFor(w, w.rows[i])
  }

  /** What a row has become once its answer is written. */
  function PolledRow(p: Purchase, reply: Reply, now: nat): Purchase {
    match PollWrite(p, Asked(p, reply, now), now) case None => p case Some(q) => q.(updatedAt := now)
  }

  /** Whether the request of this row has to be settled. */
  predicate Touches(p: Purchase, reply: Reply, now: nat) {
    match reply
    case Missing => p.status.Pending? && now > p.updatedAt + UNCONFIRMED_GRACE_MS
    case Info(c) => !ClassifyStage(c.stage).InFlight? || p.status.Pending?
  }

  /** An open row whose request no other worker is busy with. */
  ghost predicate Pollable(w: World, i: ItemId) {
    i in w.rows && OpenRow(w.rows[i]) && w.rows[i].account.Some? && w.rows[i].request !in w.tasks
  }

  /** Asking about one row, writing the answer and letting go, as protocol steps. */
  lemma PollOneSteps(w: World, i: ItemId, reply: Reply)
    requires Inv(w) && Pollable(w, i) && PollReplyTruthful(w, w.rows[i], reply)
    ensures var v := w.(rows := w.rows[i := PolledRow(w.rows[i], reply, w.now)]);
            Inv(v) && Leads(w, v)
  {
    hide Inv, Leads;
    var p := w.rows[i];
    var r := p.request;
    var v := w.(rows := w.rows[i := PolledRow(p, reply, w.now)]);
    OpenRowHeld(w, i);
    RequestExists(w, i);
    LeadsNowhere(w);
    StepOn(w, w, Watching(r, PollAsk(i, reply)));
    var w1 := DoPollAsk(w, r, i, reply);
    StepOn(w, w1, Watching(r, PollApply(i)));
    var w2 := DoPollApply(w1, r, i);
    assert w2.rows == v.rows;
    StepOn(w, w2, Outside(Crash(r)));
    assert Drop(w2, r) == v;
  }

  lemma RequestExists(w: World, i: ItemId)
    requires Inv(w) && i in w.rows
    ensures w.rows[i].request in w.requests
  {
  }

  /** Settling a touched request, as protocol steps. */
  lemma SettleSteps(w: World, r: RequestId)
    requires Inv(w) && CanSettleBegin(w, r)
    ensures Inv(MarketSettle.Settle(w, r)) && Leads(w, MarketSettle.Settle(w, r))
  {
    hide Inv, Leads;
    LeadsNowhere(w);
    StepOn(w, w, Watching(r, SettleBegin));
    var w1 := Resume(w, r, SettleDue);
    StepOn(w, w1, Watching(r, SettleRead));
    var w2 := DoSettleRead(w1, r);
    StepOn(w, w2, Watching(r, SettleWrite));
    PlanReadsRows(w, w1, r, w.requests[r].lines);
    assert DoSettleWrite(w2, r) == MarketSettle.Settle(w, r);
  }

  /** Where a poll of one row, with this answer, and the settle of its request leave the world. */
  function PolledAndSettled(w: World, i: ItemId, reply: Reply): World
    requires i in w.rows && w.rows[i].request in w.requests
  {
    MarketSettle.Settle(w.(rows := w.rows[i := PolledRow(w.rows[i], reply, w.now)]), w.rows[i].request)
  }

  /**
   * Every open purchase is resolved as soon as the market has decided: from
   * any good world, polling the row and settling its request takes a delivered
   * item to WITHDRAWN and a cancelled one back to the player, by protocol steps.
   */
  lemma PollResolves(w: World, i: ItemId)
    requires Inv(w) && Pollable(w, i) && AnswerFor(w, w.rows[i]).Info?
    requires Final(AnswerFor(w, w.rows[i]).charge.stage)
    ensures w.rows[i].request in w.requests
    ensures var v := PolledAndSettled(w, i, AnswerFor(w, w.rows[i]));
            && Inv(v) && Leads(w, v) && i in v.items
            && (if ClassifyStage(AnswerFor(w, w.rows[i]).charge.stage).Given?
                then v.items[i].status.Withdrawn? && v.items[i].request == Some(w.rows[i].request)
                else v.items[i].status.Available? && v.items[i].request.None?)
  {
    RequestExists(w, i);
    OpenRowHeld(w, i);
    hide Inv, Leads;
    var r, reply := w.rows[i].request, AnswerFor(w, w.rows[i]);
    PollOneSteps(w, i, reply);
    var v := w.(rows := w.rows[i := PolledRow(w.rows[i], reply, w.now)]);
    OwnerSettles(v, i);
    SettleSteps(v, r);
    LeadsChain(w, v, MarketSettle.Settle(v, r));
    SettleMovesEachLine(v, r, i);
  }

  // ----- the poll itself

  /** The world with the rows in `done` answered, and nothing else changed. */
  ghost predicate Polled(w: World, v: World, missed: set<ItemId>, done: set<ItemId>) {
    && v.items == w.items && v.requests == w.requests && v.charges == w.charges && v.tasks == w.tasks && v.now == w.now
    && done <= w.rows.Keys && v.rows.Keys == w.rows.Keys
    && forall i :: i in w.rows ==>
         v.rows[i] == if i in done && w.rows[i].account.Some?
                      then PolledRow(w.rows[i], Shown(w, missed, i), w.now) else w.rows[i]
  }

  /** Every touching answer so far has put its request on the list. */
  ghost predicate TouchedCovers(w: World, missed: set<ItemId>, done: set<ItemId>, touched: set<RequestId>) {
    && (forall i :: i in done && i in w.rows && w.rows[i].account.Some? && Touches(w.rows[i], Shown(w, missed, i), w.now) ==>
          w.rows[i].request in touched)
    && (forall r :: r in touched ==> exists i :: i in done && i in w.rows && w.rows[i].request == r)
  }

  /** The answers a batched lookup brings, row by row. */
  ghost predicate Answered(w: World, missed: set<ItemId>, batch: seq<ItemId>, infos: map<ItemId, Charge>) {
    forall i :: i in batch && i in w.rows && w.rows[i].account.Some? ==>
      && (i in infos <==> Shown(w, missed, i).Info?)
      && (i in infos ==> infos[i] == Shown(w, missed, i).charge)
  }

  ghost predicate Started(w: World, open: seq<ItemId>) {
    Distinct(open) && forall i :: i in open ==> Pollable(w, i)
  }

  lemma PollOneMore(w: World, v: World, missed: set<ItemId>, done: set<ItemId>, i: ItemId)
    requires Inv(v) && Leads(w, v) && Polled(w, v, missed, done) && Pollable(w, i) && i !in done
    ensures var u := v.(rows := v.rows[i := PolledRow(w.rows[i], Shown(w, missed, i), w.now)]);
            Inv(u) && Leads(w, u) && Polled(w, u, missed, done + {i})
  {
    hide Inv, Leads;
    assert AnswerFor(v, v.rows[i]) == AnswerFor(w, w.rows[i]);
    PollOneSteps(v, i, Shown(w, missed, i));
    LeadsChain(w, v, v.(rows := v.rows[i := PolledRow(w.rows[i], Shown(w, missed, i), w.now)]));
  }

  /** Acts on one answer. */
  method PollOne(m: MarketWithdrawalProcessor, i: ItemId, infos: map<ItemId, Charge>, missed: set<ItemId>,
                 ghost w: World, ghost done: set<ItemId>)
      returns (touch: bool)
    requires m.Valid() && Leads(w, m.View()) && Polled(w, m.View(), missed, done) && Pollable(w, i) && i !in done
    requires i in infos <==> Shown(w, missed, i).Info?
    requires i in infos ==> infos[i] == Shown(w, missed, i).charge
    modifies m`rows
    ensures m.Valid() && Leads(w, m.View()) && Polled(w, m.View(), missed, done + {i})
    ensures touch <==> Touches(w.rows[i], Shown(w, missed, i), w.now)
    ensures i in m.rows && m.rows[i].request == w.rows[i].request
  {
    hide Inv, Leads;
    PollOneMore(w, m.View(), missed, done, i);
    var purchase := m.rows[i];
    if i !in infos {
      touch := purchase.status.Pending? && m.now > purchase.updatedAt + UNCONFIRMED_GRACE_MS;
      if touch {
        m.FailPurchase(i);
      } else {
        assert m.rows[i := purchase] == m.rows;
      }
    } else {
      m.ApplyBuyInfo(i, purchase, infos[i]);
      touch := !ClassifyStage(infos[i].stage).InFlight? || purchase.status.Pending?;
    }
  }

  /** One batched lookup: the newest charge of this account for each of the rows, unless it is still missed. */
  method LookUp(m: MarketWithdrawalProcessor, account: AccountId, batch: seq<ItemId>, missed: set<ItemId>,
                ghost w: World, ghost done: set<ItemId>)
      returns (infos: map<ItemId, Charge>)
    requires Polled(w, m.View(), missed, done) && ToSet(batch) !! done
    requires forall i :: i in batch ==> i in w.rows && w.rows[i].account == Some(account)
    ensures Answered(w, missed, batch, infos)
  {
    infos := map[];
    for k := 0 to |batch|
      invariant forall i :: i in infos ==> i in batch[..k] && Shown(w, missed, i) == Info(infos[i])
      invariant forall i :: i in batch[..k] ==> (i in infos <==> Shown(w, missed, i).Info?)
    {
      var i := batch[k];
      assert batch[..k + 1] == batch[..k] + [i];
      assert i in ToSet(batch);
      var row := m.rows[i];
      var newest := Newest(if row.id in m.charges then m.charges[row.id] else [], account);
      var hidden := i in missed && m.now <= row.updatedAt + UNCONFIRMED_GRACE_MS - REQUEST_TIMEOUT_MS;
      if newest.Some? && !hidden {
        infos := infos[i := newest.value];
      }
    }
    assert batch[..|batch|] == batch;
  }

  function ToSet(s: seq<ItemId>): set<ItemId> {
    set i | i in s
  }

  /** In a list without repetitions, what comes later is not among what came before. */
  lemma SlicesAreApart(s: seq<ItemId>, start: nat, stop: nat)
    requires Distinct(s) && start <= stop <= |s|
    ensures ToSet(s[..start]) !! ToSet(s[start..stop]) && Distinct(s[start..stop])
    ensures ToSet(s[start..stop]) <= ToSet(s)
  {
    forall i | i in s[..start] ensures i !in s[start..stop] {
      var j :| 0 <= j < start && s[j] == i;
    }
  }

  /** The lookups of one account and what follows from them; the request at `failsAt` fails and ends them. */
  method PollForAccount(m: MarketWithdrawalProcessor, account: AccountId, purchases: seq<ItemId>, failsAt: Option<nat>,
                        touchedBefore: set<RequestId>, missed: set<ItemId>, ghost w: World, ghost doneBefore: set<ItemId>)
      returns (touched: set<RequestId>, ghost done: set<ItemId>)
    requires m.Valid() && Leads(w, m.View()) && Polled(w, m.View(), missed, doneBefore) && TouchedCovers(w, missed, doneBefore, touchedBefore)
    requires Started(w, purchases) && ToSet(purchases) !! doneBefore
    requires forall i :: i in purchases ==> w.rows[i].account == Some(account)
    modifies m`rows, m.pool`lastUsedAt
    ensures m.Valid() && Leads(w, m.View()) && Polled(w, m.View(), missed, done) && TouchedCovers(w, missed, done, touched)
    ensures doneBefore <= done <= doneBefore + ToSet(purchases)
    ensures failsAt.None? ==> done == doneBefore + ToSet(purchases)
  {
    hide Inv, Leads, Polled, TouchedCovers;
    touched, done := touchedBefore, doneBefore;
    var start := 0;
    while start < |purchases|
      invariant 0 <= start
      invariant m.Valid() && Leads(w, m.View()) && Polled(w, m.View(), missed, done) && TouchedCovers(w, missed, done, touched)
      invariant done == doneBefore + ToSet(purchases[..if start < |purchases| then start else |purchases|])
    {
      m.pool.NoteUsed(account, m.now);
      if failsAt == Some(start) {
        return;
      }
      var stop := if start + POLL_BATCH < |purchases| then start + POLL_BATCH else |purchases|;
      SlicesAreApart(purchases, start, stop);
      touched, done := PollBatch(m, account, purchases[start..stop], touched, missed, w, done);
      assert purchases[..stop] == purchases[..start] + purchases[start..stop];
      start := start + POLL_BATCH;
    }
    assert purchases[..|purchases|] == purchases;
  }

  lemma TouchMore(w: World, missed: set<ItemId>, done: set<ItemId>, touched: set<RequestId>, i: ItemId)
    requires TouchedCovers(w, missed, done, touched) && Pollable(w, i)
    ensures TouchedCovers(w, missed, done + {i}, touched + {w.rows[i].request})
    ensures !Touches(w.rows[i], Shown(w, missed, i), w.now) ==> TouchedCovers(w, missed, done + {i}, touched)
  {
    forall r | r in touched + {w.rows[i].request}
      ensures exists j :: j in done + {i} && j in w.rows && w.rows[j].request == r
    {
      if r in touched {
        var j :| j in done && j in w.rows && w.rows[j].request == r;
        assert j in done + {i};
      } else {
        assert i in done + {i};
      }
    }
    forall r | r in touched ensures exists j :: j in done + {i} && j in w.rows && w.rows[j].request == r {
      var j :| j in done && j in w.rows && w.rows[j].request == r;
      assert j in done + {i};
    }
  }

  method PollBatch(m: MarketWithdrawalProcessor, account: AccountId, batch: seq<ItemId>,
                   touchedBefore: set<RequestId>, missed: set<ItemId>, ghost w: World, ghost doneBefore: set<ItemId>)
      returns (touched: set<RequestId>, ghost done: set<ItemId>)
    requires m.Valid() && Leads(w, m.View()) && Polled(w, m.View(), missed, doneBefore) && TouchedCovers(w, missed, doneBefore, touchedBefore)
    requires Started(w, batch) && ToSet(batch) !! doneBefore
    requires forall i :: i in batch ==> w.rows[i].account == Some(account)
    modifies m`rows
    ensures m.Valid() && Leads(w, m.View()) && Polled(w, m.View(), missed, done) && TouchedCovers(w, missed, done, touched)
    ensures done == doneBefore + ToSet(batch)
  {
    hide Inv, Leads, TouchedCovers, Polled;
    touched, done := touchedBefore, doneBefore;
    var infos := LookUp(m, account, batch, missed, w, done);
    for k := 0 to |batch|
      invariant m.Valid() && Leads(w, m.View()) && Polled(w, m.View(), missed, done) && TouchedCovers(w, missed, done, touched)
      invariant done == doneBefore + ToSet(batch[..k])
    {
      var i := batch[k];
      assert batch[..k + 1] == batch[..k] + [i];
      var touch := PollOne(m, i, infos, missed, w, done);
      TouchMore(w, missed, done, touched, i);
      done := done + {i};
      if touch {
        touched := touched + {m.rows[i].request};
      }
    }
    assert batch[..|batch|] == batch;
  }

  /** The open purchases of one account, in the order they were read. */
  function Bucket(rows: map<ItemId, Purchase>, open: seq<ItemId>, account: AccountId): seq<ItemId> {
    if open == [] then []
    else
      var i := open[|open| - 1];
      var earlier := Bucket(rows, open[..|open| - 1], account);
      if i in rows && rows[i].account == Some(account) then earlier + [i] else earlier
  }

  lemma {:induction false} BucketHolds(rows: map<ItemId, Purchase>, open: seq<ItemId>, account: AccountId)
    requires Distinct(open)
    ensures forall i :: i in Bucket(rows, open, account) <==> i in open && i in rows && rows[i].account == Some(account)
    ensures Distinct(Bucket(rows, open, account))
  {
    if open != [] {
      var init := open[..|open| - 1];
      assert open == init + [open[|open| - 1]];
      BucketHolds(rows, init, account);
    }
  }

  lemma BucketGrows(rows: map<ItemId, Purchase>, open: seq<ItemId>, k: nat)
    requires k < |open|
    ensures forall a: AccountId :: Bucket(rows, open[..k + 1], a) ==
              if open[k] in rows && rows[open[k]].account == Some(a) then Bucket(rows, open[..k], a) + [open[k]]
              else Bucket(rows, open[..k], a)
  {
    assert open[..k + 1][..k] == open[..k];
  }

  /** One bucket for each account, without repetition, in the order of the rows. */
  ghost predicate Grouped(rows: map<ItemId, Purchase>, open: seq<ItemId>, accounts: seq<AccountId>,
                          byAccount: map<AccountId, seq<ItemId>>) {
    && (forall j, k :: 0 <= j < k < |accounts| ==> accounts[j] != accounts[k])
    && (forall a :: a in accounts <==> a in byAccount)
    && (forall a: AccountId :: Bucket(rows, open, a) == if a in byAccount then byAccount[a] else [])
  }

  /** The buckets with one more row. */
  function WithRow(accounts: seq<AccountId>, byAccount: map<AccountId, seq<ItemId>>, a: AccountId, i: ItemId)
    : (seq<AccountId>, map<AccountId, seq<ItemId>>)
  {
    if a in byAccount then (accounts, byAccount[a := byAccount[a] + [i]]) else (accounts + [a], byAccount[a := [i]])
  }

  lemma GroupedOneMore(rows: map<ItemId, Purchase>, open: seq<ItemId>, k: nat, accounts: seq<AccountId>,
                       byAccount: map<AccountId, seq<ItemId>>)
    requires k < |open| && open[k] in rows && Grouped(rows, open[..k], accounts, byAccount)
    ensures match rows[open[k]].account
            case None => Grouped(rows, open[..k + 1], accounts, byAccount)
            case Some(a) =>
              var (later, buckets) := WithRow(accounts, byAccount, a, open[k]); Grouped(rows, open[..k + 1], later, buckets)
  {
    BucketGrows(rows, open, k);
    hide Bucket;
  }

  lemma GroupedHolds(rows: map<ItemId, Purchase>, open: seq<ItemId>, accounts: seq<AccountId>, byAccount: map<AccountId, seq<ItemId>>)
    requires Distinct(open) && Grouped(rows, open, accounts, byAccount)
    ensures forall i :: i in open && i in rows && rows[i].account.Some? ==> rows[i].account.value in accounts
    ensures forall a :: a in byAccount ==> byAccount[a] == Bucket(rows, open, a)
  {
    forall i | i in open && i in rows && rows[i].account.Some? ensures rows[i].account.value in accounts {
      BucketHolds(rows, open, rows[i].account.value);
    }
  }

  /** Groups the open purchases by account; a row without one cannot be polled. */
  method GroupByAccount(m: MarketWithdrawalProcessor, open: seq<ItemId>)
      returns (accounts: seq<AccountId>, byAccount: map<AccountId, seq<ItemId>>)
    requires Distinct(open) && forall i :: i in open ==> i in m.rows
    ensures forall j, k :: 0 <= j < k < |accounts| ==> accounts[j] != accounts[k]
    ensures forall a :: a in accounts <==> a in byAccount
    ensures forall i :: i in open && m.rows[i].account.Some? ==> m.rows[i].account.value in accounts
    ensures forall a :: a in byAccount ==> byAccount[a] == Bucket(m.rows, open, a)
  {
    accounts, byAccount := [], map[];
    assert Grouped(m.rows, open[..0], accounts, byAccount);
    for k := 0 to |open|
      invariant Grouped(m.rows, open[..k], accounts, byAccount)
    {
      hide Grouped;
      var i := open[k];
      GroupedOneMore(m.rows, open, k, accounts, byAccount);
      if m.rows[i].account.Some? {
        var a := m.rows[i].account.value;
        if a in byAccount {
          byAccount := byAccount[a := byAccount[a] + [i]];
        } else {
          accounts := accounts + [a];
          byAccount := byAccount[a := [i]];
        }
      }
    }
    assert open[..|open|] == open;
    GroupedHolds(m.rows, open, accounts, byAccount);
  }

  // ----- settling what was touched

  /** Where a settle of its request leaves an item. */
  function ItemAfter(v: World, i: ItemId): Item
    requires i in v.items
  {
    if v.items[i].request.None? then v.items[i]
    else match Outcome(v, v.items[i].request.value, i)
         case RefundedLine => Released(v.items[i])
         case DeliveredLine => v.items[i].(status := Withdrawn)
         case OpenLine => v.items[i]
  }

  /** `x` is `v` with the requests in `settled` settled. */
  ghost predicate SettledAll(v: World, x: World, settled: set<RequestId>) {
    && x.rows == v.rows && x.charges == v.charges && x.tasks == v.tasks && x.now == v.now
    && x.requests.Keys == v.requests.Keys && x.items.Keys == v.items.Keys
    && (forall r :: r in v.requests ==> x.requests[r].lines == v.requests[r].lines)
    && (forall i :: i in v.items ==>
          x.items[i] == if v.items[i].request.Some? && v.items[i].request.value in settled
                        then ItemAfter(v, i) else v.items[i])
  }

  lemma SettleOneMore(v: World, x: World, settled: set<RequestId>, r: RequestId)
    requires LinesOk(v) && SettledAll(v, x, settled) && r in v.requests && r !in settled
    ensures SettledAll(v, MarketSettle.Settle(x, r), settled + {r})
  {
    var y := MarketSettle.Settle(x, r);
    forall i | i in v.items
      ensures y.items[i] == if v.items[i].request.Some? && v.items[i].request.value in settled + {r}
                            then ItemAfter(v, i) else v.items[i]
    {
      SettleMovesEachLine(x, r, i);
      assert v.items[i].request.Some? ==> Outcome(x, v.items[i].request.value, i) == Outcome(v, v.items[i].request.value, i);
    }
  }

  lemma LinesOkOf(w: World)
    requires Inv(w)
    ensures LinesOk(w)
  {
  }

  /** A request that owns a row can be settled. */
  lemma OwnerSettles(w: World, i: ItemId)
    requires Inv(w) && i in w.rows && w.rows[i].request !in w.tasks
    ensures CanSettleBegin(w, w.rows[i].request)
  {
  }

  method SettleTouched(m: MarketWithdrawalProcessor, touched: set<RequestId>)
    requires m.Valid()
    requires forall r :: r in touched ==> r !in m.tasks && exists i :: i in m.rows && m.rows[i].request == r
    modifies m`items, m`requests
    ensures m.Valid() && Leads(old(m.View()), m.View()) && SettledAll(old(m.View()), m.View(), touched)
  {
    hide Inv, Leads, LinesOk, MarketSettle.Settle;
    ghost var v := m.View();
    LeadsNowhere(v);
    LinesOkOf(v);
    var todo := touched;
    while todo != {}
      invariant m.Valid() && Leads(v, m.View()) && todo <= touched
      invariant SettledAll(v, m.View(), touched - todo)
      decreases |todo|
    {
      var r :| r in todo;
      ghost var x := m.View();
      ghost var i :| i in x.rows && x.rows[i].request == r;
      OwnerSettles(x, i);
      SettleSteps(x, r);
      SettleOneMore(v, x, touched - todo, r);
      m.Settle(r);
      LeadsChain(v, x, m.View());
      assert touched - (todo - {r}) == (touched - todo) + {r};
      todo := todo - {r};
    }
    assert touched - {} == touched;
  }

  // ----- one whole poll

  /** The rows an account that answers every request is asked about. */
  predicate Reached(p: Purchase, clients: set<AccountId>, failsAt: map<AccountId, nat>) {
    p.account.Some? && p.account.value in clients && p.account.value !in failsAt
  }

  ghost predicate AllReached(w: World, open: seq<ItemId>, accounts: seq<AccountId>, clients: set<AccountId>,
                             failsAt: map<AccountId, nat>, done: set<ItemId>) {
    forall i :: i in open && i in w.rows && Reached(w.rows[i], clients, failsAt) && w.rows[i].account.value in accounts ==>
      i in done
  }

  /** Every row of the accounts so far, and of no other account, may have been answered. */
  ghost predicate DoneWithin(w: World, accounts: seq<AccountId>, done: set<ItemId>) {
    forall i :: i in done ==> i in w.rows && w.rows[i].account.Some? && w.rows[i].account.value in accounts
  }

  lemma NothingPolled(w: World, missed: set<ItemId>)
    ensures Polled(w, w, missed, {}) && TouchedCovers(w, missed, {}, {})
  {
  }

  method PollAccounts(m: MarketWithdrawalProcessor, open: seq<ItemId>, failsAt: map<AccountId, nat>, missed: set<ItemId>)
      returns (touched: set<RequestId>, ghost done: set<ItemId>)
    requires m.Valid() && Started(m.View(), open)
    modifies m`rows, m.pool`lastUsedAt
    ensures m.Valid() && Leads(old(m.View()), m.View()) && Polled(old(m.View()), m.View(), missed, done)
    ensures TouchedCovers(old(m.View()), missed, done, touched) && done <= ToSet(open)
    ensures forall i :: i in open && Reached(old(m.rows)[i], m.pool.clients, failsAt) ==> i in done
  {
    hide Inv, Leads, Polled, TouchedCovers, Bucket;
    ghost var w := m.View();
    LeadsNowhere(w);
    NothingPolled(w, missed);
    var accounts, byAccount := GroupByAccount(m, open);
    touched, done := {}, {};
    for k := 0 to |accounts|
      invariant m.Valid() && Leads(w, m.View()) && Polled(w, m.View(), missed, done) && TouchedCovers(w, missed, done, touched)
      invariant DoneWithin(w, accounts[..k], done) && done <= ToSet(open)
      invariant AllReached(w, open, accounts[..k], m.pool.clients, failsAt, done)
    {
      var a := accounts[k];
      assert accounts[..k + 1] == accounts[..k] + [a];
      BucketHolds(w.rows, open, a);
      var present := m.pool.ClientFor(a);
      if present {
        touched, done := PollForAccount(m, a, byAccount[a], if a in failsAt then Some(failsAt[a]) else None,
                                        touched, missed, w, done);
      }
    }
    assert accounts[..|accounts|] == accounts;
  }

  /**
   * Where a poll leaves a row it has reached: written off if it was never
   * answered and nothing is found once the grace period is over, else left
   * alone or as the charge found says.
   */
  predicate RowDecided(p: Purchase, row: Purchase, reply: Reply, now: nat) {
    && row.id == p.id && row.request == p.request && row.maxPrice == p.maxPrice && row.account == p.account && row.attempts == p.attempts
    && match reply
       case Missing =>
         if p.status.Pending? && now - p.updatedAt > UNCONFIRMED_GRACE_MS
         then row == p.(status := Failed, updatedAt := now) else row == p
       case Info(c) => ShowsCharge(p, row, c) && row.updatedAt == now
  }

  /** Where a poll leaves the item of such a row. */
  predicate ItemDecided(row: Purchase, item: Item) {
    if row.status.Delivered? then item.status.Withdrawn? && item.request == Some(row.request)
    else if row.status.Failed? then item.status.Available? && item.request.None?
    else item.status.Locked? && item.request == Some(row.request)
  }

  lemma PolledRowIsDecided(p: Purchase, reply: Reply, now: nat)
    ensures RowDecided(p, PolledRow(p, reply, now), reply, now)
  {
  }

  lemma DecidedItem(w: World, v: World, x: World, missed: set<ItemId>, done: set<ItemId>, touched: set<RequestId>, i: ItemId)
    requires Inv(w) && Pollable(w, i) && i in done
    requires Polled(w, v, missed, done) && TouchedCovers(w, missed, done, touched) && SettledAll(v, x, touched)
    ensures x.rows[i] == PolledRow(w.rows[i], Shown(w, missed, i), w.now)
    ensures i in x.items && ItemDecided(x.rows[i], x.items[i])
  {
    hide Inv;
    OpenRowHeld(w, i);
  }

  /**
   * Polls everything still in flight. Whatever the market has shown of a row
   * that could be asked about is on the row and on its item afterwards.
   */
  method PollOpenPurchases(m: MarketWithdrawalProcessor, open: seq<ItemId>, failsAt: map<AccountId, nat>, missed: set<ItemId>)
    requires m.Valid() && Started(m.View(), open)
    modifies m`rows, m`items, m`requests, m.pool`lastUsedAt
    ensures m.Valid() && Leads(old(m.View()), m.View()) && m.tasks == old(m.tasks) && m.charges == old(m.charges)
    ensures forall i :: i in open && Reached(old(m.rows)[i], m.pool.clients, failsAt) ==>
              var p := old(m.rows)[i]; var reply := Shown(old(m.View()), missed, i);
              && i in m.rows && RowDecided(p, m.rows[i], reply, m.now)
              && i in m.items && ItemDecided(m.rows[i], m.items[i])
  {
    hide Inv, Leads;
    ghost var w := m.View();
    var touched;
    ghost var done;
    touched, done := PollAccounts(m, open, failsAt, missed);
    ghost var v := m.View();
    forall r | r in touched ensures r !in m.tasks && exists i :: i in m.rows && m.rows[i].request == r {
      var i :| i in done && i in w.rows && w.rows[i].request == r;
      assert Pollable(w, i);
      assert m.rows[i].request == r;
    }
    SettleTouched(m, touched);
    LeadsChain(w, v, m.View());
    forall i | i in open && Reached(w.rows[i], m.pool.clients, failsAt)
      ensures i in m.rows && RowDecided(w.rows[i], m.rows[i], Shown(w, missed, i), w.now)
      ensures i in m.items && ItemDecided(m.rows[i], m.items[i])
    {
      PolledRowIsDecided(w.rows[i], Shown(w, missed, i), w.now);
      DecidedItem(w, v, m.View(), missed, done, touched, i);
    }
  }
}
