/** What one run makes of a whole request, said without the worker's steps. */
module MarketOutcome {
  import opened Wrappers
  import opened Market
  import opened MarketWorld
  import opened MarketInvariant
  import opened MarketSettle
  import opened MarketLines
  import opened MarketPool

  // ----- all lines of a request

  /** The sum of the lines' ceilings. */
  function CapSum(w: World, r: RequestId, lines: seq<ItemId>, overpayBps: nat): nat {
    if lines == [] then 0
    else CapSum(w, r, lines[..|lines| - 1], overpayBps) + CapOf(w, r, lines[|lines| - 1], overpayBps)
  }

  /** The account that pays if these are the accounts when a line's turn comes. */
  ghost function PayerOf(accounts: Accounts, cap: nat): Option<AccountId> {
    Payer(accounts.rows, accounts.lastUsedAt, accounts.clients, cap)
  }

  /** The accounts once the lines before this one have been debited, at most their ceilings. */
  predicate AccountsAt(w: World, r: RequestId, lines: seq<ItemId>, j: nat, overpayBps: nat, accounts: Accounts, since: Accounts)
    requires j < |lines|
  {
    && since.clients == accounts.clients && DebitedBy(accounts.rows, since.rows, CapSum(w, r, lines[..j], overpayBps))
    && (j == 0 ==> since.lastUsedAt == UsesOf(w, r, lines[0], accounts.clients, accounts.lastUsedAt))
  }

  ghost predicate FilledFor(w: World, v: World, r: RequestId, lines: seq<ItemId>, j: nat, overpayBps: nat, script: LineScript,
                            accounts: Accounts)
    requires j < |lines|
  {
    exists since: Accounts :: AccountsAt(w, r, lines, j, overpayBps, accounts, since) &&
      LineIs(w, v, r, lines[j], overpayBps, script, accounts.clients, PayerOf(since, CapOf(w, r, lines[j], overpayBps)))
  }

  /** No record of the market is lost or moved; new ones come after the old ones. */
  ghost predicate Grows(w: World, v: World) {
    forall id :: History(w, id) <= History(v, id)
  }

  /** Neither the row of this item nor the records under its id have moved. */
  predicate Untouched(w: World, v: World, i: ItemId) {
    && (i in v.rows <==> i in w.rows)
    && (i in w.rows ==> v.rows[i] == w.rows[i] && History(v, w.rows[i].id) == History(w, w.rows[i].id))
  }

  ghost predicate FilledUpTo(w: World, v: World, r: RequestId, lines: seq<ItemId>, k: nat, overpayBps: nat, scripts: seq<LineScript>,
                             accounts: Accounts)
    requires k <= |lines| == |scripts|
  {
    && Grows(w, v)
    && (forall j :: 0 <= j < k ==> FilledFor(w, v, r, lines, j, overpayBps, scripts[j], accounts))
    && (forall i :: i !in lines[..k] ==> Untouched(w, v, i))
  }

  ghost predicate AnyPending(w: World, lines: seq<ItemId>) {
    exists i :: i in lines && i in w.rows && w.rows[i].status.Pending?
  }

  /** One more line: of its own row and records nothing had moved before. */
  lemma LineIsSinceStart(w: World, v: World, u: World, r: RequestId, i: ItemId, overpayBps: nat, script: LineScript,
                         clients: set<AccountId>, payer: Option<AccountId>)
    requires Untouched(w, v, i) && v.items == w.items && Grows(w, v)
    requires LineIs(v, u, r, i, overpayBps, script, clients, payer)
    ensures LineIs(w, u, r, i, overpayBps, script, clients, payer)
  {
    hide FreeLineIs, ShowsCharge;
  }

  /** The lines before it are left as they were. */
  lemma LineStays(w: World, v: World, u: World, r: RequestId, i: ItemId, overpayBps: nat, script: LineScript,
                  clients: set<AccountId>, payer: Option<AccountId>)
    requires LineIs(w, v, r, i, overpayBps, script, clients, payer) && Untouched(v, u, i)
    ensures LineIs(w, u, r, i, overpayBps, script, clients, payer)
  {
    hide FreeLineIs, ShowsCharge, FirstOf;
  }

  lemma LineTouchesOnlyItself(v: World, u: World, r: RequestId, i: ItemId, overpayBps: nat, script: LineScript,
                              clients: set<AccountId>, payer: Option<AccountId>)
    requires LineIs(v, u, r, i, overpayBps, script, clients, payer) && OnlyUnder(v.charges, u.charges, u.rows[i].id)
    requires u.rows == v.rows[i := u.rows[i]] && IdsDistinct(u)
    ensures forall o :: o != i ==> Untouched(v, u, o)
    ensures Grows(v, u)
  {
    hide ShowsCharge, FirstOf, RowEnds, CapOf;
  }

  lemma FilledOneMore(w: World, v: World, u: World, r: RequestId, lines: seq<ItemId>, k: nat, overpayBps: nat, scripts: seq<LineScript>,
                      accounts: Accounts, since: Accounts)
    requires Distinct(lines) && k < |lines| == |scripts| && v.items == w.items
    requires FilledUpTo(w, v, r, lines, k, overpayBps, scripts, accounts)
    requires AccountsAt(w, r, lines, k, overpayBps, accounts, since)
    requires LineIs(v, u, r, lines[k], overpayBps, scripts[k], accounts.clients, PayerOf(since, CapOf(v, r, lines[k], overpayBps)))
    requires OnlyUnder(v.charges, u.charges, u.rows[lines[k]].id) && u.rows == v.rows[lines[k] := u.rows[lines[k]]] && IdsDistinct(u)
    ensures CapOf(v, r, lines[k], overpayBps) == CapOf(w, r, lines[k], overpayBps)
    ensures FilledUpTo(w, u, r, lines, k + 1, overpayBps, scripts, accounts)
  {
    hide PayerOf, AccountsAt, LineIs, OnlyUnder, FirstOf, CapOf;
    var i := lines[k];
    CapReadsRow(w, v, r, i, overpayBps);
    var payer := PayerOf(since, CapOf(v, r, i, overpayBps));
    LineTouchesOnlyItself(v, u, r, i, overpayBps, scripts[k], accounts.clients, payer);
    LineIsSinceStart(w, v, u, r, i, overpayBps, scripts[k], accounts.clients, payer);
    assert FilledFor(w, u, r, lines, k, overpayBps, scripts[k], accounts);
    forall j | 0 <= j < k ensures FilledFor(w, u, r, lines, j, overpayBps, scripts[j], accounts) {
      assert FilledFor(w, v, r, lines, j, overpayBps, scripts[j], accounts);
      var was :| AccountsAt(w, r, lines, j, overpayBps, accounts, was) &&
        LineIs(w, v, r, lines[j], overpayBps, scripts[j], accounts.clients, PayerOf(was, CapOf(w, r, lines[j], overpayBps)));
      LineStays(w, v, u, r, lines[j], overpayBps, scripts[j], accounts.clients, PayerOf(was, CapOf(w, r, lines[j], overpayBps)));
    }
    forall o | o !in lines[..k + 1] ensures Untouched(w, u, o) {
      assert lines[..k + 1] == lines[..k] + [i];
      assert Untouched(w, v, o) && Untouched(v, u, o);
    }
  }

  lemma CapReadsRow(w: World, v: World, r: RequestId, i: ItemId, overpayBps: nat)
    requires Untouched(w, v, i) && v.items == w.items
    ensures CapOf(v, r, i, overpayBps) == CapOf(w, r, i, overpayBps)
  {
  }

  lemma DebitsOneMore(w: World, r: RequestId, lines: seq<ItemId>, k: nat, overpayBps: nat, rows: seq<AccountRow>,
                      debited: seq<AccountRow>, later: seq<AccountRow>)
    requires k < |lines| && DebitedBy(rows, debited, CapSum(w, r, lines[..k], overpayBps))
    requires DebitedOnce(debited, later, CapOf(w, r, lines[k], overpayBps))
    ensures DebitedBy(rows, later, CapSum(w, r, lines[..k + 1], overpayBps))
  {
    hide DebitedBy, DebitedOnce;
    assert lines[..k + 1][..k] == lines[..k];
    DebitsAddUp(rows, debited, later, CapSum(w, r, lines[..k], overpayBps), CapOf(w, r, lines[k], overpayBps));
  }

  lemma NothingFilled(w: World, r: RequestId, lines: seq<ItemId>, overpayBps: nat, scripts: seq<LineScript>,
                      accounts: Accounts)
    requires |scripts| == |lines|
    ensures FilledUpTo(w, w, r, lines, 0, overpayBps, scripts, accounts)
    ensures DebitedBy(accounts.rows, accounts.rows, CapSum(w, r, lines[..0], overpayBps))
    ensures !AnyPending(w, lines[..0])
  {
  }

  lemma PendingOneMore(v: World, u: World, lines: seq<ItemId>, k: nat)
    requires Distinct(lines) && k < |lines| && lines[k] in u.rows && u.rows == v.rows[lines[k] := u.rows[lines[k]]]
    ensures AnyPending(u, lines[..k + 1]) <==> AnyPending(v, lines[..k]) || u.rows[lines[k]].status.Pending?
  {
    assert lines[..k + 1] == lines[..k] + [lines[k]];
    forall i | i in lines[..k] && i in v.rows && v.rows[i].status.Pending? ensures AnyPending(u, lines[..k + 1]) {
      assert i in lines[..k + 1] && i in u.rows;
    }
  }

  // ----- the request once it is settled

  /** A held item follows its row: handed over, given back, or still held while the purchase is under way. */
  predicate ItemFollows(w: World, v: World, r: RequestId, i: ItemId) {
    && i in w.items && i in v.items && i in v.rows
    && if v.rows[i].status.Delivered? then v.items[i] == w.items[i].(status := Withdrawn)
       else if Dormant(v.rows[i]) then v.items[i] == w.items[i].(status := Available, request := None)
       else v.items[i] == w.items[i] && HeldFor(v, r, i)
  }

  ghost predicate StatusFollows(v: World, r: RequestId) {
    && r in v.requests
    && var lines, status := v.requests[r].lines, v.requests[r].status;
       && (forall i :: i in lines ==> i in v.rows)
       && (status.Sent? <==> exists i :: i in lines && OpenRow(v.rows[i]))
       && (status.Refused? <==> forall i :: i in lines ==> Dormant(v.rows[i]))
       && (status.Completed? <==> lines != [] && forall i :: i in lines ==> v.rows[i].status.Delivered?)
       && (status.Sent? || status.Refused? || status.Completed? || status.Partial?)
  }

  ghost predicate RestStays(w: World, v: World, r: RequestId, lines: seq<ItemId>) {
    && (forall i :: i in w.items && i !in lines ==> i in v.items && v.items[i] == w.items[i])
    && (forall q :: q in w.requests && q != r ==> q in v.requests && v.requests[q] == w.requests[q])
  }

  /** What a run makes of a request, from the world it starts in to the one it leaves. */
  ghost predicate Processed(w: World, v: World, r: RequestId, overpayBps: nat, scripts: seq<LineScript>,
                            accounts: Accounts)
  {
    && r in w.requests && r in v.requests && v.requests[r].lines == w.requests[r].lines && |scripts| == |w.requests[r].lines|
    && FilledUpTo(w, v, r, w.requests[r].lines, |scripts|, overpayBps, scripts, accounts)
    && (forall i :: i in w.requests[r].lines ==> ItemFollows(w, v, r, i))
    && StatusFollows(v, r) && RestStays(w, v, r, w.requests[r].lines)
  }

  lemma {:induction false} FilledLinesHaveRows(w: World, v: World, r: RequestId, lines: seq<ItemId>, overpayBps: nat,
                                               scripts: seq<LineScript>, accounts: Accounts)
    requires |scripts| == |lines| && FilledUpTo(w, v, r, lines, |lines|, overpayBps, scripts, accounts)
    ensures forall i :: i in lines ==> RowOfRun(v, r, i)
  {
    forall i | i in lines ensures RowOfRun(v, r, i) {
      var j :| 0 <= j < |lines| && lines[j] == i;
      assert FilledFor(w, v, r, lines, j, overpayBps, scripts[j], accounts);
    }
  }

  lemma LineReadsRows(w: World, v: World, w': World, v': World, r: RequestId, i: ItemId, overpayBps: nat, script: LineScript,
                      clients: set<AccountId>, payer: Option<AccountId>)
    requires LineIs(w, v, r, i, overpayBps, script, clients, payer)
    requires w'.now == w.now && w'.rows == w.rows && w'.items == w.items && w'.charges == w.charges
    requires v'.rows == v.rows && v'.charges == v.charges
    ensures LineIs(w', v', r, i, overpayBps, script, clients, payer)
  {
    hide FreeLineIs, ShowsCharge;
  }

  /** Filling reads rows, items and records alone. */
  lemma FilledReadsRows(w: World, v: World, w': World, v': World, r: RequestId, lines: seq<ItemId>, k: nat, overpayBps: nat,
                        scripts: seq<LineScript>, accounts: Accounts)
    requires k <= |lines| == |scripts| && FilledUpTo(w, v, r, lines, k, overpayBps, scripts, accounts)
    requires w'.now == w.now && w'.rows == w.rows && w'.items == w.items && w'.charges == w.charges
    requires v'.rows == v.rows && v'.charges == v.charges
    ensures FilledUpTo(w', v', r, lines, k, overpayBps, scripts, accounts)
  {
    hide PayerOf, DebitedBy, LineIs;
    forall j | 0 <= j < k ensures FilledFor(w', v', r, lines, j, overpayBps, scripts[j], accounts) {
      assert FilledFor(w, v, r, lines, j, overpayBps, scripts[j], accounts);
      var since :| AccountsAt(w, r, lines, j, overpayBps, accounts, since) &&
        LineIs(w, v, r, lines[j], overpayBps, scripts[j], accounts.clients, PayerOf(since, CapOf(w, r, lines[j], overpayBps)));
      CapSumReadsRows(w, w', r, lines[..j], overpayBps);
      assert AccountsAt(w', r, lines, j, overpayBps, accounts, since);
      assert CapOf(w', r, lines[j], overpayBps) == CapOf(w, r, lines[j], overpayBps);
      LineReadsRows(w, v, w', v', r, lines[j], overpayBps, scripts[j], accounts.clients,
                    PayerOf(since, CapOf(w, r, lines[j], overpayBps)));
    }
    forall i | i !in lines[..k] ensures Untouched(w', v', i) {
      assert Untouched(w, v, i);
    }
    assert forall id :: History(w', id) == History(w, id) && History(v', id) == History(v, id);
  }

  lemma {:induction false} CapSumReadsRows(w: World, v: World, r: RequestId, lines: seq<ItemId>, overpayBps: nat)
    requires v.rows == w.rows && v.items == w.items
    ensures CapSum(v, r, lines, overpayBps) == CapSum(w, r, lines, overpayBps)
  {
    if lines != [] {
      CapSumReadsRows(w, v, r, lines[..|lines| - 1], overpayBps);
    }
  }

  lemma SettledItemFollows(w: World, r: RequestId, i: ItemId)
    requires r in w.requests && LinesOk(w) && i in w.items
    requires i in w.requests[r].lines ==> RowOfRun(w, r, i) && HeldFor(w, r, i)
    ensures var v := Drop(Settle(w, r), r);
            i in v.items && if i in w.requests[r].lines then ItemFollows(w, v, r, i) else v.items[i] == w.items[i]
  {
    hide Settle;
    SettleMovesEachLine(w, r, i);
  }

  lemma SettledStatusFollows(w: World, r: RequestId)
    requires r in w.requests && forall i :: i in w.requests[r].lines ==> RowOfRun(w, r, i)
    ensures var v := Drop(Settle(w, r), r); v.requests[r].lines == w.requests[r].lines && StatusFollows(v, r)
  {
    hide PlanOf, MoveItems;
    StatusSaysWhatHappened(w, r);
    forall i | i in w.requests[r].lines
      ensures Outcome(w, r, i).OpenLine? <==> OpenRow(w.rows[i])
      ensures Outcome(w, r, i).RefundedLine? <==> Dormant(w.rows[i])
      ensures Outcome(w, r, i).DeliveredLine? <==> w.rows[i].status.Delivered?
    {
    }
    hide Outcome;
  }

  lemma SettledFollows(w: World, r: RequestId)
    requires r in w.requests && LinesOk(w)
    requires forall i :: i in w.requests[r].lines ==> RowOfRun(w, r, i) && HeldFor(w, r, i)
    ensures var v := Drop(Settle(w, r), r); var lines := w.requests[r].lines;
            && r in v.requests && v.requests[r].lines == lines
            && (forall i :: i in lines ==> ItemFollows(w, v, r, i))
            && StatusFollows(v, r) && RestStays(w, v, r, lines)
  {
    hide PlanOf, ItemFollows, StatusFollows, MoveItems;
    SettledStatusFollows(w, r);
    forall i | i in w.items
      ensures var v := Drop(Settle(w, r), r);
              i in v.items && if i in w.requests[r].lines then ItemFollows(w, v, r, i) else v.items[i] == w.items[i]
    {
      SettledItemFollows(w, r, i);
    }
  }

  /** The loop over the lines and the settle after it, together. */
  lemma SettledIsProcessed(w: World, v: World, r: RequestId, overpayBps: nat, scripts: seq<LineScript>,
                           accounts: Accounts)
    requires Inv(v) && r in w.requests && w.requests[r].status.Processing? && |scripts| == |w.requests[r].lines|
    requires v.items == w.items && v.requests == w.requests
    requires FilledUpTo(w, v, r, w.requests[r].lines, |scripts|, overpayBps, scripts, accounts)
    ensures Processed(w, Drop(Settle(v, r), r), r, overpayBps, scripts, accounts)
    ensures Drop(Settle(v, r), r).rows == v.rows && Drop(Settle(v, r), r).tasks == Drop(v, r).tasks
  {
    hide FilledUpTo, StatusFollows, RowsOk, ItemsOk, TasksOk, LinesOk, MoveItems, PlanOf;
    FilledLinesHaveRows(w, v, r, w.requests[r].lines, overpayBps, scripts, accounts);
    FilledReadsRows(w, v, w, Drop(Settle(v, r), r), r, w.requests[r].lines, |scripts|, overpayBps, scripts, accounts);
    SettledFollows(v, r);
  }

  /** A run's first statement changes nothing a line depends on. */
  lemma ProcessedFromStart(w: World, u: World, v: World, r: RequestId, overpayBps: nat, scripts: seq<LineScript>,
                           accounts: Accounts)
    requires Processed(u, v, r, overpayBps, scripts, accounts) && r in w.requests
    requires u.now == w.now && u.rows == w.rows && u.items == w.items && u.charges == w.charges
    requires u.requests == w.requests[r := u.requests[r]] && u.requests[r].lines == w.requests[r].lines
    ensures Processed(w, v, r, overpayBps, scripts, accounts)
  {
    hide FilledUpTo, StatusFollows;
    FilledReadsRows(u, v, w, v, r, w.requests[r].lines, |scripts|, overpayBps, scripts, accounts);
  }

  // ----- a request given up before its first line

  /** Without a purchase ever attempted the items go back; else each line ends by the row it has. */
  ghost predicate GivenUp(w: World, v: World, r: RequestId) {
    && r in w.requests && v.rows == w.rows && v.charges == w.charges
    && if AnySpent(w, r)
       then v.items == Settle(w, r).items && v.requests == Settle(w, r).requests
       else
         && v.requests == w.requests[r := w.requests[r].(status := Refused)]
         && v.items.Keys == w.items.Keys
         && (forall i :: i in w.items ==>
               v.items[i] == if w.items[i].request == Some(r) then w.items[i].(status := Available, request := None) else w.items[i])
  }

  lemma SettledIsGivenUp(w: World, v: World, r: RequestId)
    requires r in w.requests && AnySpent(w, r) && v == w.(tasks := v.tasks)
    ensures GivenUp(w, Drop(Settle(v, r), r), r)
    ensures Drop(Settle(v, r), r).tasks == Drop(v, r).tasks
  {
    hide PlanOf, AnySpent, MoveItems;
    PlanReadsRows(w, v, r, w.requests[r].lines);
  }

  lemma RefusedIsGivenUp(w: World, r: RequestId)
    requires r in w.requests && !AnySpent(w, r)
    ensures GivenUp(w, DoAbandon(w, r), r)
  {
    hide AnySpent;
  }

  lemma GivenUpFromStart(w: World, u: World, v: World, r: RequestId)
    requires GivenUp(u, v, r) && r in w.requests && u == w.(requests := u.requests, tasks := u.tasks)
    requires u.requests == w.requests[r := w.requests[r].(status := u.requests[r].status)]
    ensures GivenUp(w, v, r)
  {
    hide PlanOf, MoveItems, PlanStatus;
    PlanReadsRows(w, u, r, w.requests[r].lines);
    assert AnySpent(u, r) == AnySpent(w, r);
    hide AnySpent;
  }

  // ----- when a line is bought

  /** Nothing was attempted for the line, or the account of the first attempt shows nothing. */
  predicate FreeToBuy(w: World, r: RequestId, i: ItemId, clients: set<AccountId>, script: LineScript) {
    (RowOfRun(w, r, i) ==> w.rows[i].status.Pending?) && FirstOf(w, r, i, clients, script.lookupLost).MayBuy?
  }

  /** The accounts pay for this line: the first one's pick can be asked, or one account covers all ceilings so far. */
  ghost predicate CanPay(w: World, r: RequestId, lines: seq<ItemId>, j: nat, overpayBps: nat, accounts: Accounts)
    requires j < |lines|
  {
    || (j == 0 && Payable(accounts.rows, UsesOf(w, r, lines[0], accounts.clients, accounts.lastUsedAt), accounts.clients,
                          CapOf(w, r, lines[0], overpayBps)))
    || Covers(accounts.rows, accounts.clients, CapSum(w, r, lines[..j + 1], overpayBps))
  }

  lemma PayerComes(w: World, r: RequestId, lines: seq<ItemId>, j: nat, overpayBps: nat, accounts: Accounts, since: Accounts)
    requires j < |lines| && CanPay(w, r, lines, j, overpayBps, accounts) && AccountsAt(w, r, lines, j, overpayBps, accounts, since)
    ensures PayerOf(since, CapOf(w, r, lines[j], overpayBps)).Some?
  {
    hide Payable, UsesOf, CapOf;
    assert lines[..j + 1][..j] == lines[..j];
    if Covers(accounts.rows, accounts.clients, CapSum(w, r, lines[..j + 1], overpayBps)) {
      CoveredIsPayable(accounts.rows, since.rows, since.lastUsedAt, since.clients, CapSum(w, r, lines[..j], overpayBps),
                       CapOf(w, r, lines[j], overpayBps));
    } else {
      assert since.rows == accounts.rows;
    }
  }

  /** A line that is free and can be paid for is bought if an offer within its ceiling is accepted, and only then. */
  lemma PaidLineEnds(w: World, v: World, r: RequestId, overpayBps: nat, scripts: seq<LineScript>, accounts: Accounts, j: nat)
    requires Processed(w, v, r, overpayBps, scripts, accounts) && j < |scripts|
    requires FreeToBuy(w, r, w.requests[r].lines[j], accounts.clients, scripts[j])
    requires CanPay(w, r, w.requests[r].lines, j, overpayBps, accounts)
    ensures var i, script := w.requests[r].lines[j], scripts[j];
            var offered := IsOffered(script.search, CapOf(w, r, i, overpayBps));
            && i in v.rows && v.rows[i].request == r && i in v.items
            && (v.rows[i].status.Bought? <==> offered && script.buy.Accepts?)
            && (v.rows[i].status.Failed? <==> !script.search.SearchTimesOut? && (offered ==> script.buy.Denies?))
            && (v.rows[i].status.Bought? ==>
                  && v.rows[i].marketId == Some(script.buy.marketId)
                  && v.items[i].status.Locked? && v.items[i].request == Some(r) && v.requests[r].status.Sent?)
            && (v.rows[i].status.Failed? ==> v.items[i].status.Available? && v.items[i].request.None?)
    ensures var i, script := w.requests[r].lines[j], scripts[j];
            var row, cap := v.rows[i], CapOf(w, r, i, overpayBps);
            if IsOffered(script.search, cap) && (script.buy.Accepts? || script.buy.ChargesSilently?)
            then
              && row.account.Some? && row.account.value in accounts.clients
              && History(v, row.id) == History(w, row.id)
                                       + [Charge(row.account.value, script.buy.marketId, AtMost(script.buy.price, cap), 1)]
            else History(v, row.id) == History(w, row.id)
  {
    hide Payable, Covers, CanPay, DebitedBy, CapOf, CapSum, UsesOf, FirstOf, Untouched, RestStays;
    var lines := w.requests[r].lines;
    assert FilledFor(w, v, r, lines, j, overpayBps, scripts[j], accounts);
    var since :| AccountsAt(w, r, lines, j, overpayBps, accounts, since) &&
      LineIs(w, v, r, lines[j], overpayBps, scripts[j], accounts.clients, PayerOf(since, CapOf(w, r, lines[j], overpayBps)));
    PayerComes(w, r, lines, j, overpayBps, accounts, since);
    assert lines[j] in lines && ItemFollows(w, v, r, lines[j]);
  }
}
