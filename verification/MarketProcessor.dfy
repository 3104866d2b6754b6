/**
 * The withdrawal worker, statement by statement.
 *
 * Each method leaves the rows exactly as the protocol's own steps would, so
 * whatever holds after every run of the protocol holds after these methods.
 */
module MarketProcessor {
  import opened Wrappers
  import opened Market
  import opened MarketWorld
  import opened MarketInvariant
  import opened MarketSteps
  import opened MarketSafety
  import opened MarketSettle
  import opened MarketLines
  import opened MarketOutcome
  import MarketPool

  /** Some sequence of protocol steps leads from one world to the other. */
  ghost predicate Leads(w: World, v: World) {
    exists actions :: Feasible(w, actions) && After(w, actions) == v
  }

  lemma {:induction false} StepAtEnd(w: World, actions: seq<Action>, a: Action)
    requires Feasible(w, actions) && Enabled(After(w, actions), a)
    ensures Feasible(w, actions + [a]) && After(w, actions + [a]) == Step(After(w, actions), a)
    decreases |actions|
  {
    if actions == [] {
      assert [a][1..] == [];
      assert Feasible(Step(w, a), []);
    } else {
      assert (actions + [a])[1..] == actions[1..] + [a];
      StepAtEnd(Step(w, actions[0]), actions[1..], a);
    }
  }

  lemma LeadsOn(w: World, v: World, a: Action)
    requires Leads(w, v) && Enabled(v, a)
    ensures Leads(w, Step(v, a))
  {
    var actions :| Feasible(w, actions) && After(w, actions) == v;
    StepAtEnd(w, actions, a);
  }

  lemma {:induction false} Append(w: World, first: seq<Action>, second: seq<Action>)
    requires Feasible(w, first) && Feasible(After(w, first), second)
    ensures Feasible(w, first + second) && After(w, first + second) == After(After(w, first), second)
    decreases |first|
  {
    if first == [] {
      assert first + second == second;
    } else {
      assert (first + second)[1..] == first[1..] + second;
      Append(Step(w, first[0]), first[1..], second);
    }
  }

  lemma LeadsChain(w: World, v: World, u: World)
    requires Leads(w, v) && Leads(v, u)
    ensures Leads(w, u)
  {
    var first :| Feasible(w, first) && After(w, first) == v;
    var second :| Feasible(v, second) && After(v, second) == u;
    Append(w, first, second);
  }

  lemma LeadsNowhere(w: World)
    ensures Leads(w, w)
  {
    assert Feasible(w, []) && After(w, []) == w;
  }

  /** One more step of a run that started in a good world. */
  lemma StepOn(start: World, w: World, a: Action)
    requires Inv(w) && Leads(start, w) && Enabled(w, a)
    ensures Inv(Step(w, a)) && Leads(start, Step(w, a))
  {
    StepKeepsInv(w, a);
    LeadsOn(start, w, a);
  }

  /** The row a run has in hand is the row of its line. */
  lemma RowInHand(w: World, r: RequestId)
    requires Inv(w) && OnLine(w, r) && !PhaseOf(w, r).AtLine?
    ensures CurrentLine(w, r) in w.rows
    ensures var row := w.rows[CurrentLine(w, r)]; var phase := PhaseOf(w, r);
            && row.request == r
            && (phase.Sending? ==>
                  && row.id == phase.p.id && row.maxPrice == phase.p.maxPrice && row.account == Some(phase.account)
                  && row.status.Pending? && row.attempts > 0)
            && (phase.Ensured? || phase.Clear? || phase.Searching? || phase.Recording? ==> row.status.Pending?)
            && (phase.Ensured? || phase.Adopting? || phase.Clear? || phase.Searching? || phase.Recording? ==> row == phase.p)
  {
    RunHolds(w, r);
  }

  lemma RowIdsAreDistinct(w: World)
    requires Inv(w)
    ensures IdsDistinct(w)
  {
  }

  lemma LinesAreDistinct(w: World, r: RequestId)
    requires Inv(w) && r in w.requests
    ensures Distinct(w.requests[r].lines)
  {
  }

  class MarketWithdrawalProcessor {
    const pool: MarketPool.Pool
    var now: nat
    var items: map<ItemId, Item>
    var requests: map<RequestId, Request>
    var rows: map<ItemId, Purchase>
    /** The market's own records. */
    var charges: map<CustomId, seq<Charge>>
    /** The row ids the database hands out next. */
    var nextId: CustomId
    /** Where every worker stands; lost in a crash. */
    ghost var tasks: map<RequestId, Task>

    ghost function View(): World
      reads this
    {
      World(now, items, requests, rows, charges, tasks)
    }

    ghost predicate IdsIssued()
      reads this
    {
      (forall i :: i in rows ==> rows[i].id < nextId) && (forall id :: id in charges ==> id < nextId)
    }

    ghost predicate Valid()
      reads this, pool
    {
      Inv(View()) && IdsIssued() && pool.Valid()
    }

    constructor (pool: MarketPool.Pool)
      requires pool.Valid()
      ensures Valid() && View() == EMPTY_WORLD
    {
      this.pool := pool;
      now, items, requests, rows, charges, nextId, tasks := 0, map[], map[], map[], map[], 0, map[];
    }

    /**
     * The one purchase row of an item, for this request: its own row comes back
     * untouched, a leftover of an earlier request is reset, else one is made.
     */
    method EnsurePurchase(r: RequestId, i: ItemId, overpayBps: nat) returns (p: Purchase)
      requires Valid() && OnLine(View(), r) && PhaseOf(View(), r).AtLine?
      requires i == CurrentLine(View(), r) && overpayBps == tasks[r].overpayBps
      modifies this`rows, this`tasks, this`nextId
      ensures Valid() && old(CanEnsure(View(), r, nextId))
      ensures View() == old(DoEnsure(View(), r, nextId))
      ensures p == old(EnsuredRow(View(), r, i, nextId, overpayBps))
    {
      hide Inv;
      ghost var w := View();
      RunHolds(w, r);
      EnsureNeverThrows(w, r);
      EnsureStep(w, r, nextId);
      EnsureShape(w, r, nextId, i, EnsuredRow(w, r, i, nextId, overpayBps));
      if i in rows && rows[i].request == r {
        p := rows[i];
        assert rows[i := p] == rows;
      } else {
        var reference := Max(items[i].catalogue, items[i].acquired);
        var maxPrice := MaxPayable(reference, overpayBps);
        var quote := Quote(items[i].catalogue, items[i].acquired, overpayBps);
        if i in rows {
          p := rows[i].(request := r, status := Pending, attempts := 0, maxPrice := maxPrice, stage := None,
                        marketId := None, paidPrice := None, updatedAt := now, quote := quote);
        } else {
          p := Purchase(nextId, r, None, Pending, 0, maxPrice, None, None, None, now, quote);
          nextId := nextId + 1;
        }
        rows := rows[i := p];
      }
      tasks := tasks[r := AfterEnsure(tasks[r], p)];
    }

    /** Asks one account about a custom id. */
    method AskMarket(account: AccountId, id: CustomId, lost: bool) returns (shown: LookupAnswer)
      requires pool.Valid()
      ensures shown.KeyGone? <==> account !in pool.clients
      ensures shown.LookupLost? <==> account in pool.clients && lost
      ensures shown.Answered? ==>
                shown.reply == match Newest(History(View(), id), account) case None => Missing case Some(c) => Info(c)
    {
      var present := pool.ClientFor(account);
      if !present {
        return KeyGone;
      }
      if lost {
        return LookupLost;
      }
      var history := if id in charges then charges[id] else [];
      var newest := Newest(history, account);
      shown := match newest case None => Answered(Missing) case Some(c) => Answered(Info(c));
    }

    /**
     * Takes an answer about a charge over onto row `i`; `known` is the row as it
     * was read. A final stage decides the line: delivered when the
     * item was given, refundable when it timed out, open until then.
     */
    method ApplyBuyInfo(i: ItemId, known: Purchase, info: Charge)
      requires i in rows
      modifies this`rows
      ensures rows == old(rows)[i := ApplyInfo(old(rows)[i].(marketId := known.marketId), info).(updatedAt := now)]
      ensures Outcome(View(), rows[i].request, i) == match ClassifyStage(info.stage)
                                                     case InFlight => OpenLine
                                                     case Given => DeliveredLine
                                                     case TimedOut => RefundedLine
      ensures CountsAsBought(View(), rows[i].request, i) <==> !IsCancelled(info)
      ensures ShowsCharge(old(rows)[i].(marketId := known.marketId), rows[i], info)
    {
      var outcome := ClassifyStage(info.stage);
      var status := if outcome.InFlight? then Bought else if outcome.Given? then Delivered else Failed;
      rows := rows[i := rows[i].(
        status := status,
        stage := Some(info.stage),
        marketId := if known.marketId.Some? then known.marketId else Some(info.marketId),
        paidPrice := Some(info.price),
        updatedAt := now)];
    }

    /** Writes a purchase off: its line becomes refundable, and a later request may take the row over. */
    method FailPurchase(i: ItemId)
      requires i in rows
      modifies this`rows
      ensures rows == old(rows)[i := old(rows)[i].(status := Failed, updatedAt := now)]
      ensures Outcome(View(), rows[i].request, i).RefundedLine? && forall r :: !EnsureThrows(View(), r, i)
    {
      rows := rows[i := rows[i].(status := Failed, updatedAt := now)];
    }

    /** Everything a run of `r` may have changed while working on the line of item `i`. */
    twostate predicate OnlyLine(r: RequestId, i: ItemId)
      reads this
    {
      && items == old(items) && requests == old(requests)
      && i in rows && rows == old(rows)[i := rows[i]] && rows[i].request == r
      && r in old(tasks) && r in tasks && tasks == old(tasks)[r := tasks[r]]
    }

    /** Asks the account of the first attempt what became of it. */
    method LookFirst(r: RequestId, p: Purchase, lost: bool) returns (shown: LookupAnswer)
      requires Valid() && OnLine(View(), r) && PhaseOf(View(), r) == Ensured(p) && AsksFirst(p)
      modifies this`tasks, pool`lastUsedAt
      ensures Valid() && Leads(old(View()), View())
      ensures CanLookup(old(View()), r, shown) && View() == DoLookup(old(View()), r, shown)
      ensures AnsweredAs(shown, AskedFirst(View(), p, pool.clients, lost))
      ensures pool.lastUsedAt == UsesAfterAsking(p, pool.clients, old(pool.lastUsedAt), now)
    {
      hide Inv, Leads, DoLookup;
      ghost var w := View();
      LeadsNowhere(w);
      shown := AskMarket(p.account.value, p.id, lost);
      if !shown.KeyGone? {
        pool.NoteUsed(p.account.value, now);
      }
      StepOn(w, w, Running(r, Lookup(shown)));
      tasks := DoLookup(w, r, shown).tasks;
      assert View() == DoLookup(w, r, shown) by { LookupMovesOn(w, r, shown); }
    }

    /** The charge of the first attempt, found by the lookup, goes onto the row, and the run moves on. */
    method Adopt(r: RequestId, i: ItemId, p: Purchase, c: Charge)
      requires Valid() && OnLine(View(), r) && PhaseOf(View(), r) == Adopting(p, c) && i == CurrentLine(View(), r)
      modifies this`rows, this`tasks
      ensures Valid() && Leads(old(View()), View()) && OnlyLine(r, i)
      ensures tasks[r] == old(tasks[r]).(phase := AtLine, line := old(tasks[r]).line + 1)
      ensures ShowsCharge(p, rows[i], c) && rows[i].id == p.id && rows[i].maxPrice == p.maxPrice
    {
      hide Inv, Leads, Outcome, CountsAsBought, MarketPool.Pool.Valid;
      ghost var w := View();
      RowInHand(w, r);
      LeadsNowhere(w);
      StepOn(w, w, Running(r, RunMove.Write));
      ApplyBuyInfo(i, p, c);
      tasks := DoWrite(w, r).tasks;
      assert View() == DoWrite(w, r);
    }

    /** Either the first attempt's charge is found and adopted, or the line is left, or nothing is known to stand. */
    method AskFirst(r: RequestId, i: ItemId, p: Purchase, lost: bool) returns (outcome: Option<BuyOutcome>)
      requires Valid() && OnLine(View(), r) && PhaseOf(View(), r) == Ensured(p) && i == CurrentLine(View(), r)
      requires AsksFirst(p)
      modifies this`rows, this`tasks, pool`lastUsedAt
      ensures Valid() && Leads(old(View()), View()) && OnlyLine(r, i)
      ensures outcome.None? ==> tasks[r] == old(tasks[r]).(phase := Clear(p))
      ensures outcome.Some? ==> tasks[r] == old(tasks[r]).(phase := AtLine, line := old(tasks[r]).line + 1)
      ensures var first := AskedFirst(old(View()), p, pool.clients, lost);
              && outcome == (match first case MayBuy => None case Found(_) => Some(Done) case NoAnswer => Some(Unknown))
              && (if first.Found? then ShowsCharge(p, rows[i], first.charge) else rows == old(rows))
      ensures rows[i].id == p.id && rows[i].maxPrice == p.maxPrice
      ensures pool.lastUsedAt == UsesAfterAsking(p, pool.clients, old(pool.lastUsedAt), now)
    {
      hide Inv, Leads, Newest, UsesAfterAsking, ShowsCharge, MarketPool.Pool.Valid, IdsIssued;
      ghost var w := View();
      RowInHand(w, r);
      var shown := LookFirst(r, p, lost);
      if !shown.Answered? {
        return Some(Unknown);
      }
      match shown.reply
      case Missing => return None;
      case Info(c) =>
        ghost var w1 := View();
        Adopt(r, i, p, c);
        LeadsChain(w, w1, View());
        return Some(Done);
    }

    /** Reserves the account that will pay. */
    method Reserve(r: RequestId, i: ItemId, p: Purchase) returns (account: Option<AccountId>, cap: nat)
      requires Valid() && CanClaim(View(), r) && PhaseOf(View(), r).p == p && i == CurrentLine(View(), r)
      modifies this`tasks, pool
      ensures Valid() && Leads(old(View()), View()) && OnlyLine(r, i)
      ensures tasks[r] == old(tasks[r]).(phase := if account.None? then Failing(p) else Searching(p, account.value))
      ensures account.Some? ==> cap == p.maxPrice
      ensures account == old(MarketPool.Payer(pool.rows, pool.lastUsedAt, pool.clients, p.maxPrice))
      ensures pool.clients == old(pool.clients) && MarketPool.DebitedOnce(old(pool.rows), pool.rows, p.maxPrice)
    {
      hide Inv, Leads, IsPick, Eligible, MarketPool.CandidatesOf, MarketPool.Debited, MarketPool.Payer, MarketPool.DebitedOnce,
           MarketPool.Pool.Valid;
      ghost var w := View();
      RowInHand(w, r);
      LeadsNowhere(w);
      var claimed, currency := pool.Claim(p.maxPrice, now);
      StepOn(w, w, Running(r, Claim(claimed)));
      tasks := DoClaim(w, r, claimed).tasks;
      assert View() == DoClaim(w, r, claimed);
      account, cap := claimed, 0;
      if claimed.Some? {
        cap := ToMarketPrice(p.maxPrice, currency.value);
        UsableAccountsPayInSiteUnits(p.maxPrice, currency.value);
      }
    }

    /** Looks for a live offer within the ceiling. */
    method FindOffer(r: RequestId, i: ItemId, p: Purchase, account: AccountId, cap: nat, search: SearchScript)
        returns (outcome: BuyOutcome)
      requires Valid() && OnLine(View(), r) && PhaseOf(View(), r) == Searching(p, account) && i == CurrentLine(View(), r)
      modifies this`tasks
      ensures Valid() && Leads(old(View()), View()) && OnlyLine(r, i)
      ensures outcome.Done? ==> tasks[r] == old(tasks[r]).(phase := Recording(p, account))
      ensures outcome.Unknown? ==> tasks[r] == old(tasks[r]).(phase := AtLine, line := old(tasks[r]).line + 1)
      ensures outcome.Denied? ==> tasks[r] == old(tasks[r]).(phase := Failing(p))
      ensures outcome == if search.SearchTimesOut? then Unknown else if IsOffered(search, cap) then Done else Denied
    {
      hide Inv, Leads, MarketPool.Pool.Valid;
      ghost var w := View();
      RowInHand(w, r);
      LeadsNowhere(w);
      var found: SearchAnswer;
      match search {
        case SearchTimesOut => found := SearchLost;
        case SearchDenied => found := SearchRefused;
        case Offers(offers) =>
          var offer := PickOffer(offers, cap);
          found := if offer.None? then NoOffer else OfferWithinCap;
      }
      StepOn(w, w, Running(r, Search(found)));
      tasks := DoSearch(w, r, found).tasks;
      assert View() == DoSearch(w, r, found);
      outcome := if found.SearchLost? then Unknown else if found.OfferWithinCap? then Done else Denied;
    }

    /** One step moves the row to this account with one more attempt; only then may `SendBuy` run. */
    method RecordAttempt(r: RequestId, i: ItemId, p: Purchase, account: AccountId)
      requires Valid() && OnLine(View(), r) && i == CurrentLine(View(), r) && PhaseOf(View(), r) == Recording(p, account)
      modifies this`rows, this`tasks, pool`lastUsedAt
      ensures Valid() && Leads(old(View()), View()) && OnlyLine(r, i)
      ensures tasks[r] == old(tasks[r]).(phase := Sending(p, account))
      ensures rows[i] == old(rows[i]).(attempts := old(rows[i].attempts) + 1, account := Some(account), updatedAt := now)
    {
      hide Inv, Leads, MarketPool.Pool.Valid;
      ghost var w := View();
      RowInHand(w, r);
      LeadsNowhere(w);
      StepOn(w, w, Running(r, Record));
      rows := rows[i := rows[i].(account := Some(account), attempts := rows[i].attempts + 1, updatedAt := now)];
      tasks := DoRecord(w, r).tasks;
      assert View() == DoRecord(w, r);
      pool.NoteUsed(account, now);
    }

    /** `buy-for` goes out with the ceiling as its price; what comes back decides the phase. */
    method SendBuy(r: RequestId, i: ItemId, p: Purchase, account: AccountId, cap: nat, script: BuyScript)
        returns (marketId: Option<nat>, outcome: BuyOutcome)
      requires Valid() && OnLine(View(), r) && i == CurrentLine(View(), r)
      requires PhaseOf(View(), r) == Sending(p, account) && cap == p.maxPrice
      modifies this`tasks, this`charges
      ensures Valid() && Leads(old(View()), View()) && OnlyLine(r, i)
      ensures outcome.Done? ==> marketId.Some? && tasks[r] == old(tasks[r]).(phase := Confirming(p, marketId.value))
      ensures outcome.Denied? ==> tasks[r] == old(tasks[r]).(phase := Failing(p))
      ensures outcome.Unknown? ==> tasks[r] == old(tasks[r]).(phase := AtLine, line := old(tasks[r]).line + 1)
      ensures (outcome.Done? <==> script.Accepts?) && (outcome.Denied? <==> script.Denies?)
      ensures SentAs(old(charges), charges, p.id, account, p.maxPrice, script)
      ensures outcome.Done? ==> marketId.value == script.marketId
    {
      hide Inv, Leads, ChargedOnce, MarketPool.Pool.Valid;
      ghost var w := View();
      RowInHand(w, r);
      LeadsNowhere(w);
      var answer := AnswerOf(script, cap);
      if answer.Accepted? || answer.ChargedReplyLost? {
        var c := Charge(account, answer.marketId, answer.price, 1);
        charges := charges[p.id := (if p.id in charges then charges[p.id] else []) + [c]];
        OneMoreCharge(w.charges, p.id, account, answer.marketId, answer.price);
      }
      SendLeads(w, r, answer);
      tasks := DoBuy(w, r, answer).tasks;
      assert View() == DoBuy(w, r, answer);
      marketId := if answer.Accepted? then Some(answer.marketId) else None;
      outcome := if answer.Accepted? then Done else if answer.RefusedByMarket? then Denied else Unknown;
    }

    /** The reply arrived: the purchase is on record as bought. */
    method ConfirmBought(r: RequestId, i: ItemId, p: Purchase, marketId: nat)
      requires Valid() && OnLine(View(), r) && i == CurrentLine(View(), r)
      requires PhaseOf(View(), r) == Confirming(p, marketId)
      modifies this`rows, this`tasks
      ensures Valid() && Leads(old(View()), View()) && OnlyLine(r, i)
      ensures tasks[r] == old(tasks[r]).(phase := AtLine, line := old(tasks[r]).line + 1)
      ensures rows[i] == old(rows[i]).(status := Bought, marketId := Some(marketId), updatedAt := now)
    {
      hide Inv, Leads, MarketPool.Pool.Valid;
      ghost var w := View();
      RowInHand(w, r);
      LeadsNowhere(w);
      StepOn(w, w, Running(r, RunMove.Write));
      rows := rows[i := rows[i].(status := Bought, marketId := Some(marketId), updatedAt := now)];
      tasks := DoWrite(w, r).tasks;
      assert View() == DoWrite(w, r);
    }

    /** A definite refusal: nothing was charged, so the row says so. */
    method RefuseLine(r: RequestId, i: ItemId, p: Purchase)
      requires Valid() && OnLine(View(), r) && i == CurrentLine(View(), r) && PhaseOf(View(), r) == Failing(p)
      modifies this`rows, this`tasks
      ensures Valid() && Leads(old(View()), View()) && OnlyLine(r, i)
      ensures tasks[r] == old(tasks[r]).(phase := AtLine, line := old(tasks[r]).line + 1)
      ensures rows[i] == old(rows[i]).(status := Failed, updatedAt := now)
    {
      hide Inv, Leads, MarketPool.Pool.Valid;
      ghost var w := View();
      RowInHand(w, r);
      LeadsNowhere(w);
      StepOn(w, w, Running(r, RunMove.Write));
      FailPurchase(i);
      tasks := DoWrite(w, r).tasks;
      assert View() == DoWrite(w, r);
    }

    /** Sends the purchase, and records a reply that arrives. */
    method SendAndConfirm(r: RequestId, i: ItemId, p: Purchase, account: AccountId, cap: nat, script: BuyScript)
        returns (outcome: BuyOutcome)
      requires Valid() && OnLine(View(), r) && i == CurrentLine(View(), r)
      requires PhaseOf(View(), r) == Sending(p, account) && cap == p.maxPrice
      modifies this`rows, this`tasks, this`charges
      ensures Valid() && Leads(old(View()), View()) && OnlyLine(r, i)
      ensures outcome.Denied? ==> tasks[r] == old(tasks[r]).(phase := Failing(p))
      ensures !outcome.Denied? ==> tasks[r] == old(tasks[r]).(phase := AtLine, line := old(tasks[r]).line + 1)
      ensures outcome == (match script case Accepts(_, _) => Done case Denies => Denied case _ => Unknown)
      ensures SentAs(old(charges), charges, p.id, account, p.maxPrice, script)
      ensures if outcome.Done? then rows[i] == old(rows[i]).(status := Bought, marketId := Some(script.marketId), updatedAt := now)
              else rows == old(rows)
    {
      hide Inv, Leads, SentAs, MarketPool.Pool.Valid, IdsIssued;
      ghost var w := View();
      RowInHand(w, r);
      var marketId;
      marketId, outcome := SendBuy(r, i, p, account, cap, script);
      if outcome.Done? {
        ghost var w1 := View();
        ConfirmBought(r, i, p, marketId.value);
        LeadsChain(w, w1, View());
      }
    }

    /** The attempt goes on record, the request goes out, and an answer that says "bought" is recorded. */
    method AttemptAndSend(r: RequestId, i: ItemId, p: Purchase, account: AccountId, cap: nat, script: BuyScript)
        returns (outcome: BuyOutcome)
      requires Valid() && OnLine(View(), r) && i == CurrentLine(View(), r)
      requires PhaseOf(View(), r) == Recording(p, account) && cap == p.maxPrice
      modifies this`rows, this`tasks, this`charges, pool`lastUsedAt
      ensures Valid() && Leads(old(View()), View()) && OnlyLine(r, i)
      ensures outcome.Denied? ==> tasks[r] == old(tasks[r]).(phase := Failing(p))
      ensures !outcome.Denied? ==> tasks[r] == old(tasks[r]).(phase := AtLine, line := old(tasks[r]).line + 1)
      ensures outcome == (match script case Accepts(_, _) => Done case Denies => Denied case _ => Unknown)
      ensures SentAs(old(charges), charges, rows[i].id, account, p.maxPrice, script)
      ensures SameTerms(p, rows[i]) && rows[i].account == Some(account) && rows[i].attempts > 0
      ensures if outcome.Done? then rows[i].status.Bought? && rows[i].marketId == Some(script.marketId) else rows[i].status.Pending?
    {
      hide Inv, Leads, SentAs, MarketPool.Pool.Valid, IdsIssued;
      ghost var w := View();
      RowInHand(w, r);
      RecordAttempt(r, i, p, account);
      ghost var w1 := View();
      outcome := SendAndConfirm(r, i, p, account, cap, script);
      LeadsChain(w, w1, View());
    }

    /** Everything `buy` does once it is clear that no charge of this row stands. */
    method TryToBuy(r: RequestId, i: ItemId, p: Purchase, script: LineScript) returns (outcome: BuyOutcome)
      requires Valid() && CanClaim(View(), r) && PhaseOf(View(), r).p == p && i == CurrentLine(View(), r)
      modifies this`rows, this`tasks, this`charges, pool
      ensures Valid() && Leads(old(View()), View()) && OnlyLine(r, i)
      ensures outcome.Denied? ==> tasks[r] == old(tasks[r]).(phase := Failing(p))
      ensures !outcome.Denied? ==> tasks[r] == old(tasks[r]).(phase := AtLine, line := old(tasks[r]).line + 1)
      ensures var payer := old(MarketPool.Payer(pool.rows, pool.lastUsedAt, pool.clients, p.maxPrice));
              && outcome == AttemptEnds(payer, script, p.maxPrice)
              && ChargedAs(old(charges), charges, rows[i], payer, script, p.maxPrice)
      ensures SameTerms(p, rows[i])
      ensures if outcome.Done? then BoughtAs(rows[i], script) else rows[i].status.Pending?
      ensures pool.clients == old(pool.clients) && MarketPool.DebitedOnce(old(pool.rows), pool.rows, p.maxPrice)
    {
      hide Inv, Leads, SentAs, SameTerms, MarketPool.Payer, MarketPool.DebitedOnce, MarketPool.Pool.Valid, IdsIssued;
      ghost var w := View();
      RowInHand(w, r);
      SameRowSameTerms(p);
      var account, cap := Reserve(r, i, p);
      if account.None? {
        return Denied;
      }
      ghost var w1 := View();
      outcome := FindOffer(r, i, p, account.value, cap, script.search);
      LeadsChain(w, w1, View());
      if outcome.Done? {
        ghost var w2 := View();
        outcome := AttemptAndSend(r, i, p, account.value, cap, script.buy);
        LeadsChain(w, w2, View());
      }
    }

    /** Buys, and writes a definite refusal onto the row. */
    method BuyOrRefuse(r: RequestId, i: ItemId, p: Purchase, script: LineScript) returns (outcome: BuyOutcome)
      requires Valid() && CanClaim(View(), r) && PhaseOf(View(), r).p == p && i == CurrentLine(View(), r)
      modifies this`rows, this`tasks, this`charges, pool
      ensures Valid() && Leads(old(View()), View()) && OnlyLine(r, i)
      ensures tasks[r] == old(tasks[r]).(phase := AtLine, line := old(tasks[r]).line + 1)
      ensures var payer := old(MarketPool.Payer(pool.rows, pool.lastUsedAt, pool.clients, p.maxPrice));
              && outcome == AttemptEnds(payer, script, p.maxPrice)
              && BoughtFrom(p, rows[i], old(charges), charges, MayBuy, payer, script)
      ensures pool.clients == old(pool.clients) && MarketPool.DebitedOnce(old(pool.rows), pool.rows, p.maxPrice)
    {
      hide Inv, Leads, SentAs, AttemptEnds, MarketPool.Payer, MarketPool.DebitedOnce, MarketPool.Pool.Valid, IdsIssued;
      ghost var w := View();
      outcome := TryToBuy(r, i, p, script);
      if outcome.Denied? {
        ghost var w1 := View();
        RefuseLine(r, i, p);
        LeadsChain(w, w1, View());
      }
    }

    /** How `buy` ends, by what its account says, who can pay, what is offered and what the market answers. */
    twostate predicate BuysFrom(i: ItemId, p: Purchase, script: LineScript, outcome: BuyOutcome)
      reads this, pool
    {
      var first := old(AskedFirst(View(), p, pool.clients, script.lookupLost));
      var uses := old(UsesAfterAsking(p, pool.clients, pool.lastUsedAt, now));
      var payer := old(MarketPool.Payer(pool.rows, uses, pool.clients, p.maxPrice));
      && outcome == BuyEnds(first, payer, script, p.maxPrice)
      && i in rows && BoughtFrom(p, rows[i], old(charges), charges, first, payer, script)
    }

    /**
     * Buys one item. A definite refusal is written onto the row on the way out;
     * `Unknown` leaves it for the poller.
     */
    method Buy(r: RequestId, i: ItemId, p: Purchase, script: LineScript) returns (outcome: BuyOutcome)
      requires Valid() && OnLine(View(), r) && PhaseOf(View(), r) == Ensured(p) && i == CurrentLine(View(), r)
      modifies this`rows, this`tasks, this`charges, pool
      ensures Valid() && Leads(old(View()), View()) && OnlyLine(r, i)
      ensures tasks[r] == old(tasks[r]).(phase := AtLine, line := old(tasks[r]).line + 1)
      ensures BuysFrom(i, p, script, outcome)
      ensures pool.clients == old(pool.clients) && MarketPool.DebitedOnce(old(pool.rows), pool.rows, p.maxPrice)
    {
      hide Inv, Leads, AttemptEnds, ChargedAs, RowEnds, ShowsCharge, MarketPool.Payer, MarketPool.Pool.Valid, IdsIssued;
      ghost var w := View();
      LeadsNowhere(w);
      RowInHand(w, r);
      if AsksFirst(p) {
        var settled := AskFirst(r, i, p, script.lookupLost);
        if settled.Some? {
          return settled.value;
        }
      }
      ghost var w1 := View();
      outcome := BuyOrRefuse(r, i, p, script);
      LeadsChain(w, w1, View());
    }

    /** Walks the request's own lines and sorts them by what became of each. */
    method TallyLines(r: RequestId) returns (plan: SettlePlan)
      requires r in requests
      ensures plan == PlanOf(View(), r, requests[r].lines)
    {
      var lines := requests[r].lines;
      var release: seq<ItemId>, deliver: seq<ItemId> := [], [];
      var delivered, failed, open, bought := 0, 0, 0, 0;
      for k := 0 to |lines|
        invariant SettlePlan(release, deliver, delivered, failed, open, bought) == PlanOf(View(), r, lines[..k])
      {
        var i := lines[k];
        assert lines[..k + 1][..k] == lines[..k];
        var own := i in rows && rows[i].request == r;
        var stillOurs := i in items && items[i].request == Some(r);
        if own && rows[i].status.Delivered? {
          delivered, bought := delivered + 1, bought + 1;
          deliver := if stillOurs then deliver + [i] else deliver;
        } else if !own || rows[i].status.Failed? || (rows[i].status.Pending? && rows[i].attempts == 0) {
          failed := failed + 1;
          release := if stillOurs then release + [i] else release;
        } else {
          open := open + 1;
          bought := if rows[i].status.Bought? then bought + 1 else bought;
        }
      }
      assert lines[..|lines|] == lines;
      plan := SettlePlan(release, deliver, delivered, failed, open, bought);
    }

    /** The settle transaction: both item updates are conditional on the item still pointing here. */
    method WritePlan(r: RequestId, plan: SettlePlan)
      requires r in requests
      modifies this`items, this`requests
      ensures View() == ApplyPlan(old(View()), r, plan)
    {
      var status :=
        if plan.open > 0 then Sent
        else if plan.delivered == 0 then Refused
        else if plan.failed == 0 then Completed
        else Partial;
      items := map i | i in items ::
        if items[i].request != Some(r) then items[i]
        else if i in plan.release then Released(items[i])
        else if i in plan.deliver then items[i].(status := Withdrawn)
        else items[i];
      var q := requests[r];
      requests := requests[r := Request(
        q.lines, status,
        if q.sentAt.Some? then q.sentAt else if plan.bought > 0 then Some(now) else None,
        if plan.open > 0 then None else if q.completedAt.Some? then q.completedAt else Some(now))];
    }

    /** The tally and the transaction, with nothing in between. */
    method Settle(r: RequestId)
      requires r in requests
      modifies this`items, this`requests
      ensures View() == MarketSettle.Settle(old(View()), r)
    {
      var plan := TallyLines(r);
      WritePlan(r, plan);
    }

    /** The end of a run: whatever went wrong, the request is brought back into agreement with its purchases. */
    method SettleRun(r: RequestId)
      requires Valid() && r in requests && r in tasks && (tasks[r].Run? || tasks[r].SettleDue?)
      modifies this`items, this`requests, this`tasks
      ensures Valid() && Leads(old(View()), View())
      ensures View() == Drop(MarketSettle.Settle(old(View()), r), r)
    {
      hide Inv, Leads, PlanOf, ApplyPlan;
      EndOfRun(View(), r);
      Settle(r);
      tasks := map s | s in tasks && s != r :: tasks[s];
    }

    /** Nothing was spent: the request is refused and its items go back to the player. */
    method RefuseRequest(r: RequestId)
      requires Valid() && CanAbandon(View(), r) && !AnySpent(View(), r)
      modifies this`items, this`requests, this`tasks
      ensures View() == DoAbandon(old(View()), r) && Valid()
    {
      hide Inv, Leads, AnySpent;
      AbandonLeads(View(), r);
      requests := requests[r := requests[r].(status := Refused)];
      items := map i | i in items :: if items[i].request == Some(r) then Released(items[i]) else items[i];
      tasks := map s | s in tasks && s != r :: tasks[s];
    }

    /** Refuses a request none of whose rows was ever attempted or answered, and settles any other. */
    method Abandon(r: RequestId)
      requires Valid() && CanAbandon(View(), r)
      modifies this`items, this`requests, this`tasks
      ensures Valid() && Leads(old(View()), View()) && tasks == old(Drop(View(), r).tasks)
      ensures GivenUp(old(View()), View(), r)
    {
      hide Inv, Leads, MarketSettle.Settle, GivenUp, MarketPool.Pool.Valid;
      ghost var w := View();
      AbandonLeads(w, r);
      var spent := exists i :: i in rows && rows[i].request == r && !(rows[i].status.Pending? && rows[i].attempts == 0);
      assert spent == AnySpent(w, r);
      hide AnySpent;
      if spent {
        tasks := tasks[r := SettleDue];
        ghost var w1 := View();
        SettleRun(r);
        LeadsChain(w, w1, View());
        SettledIsGivenUp(w, w1, r);
      } else {
        RefuseRequest(r);
        RefusedIsGivenUp(w, r);
      }
    }

    /** How a line ends, and on which account it was bought. */
    twostate predicate Fills(r: RequestId, i: ItemId, overpayBps: nat, script: LineScript)
      reads this, pool
    {
      var w, clients := old(View()), old(pool.clients);
      var cap := CapOf(w, r, i, overpayBps);
      var payer := MarketPool.Payer(old(pool.rows), UsesOf(w, r, i, clients, old(pool.lastUsedAt)), clients, cap);
      && LineIs(w, View(), r, i, overpayBps, script, clients, payer) && OnlyUnder(w.charges, charges, rows[i].id)
      && pool.clients == clients && MarketPool.DebitedOnce(old(pool.rows), pool.rows, cap)
    }

    /** One turn of the loop: the row is fetched, and bought for if it is still pending. */
    method FillLine(r: RequestId, i: ItemId, overpayBps: nat, script: LineScript) returns (unresolved: bool)
      requires Valid() && OnLine(View(), r) && PhaseOf(View(), r).AtLine? && i == CurrentLine(View(), r)
      requires overpayBps == tasks[r].overpayBps
      modifies this`rows, this`tasks, this`charges, this`nextId, pool
      ensures Valid() && Leads(old(View()), View())
      ensures items == old(items) && requests == old(requests) && RowOfRun(View(), r, i)
      ensures rows == old(rows)[i := rows[i]]
      ensures tasks == old(tasks)[r := old(tasks[r]).(phase := AtLine, line := old(tasks[r]).line + 1)]
      ensures unresolved <==> rows[i].status.Pending?
      ensures Fills(r, i, overpayBps, script)
    {
      hide Inv, Leads, BoughtFrom, BuyEnds, LineIs, AskedFirst, OnlyUnder, EnsuredRow, CapOf, UsesOf, UsesAfterAsking, DoEnsure;
      hide MarketPool.Payer, MarketPool.DebitedOnce, MarketPool.Pool.Valid;
      ghost var w := View();
      ghost var id := nextId;
      EnsureLeads(w, r, id);
      ghost var cap := CapOf(w, r, i, overpayBps);
      TermsOfLine(w, r, i, nextId, overpayBps, pool.clients, pool.lastUsedAt);
      MarketPool.NothingDebited(pool.rows, cap);
      ghost var payer := MarketPool.Payer(pool.rows, UsesOf(w, r, i, pool.clients, pool.lastUsedAt), pool.clients, cap);
      var p := EnsurePurchase(r, i, overpayBps);
      unresolved := false;
      if p.status.Pending? {
        ghost var w1 := View();
        var outcome := Buy(r, i, p, script);
        LeadsChain(w, w1, View());
        unresolved := outcome.Unknown?;
        AskedFirstReadsCharges(w, w1, p, pool.clients, script.lookupLost);
        BoughtLineIs(w, View(), r, i, id, overpayBps, script, pool.clients, payer);
        UnknownIsPending(p, rows[i], w.charges, charges, AskedFirst(w, p, pool.clients, script.lookupLost), payer, script);
      } else {
        ResolvedLineIs(w, View(), r, i, overpayBps, script, pool.clients, payer);
      }
    }

    /** The loop over the request's lines. */
    method FillLines(r: RequestId, overpayBps: nat, scripts: seq<LineScript>) returns (uncertain: bool)
      requires Valid() && r in requests && r in tasks && tasks[r] == Run(0, AtLine, overpayBps)
      requires requests[r].status.Processing? && |scripts| == |requests[r].lines|
      modifies this`rows, this`tasks, this`charges, this`nextId, pool
      ensures Valid() && Leads(old(View()), View())
      ensures items == old(items) && requests == old(requests)
      ensures r in tasks && tasks == old(tasks)[r := tasks[r]] && tasks[r].Run?
      ensures uncertain <==> AnyPending(View(), requests[r].lines)
      ensures FilledUpTo(old(View()), View(), r, requests[r].lines, |scripts|, overpayBps, scripts, old(pool.View()))
    {
      hide Inv, Leads, FilledUpTo, AnyPending, LineIs, OnlyUnder, CapSum, CapOf, UsesOf, MarketPool.DebitedBy, MarketPool.DebitedOnce;
      hide MarketPool.Payer, MarketPool.Pool.Valid, IdsIssued;
      ghost var w := View();
      ghost var accounts := pool.View();
      var lines := requests[r].lines;
      LeadsNowhere(w);
      LinesAreDistinct(w, r);
      NothingFilled(w, r, lines, overpayBps, scripts, accounts);
      uncertain := false;
      for k := 0 to |lines|
        invariant Valid() && Leads(w, View())
        invariant items == w.items && requests == w.requests && r in requests && lines == requests[r].lines
        invariant r in tasks && tasks == w.tasks[r := tasks[r]] && tasks[r] == Run(k, AtLine, overpayBps)
        invariant uncertain <==> AnyPending(View(), lines[..k])
        invariant FilledUpTo(w, View(), r, lines, k, overpayBps, scripts, accounts)
        invariant pool.clients == accounts.clients && (k == 0 ==> View() == w && pool.View() == accounts)
        invariant MarketPool.DebitedBy(accounts.rows, pool.rows, CapSum(w, r, lines[..k], overpayBps))
      {
        ghost var w1 := View();
        ghost var uses := UsesOf(w1, r, lines[k], pool.clients, pool.lastUsedAt);
        ghost var since := MarketPool.Accounts(pool.rows, pool.clients, uses);
        var unresolved := FillLine(r, lines[k], overpayBps, scripts[k]);
        LeadsChain(w, w1, View());
        RowIdsAreDistinct(View());
        FilledOneMore(w, w1, View(), r, lines, k, overpayBps, scripts, accounts, since);
        DebitsOneMore(w, r, lines, k, overpayBps, accounts.rows, since.rows, pool.rows);
        PendingOneMore(w1, View(), lines, k);
        uncertain := uncertain || unresolved;
      }
      assert lines[..|lines|] == lines;
    }

    /** The refresh, if it is due; the loop; and the settle that follows it whatever happened. */
    method FillAndSettle(r: RequestId, health: Option<map<AccountId, MarketPool.Health>>, overpayBps: nat, scripts: seq<LineScript>)
        returns (uncertain: bool)
      requires Valid() && r in requests && r in tasks && tasks[r] == Run(0, AtLine, overpayBps)
      requires requests[r].status.Processing? && |scripts| == |requests[r].lines|
      modifies this, pool
      ensures Valid() && Leads(old(View()), View())
      ensures tasks == old(Drop(View(), r).tasks)
      ensures Processed(old(View()), View(), r, overpayBps, scripts, MarketPool.AfterRefresh(old(pool.View()), health))
      ensures uncertain <==> AnyPending(View(), old(requests[r].lines))
    {
      hide Inv, Leads, FilledUpTo, Processed, MarketSettle.Settle, MarketPool.Pool.Valid, IdsIssued;
      ghost var w := View();
      if health.Some? {
        pool.Refresh(health.value);
      }
      ghost var accounts := pool.View();
      uncertain := FillLines(r, overpayBps, scripts);
      ghost var w1 := View();
      SettledIsProcessed(w, w1, r, overpayBps, scripts, accounts);
      assert Drop(w1, r).tasks == Drop(w, r).tasks;
      SettleRun(r);
      LeadsChain(w, w1, View());
    }

    /** Marks the request as being worked on. */
    method StartRun(r: RequestId, overpayBps: nat)
      requires Valid() && CanStart(View(), r)
      modifies this`requests, this`tasks
      ensures Valid() && Leads(old(View()), View()) && View() == old(DoStart(View(), r, overpayBps))
    {
      hide Inv, Leads, MarketPool.Pool.Valid;
      ghost var w := View();
      LeadsNowhere(w);
      StepOn(w, w, Running(r, Start(overpayBps)));
      requests := requests[r := requests[r].(status := Processing)];
      tasks := tasks[r := Run(0, AtLine, overpayBps)];
      assert View() == DoStart(w, r, overpayBps);
    }

    /**
     * Fills one request: claims it, buys line by line, and settles whatever
     * happened. `uncertain` is the error the job fails with. A request whose
     * trade URL is no good is given up before the first line; for any other the
     * accounts are refreshed first, if that is due.
     */
    method Process(r: RequestId, urlParses: bool, health: Option<map<AccountId, MarketPool.Health>>, overpayBps: nat,
                   scripts: seq<LineScript>)
        returns (uncertain: bool)
      requires Valid() && r !in tasks
      requires r in requests ==> |scripts| == |requests[r].lines|
      modifies this, pool
      ensures Valid() && Leads(old(View()), View()) && tasks == old(tasks)
      ensures old(!CanStart(View(), r)) ==> View() == old(View()) && !uncertain
      ensures old(CanStart(View(), r)) && urlParses ==>
                && Processed(old(View()), View(), r, overpayBps, scripts, MarketPool.AfterRefresh(old(pool.View()), health))
                && (uncertain <==> AnyPending(View(), old(requests[r].lines)))
      ensures old(CanStart(View(), r)) && !urlParses ==>
                GivenUp(old(View()), View(), r) && !uncertain && pool.View() == old(pool.View())
    {
      hide Inv, Leads, Processed, AnyPending, GivenUp, IdsIssued, MarketPool.AfterRefresh, MarketPool.Pool.Valid;
      ghost var w := View();
      ghost var accounts := MarketPool.AfterRefresh(pool.View(), health);
      LeadsNowhere(w);
      if r !in requests || !(requests[r].status.Queued? || requests[r].status.Processing?) {
        return false;
      }
      StartRun(r, overpayBps);
      ghost var w1 := View();
      assert w.tasks == Drop(w1, r).tasks;
      if urlParses {
        uncertain := FillAndSettle(r, health, overpayBps, scripts);
        ProcessedFromStart(w, w1, View(), r, overpayBps, scripts, accounts);
      } else {
        Abandon(r);
        uncertain := false;
        GivenUpFromStart(w, w1, View(), r);
      }
      LeadsChain(w, w1, View());
    }
  }

  lemma LookupMovesOn(w: World, r: RequestId, shown: LookupAnswer)
    requires CanLookup(w, r, shown)
    ensures DoLookup(w, r, shown) == w.(tasks := DoLookup(w, r, shown).tasks)
  {
  }

  lemma EnsureLeads(w: World, r: RequestId, id: CustomId)
    requires Inv(w) && OnLine(w, r) && PhaseOf(w, r).AtLine? && FreshId(w, id)
    ensures CurrentLine(w, r) in w.items
    ensures Leads(w, DoEnsure(w, r, id))
    ensures var i := CurrentLine(w, r); var p := EnsuredRow(w, r, i, id, w.tasks[r].overpayBps);
            && DoEnsure(w, r, id) == w.(rows := w.rows[i := p], tasks := w.tasks[r := AfterEnsure(w.tasks[r], p)])
            && (RowOfRun(w, r, i) ==> p == w.rows[i] && w.rows[i := p] == w.rows)
  {
    hide Inv, Leads, DoEnsure, EnsuredRow;
    RunHolds(w, r);
    EnsureNeverThrows(w, r);
    EnsureShape(w, r, id, CurrentLine(w, r), EnsuredRow(w, r, CurrentLine(w, r), id, w.tasks[r].overpayBps));
    LeadsNowhere(w);
    StepOn(w, w, Running(r, Ensure(id)));
  }

  lemma SendLeads(w: World, r: RequestId, answer: BuyAnswer)
    requires Inv(w) && CanBuy(w, r, answer)
    ensures Inv(DoBuy(w, r, answer)) && Leads(w, DoBuy(w, r, answer))
  {
    hide Inv, Leads;
    LeadsNowhere(w);
    StepOn(w, w, Running(r, RunMove.Buy(answer)));
  }

  lemma AbandonLeads(w: World, r: RequestId)
    requires Inv(w) && CanAbandon(w, r)
    ensures Inv(DoAbandon(w, r)) && Leads(w, DoAbandon(w, r))
  {
    hide Inv, Leads, AnySpent;
    LeadsNowhere(w);
    StepOn(w, w, Running(r, RunMove.Abandon));
  }

  /** Leaving the loop, reading the plan and writing it, as protocol steps. */
  lemma EndOfRun(w: World, r: RequestId)
    requires Inv(w) && r in w.requests && r in w.tasks && (w.tasks[r].Run? || w.tasks[r].SettleDue?)
    ensures Inv(Drop(MarketSettle.Settle(w, r), r)) && Leads(w, Drop(MarketSettle.Settle(w, r), r))
  {
    hide Inv, Leads, PlanOf, ApplyPlan;
    LeadsNowhere(w);
    var w1 := Resume(w, r, SettleDue);
    if w.tasks[r].Run? {
      StepOn(w, w, Running(r, LeaveLoop));
    } else {
      assert w1 == w;
    }
    StepOn(w, w1, Watching(r, SettleRead));
    var w2 := DoSettleRead(w1, r);
    StepOn(w, w2, Watching(r, SettleWrite));
    PlanReadsRows(w, w1, r, w.requests[r].lines);
    SamePlanSameWorld(w, w2, r);
  }

  lemma SamePlanSameWorld(w: World, v: World, r: RequestId)
    requires r in w.requests && r in w.tasks && v == Resume(w, r, Settling(PlanOf(w, r, w.requests[r].lines)))
    requires CanSettleWrite(v, r)
    ensures DoSettleWrite(v, r) == Drop(MarketSettle.Settle(w, r), r)
  {
    hide PlanOf;
  }
}
