/** How one line of a withdrawal ends, said without the worker's steps. */
module MarketLines {
  import opened Wrappers
  import opened Market
  import opened MarketWorld
  import opened MarketInvariant

  /** What the market and the wire do to one line: the part of a run the worker does not decide. */
  datatype SearchScript = SearchTimesOut | SearchDenied | Offers(offers: seq<Offer>)
  datatype BuyScript = Accepts(marketId: nat, price: nat) | ChargesSilently(marketId: nat, price: nat) | NeverArrives | Denies
  datatype LineScript = LineScript(lookupLost: bool, search: SearchScript, buy: BuyScript)

  /** The market never charges above the ceiling it is given. */
  function AnswerOf(script: BuyScript, cap: nat): BuyAnswer {
    match script
    case Accepts(marketId, price) => Accepted(marketId, if price <= cap then price else cap)
    case ChargesSilently(marketId, price) => ChargedReplyLost(marketId, if price <= cap then price else cap)
    case NeverArrives => NotChargedReplyLost
    case Denies => RefusedByMarket
  }

  /** One more charge under this custom id, on this account, at this price. */
  predicate ChargedOnce(before: map<CustomId, seq<Charge>>, later: map<CustomId, seq<Charge>>, id: CustomId,
                        account: AccountId, marketId: nat, price: nat) {
    later == before[id := (if id in before then before[id] else []) + [Charge(account, marketId, price, 1)]]
  }

  lemma OneMoreCharge(before: map<CustomId, seq<Charge>>, id: CustomId, account: AccountId, marketId: nat, price: nat)
    ensures var c := Charge(account, marketId, price, 1);
            ChargedOnce(before, before[id := (if id in before then before[id] else []) + [c]], id, account, marketId, price)
  {
  }

  /** How `buy` ended: with the row written, with a definite refusal, or not knowing. */
  datatype BuyOutcome = Done | Denied | Unknown

  /** What the account of a first attempt has to say before a line may be bought. */
  datatype FirstAnswer = MayBuy | Found(charge: Charge) | NoAnswer

  function AskedFirst(w: World, p: Purchase, clients: set<AccountId>, lost: bool): FirstAnswer {
    if p.attempts == 0 || p.account.None? then MayBuy
    else if p.account.value !in clients || lost then NoAnswer
    else match Newest(History(w, p.id), p.account.value) case None => MayBuy case Some(c) => Found(c)
  }

  predicate AnsweredAs(shown: LookupAnswer, first: FirstAnswer) {
    match shown
    case Answered(Missing) => first.MayBuy?
    case Answered(Info(c)) => first == Found(c)
    case _ => first.NoAnswer?
  }

  /** The moments of last use once the account of a first attempt has been asked. */
  function UsesAfterAsking(p: Purchase, clients: set<AccountId>, lastUsedAt: map<AccountId, int>, now: nat): map<AccountId, int> {
    if p.attempts > 0 && p.account.Some? && p.account.value in clients then lastUsedAt[p.account.value := now] else lastUsedAt
  }

  predicate IsOffered(search: SearchScript, cap: nat) {
    search.Offers? && exists j :: 0 <= j < |search.offers| && search.offers[j].count > 0 && search.offers[j].price <= cap
  }

  /**
   * How an attempt ends: refused if nobody can pay, nothing is offered within
   * the ceiling, or the market refuses; unknown if a reply is lost; bought else.
   */
  function AttemptEnds(payer: Option<AccountId>, script: LineScript, cap: nat): BuyOutcome {
    if payer.None? then Denied
    else if script.search.SearchTimesOut? then Unknown
    else if !IsOffered(script.search, cap) then Denied
    else match script.buy
         case Accepts(_, _) => Done
         case ChargesSilently(_, _) => Unknown
         case NeverArrives => Unknown
         case Denies => Denied
  }

  function BuyEnds(first: FirstAnswer, payer: Option<AccountId>, script: LineScript, cap: nat): BuyOutcome {
    match first
    case MayBuy => AttemptEnds(payer, script, cap)
    case Found(_) => Done
    case NoAnswer => Unknown
  }

  function AtMost(price: nat, cap: nat): nat {
    if price <= cap then price else cap
  }

  /** The charges once a purchase went out: one more exactly if the market took the money. */
  predicate SentAs(before: map<CustomId, seq<Charge>>, later: map<CustomId, seq<Charge>>, id: CustomId,
                   account: AccountId, cap: nat, buy: BuyScript) {
    match buy
    case Accepts(marketId, price) => ChargedOnce(before, later, id, account, marketId, AtMost(price, cap))
    case ChargesSilently(marketId, price) => ChargedOnce(before, later, id, account, marketId, AtMost(price, cap))
    case _ => later == before
  }

  /** A purchase goes out, on the payer and from a row that says so, exactly if something is offered and somebody can pay. */
  predicate ChargedAs(before: map<CustomId, seq<Charge>>, later: map<CustomId, seq<Charge>>, row: Purchase,
                      payer: Option<AccountId>, script: LineScript, cap: nat) {
    if payer.Some? && IsOffered(script.search, cap)
    then row.attempts > 0 && row.account == payer && SentAs(before, later, row.id, payer.value, cap, script.buy)
    else later == before
  }

  predicate BoughtAs(row: Purchase, script: LineScript) {
    row.status.Bought? && script.buy.Accepts? && row.marketId == Some(script.buy.marketId)
  }

  /** The row of a line that was free to be bought, once the attempt has ended. */
  predicate RowEnds(row: Purchase, outcome: BuyOutcome, script: LineScript) {
    && (outcome.Done? ==> BoughtAs(row, script))
    && (outcome.Denied? ==> row.status.Failed?)
    && (outcome.Unknown? ==> row.status.Pending?)
  }

  /** A row that has taken over what the market said about its charge; a market id known before is kept. */
  predicate ShowsCharge(was: Purchase, row: Purchase, c: Charge) {
    && row.stage == Some(c.stage) && row.paidPrice == Some(c.price)
    && row.marketId == (if was.marketId.Some? then was.marketId else Some(c.marketId))
    && (row.status.Delivered? <==> c.stage == STAGE_ITEM_GIVEN)
    && (row.status.Failed? <==> c.stage == STAGE_TIMED_OUT)
    && !row.status.Pending?
  }

  /** All an attempt leaves alone; only a reply that says "bought" writes the market's id. */
  predicate SameTerms(was: Purchase, row: Purchase) {
    && row.id == was.id && row.maxPrice == was.maxPrice && row.quote == was.quote
    && row.stage == was.stage && row.paidPrice == was.paidPrice
    && (!row.status.Bought? ==> row.marketId == was.marketId)
  }

  lemma SameRowSameTerms(row: Purchase)
    ensures SameTerms(row, row)
  {
  }

  /** The charges and the row once `buy` is through with a line whose row was `was`. */
  predicate BoughtFrom(was: Purchase, row: Purchase, before: map<CustomId, seq<Charge>>, later: map<CustomId, seq<Charge>>,
                       first: FirstAnswer, payer: Option<AccountId>, script: LineScript) {
    match first
    case MayBuy =>
      && SameTerms(was, row) && ChargedAs(before, later, row, payer, script, was.maxPrice)
      && RowEnds(row, AttemptEnds(payer, script, was.maxPrice), script)
    case Found(c) => row.id == was.id && row.maxPrice == was.maxPrice && later == before && ShowsCharge(was, row, c)
    case NoAnswer => later == before && row == was
  }

  /** Exactly an unknown end leaves the row pending. */
  lemma UnknownIsPending(was: Purchase, row: Purchase, before: map<CustomId, seq<Charge>>, later: map<CustomId, seq<Charge>>,
                         first: FirstAnswer, payer: Option<AccountId>, script: LineScript)
    requires BoughtFrom(was, row, before, later, first, payer, script) && was.status.Pending?
    ensures BuyEnds(first, payer, script, was.maxPrice).Unknown? <==> row.status.Pending?
  {
    hide ChargedAs, AttemptEnds;
  }

  // ----- a whole line, from one world to another

  /** The ceiling a line is bought under: that of its row, or the one the higher of its item's prices gives. */
  function CapOf(w: World, r: RequestId, i: ItemId, overpayBps: nat): nat {
    if RowOfRun(w, r, i) then w.rows[i].maxPrice
    else if i !in w.items then 0
    else if w.items[i].catalogue < w.items[i].acquired then MaxPayable(w.items[i].acquired, overpayBps)
    else MaxPayable(w.items[i].catalogue, overpayBps)
  }

  /** Only a row this request already had can have been attempted before. */
  function FirstOf(w: World, r: RequestId, i: ItemId, clients: set<AccountId>, lost: bool): FirstAnswer {
    if RowOfRun(w, r, i) then AskedFirst(w, w.rows[i], clients, lost) else MayBuy
  }

  function UsesOf(w: World, r: RequestId, i: ItemId, clients: set<AccountId>, lastUsedAt: map<AccountId, int>): map<AccountId, int> {
    if RowOfRun(w, r, i) && w.rows[i].status.Pending? then UsesAfterAsking(w.rows[i], clients, lastUsedAt, w.now) else lastUsedAt
  }

  function TakenBy(account: AccountId, buy: BuyScript, cap: nat): seq<Charge> {
    match buy
    case Accepts(marketId, price) => [Charge(account, marketId, AtMost(price, cap), 1)]
    case ChargesSilently(marketId, price) => [Charge(account, marketId, AtMost(price, cap), 1)]
    case _ => []
  }

  /** A line that was free to be bought: its row, and the market's records of it before and after. */
  predicate FreeLineIs(known: Option<Purchase>, row: Purchase, before: seq<Charge>, later: seq<Charge>,
                       payer: Option<AccountId>, script: LineScript, cap: nat) {
    && row.maxPrice == cap && RowEnds(row, AttemptEnds(payer, script, cap), script)
    && row.stage == (if known.None? then None else known.value.stage)
    && row.paidPrice == (if known.None? then None else known.value.paidPrice)
    && (!row.status.Bought? ==> row.marketId == if known.None? then None else known.value.marketId)
    && if payer.Some? && IsOffered(script.search, cap)
       then row.account == payer && row.attempts > 0 && later == before + TakenBy(payer.value, script.buy, cap)
       else later == before
  }

  /** What a run made of one line: a resolved row is left alone, an open one ends by its answers. */
  predicate LineIs(w: World, v: World, r: RequestId, i: ItemId, overpayBps: nat, script: LineScript,
                   clients: set<AccountId>, payer: Option<AccountId>) {
    && RowOfRun(v, r, i)
    && var row := v.rows[i];
       var before, later := History(w, row.id), History(v, row.id);
       && (if i in w.rows then row.id == w.rows[i].id else before == [])
       && if RowOfRun(w, r, i) && !w.rows[i].status.Pending? then row == w.rows[i] && later == before
          else match FirstOf(w, r, i, clients, script.lookupLost)
               case MayBuy => FreeLineIs(OwnRow(w, r, i), row, before, later, payer, script, CapOf(w, r, i, overpayBps))
               case Found(c) => i in w.rows && ShowsCharge(w.rows[i], row, c) && later == before
               case NoAnswer => i in w.rows && row == w.rows[i] && later == before
  }

  /** No charge moved but those under this custom id. */
  predicate OnlyUnder(before: map<CustomId, seq<Charge>>, later: map<CustomId, seq<Charge>>, id: CustomId) {
    later == before || (id in later && later == before[id := later[id]])
  }

  lemma AskedFirstReadsCharges(w: World, v: World, p: Purchase, clients: set<AccountId>, lost: bool)
    requires v.charges == w.charges
    ensures AskedFirst(v, p, clients, lost) == AskedFirst(w, p, clients, lost)
  {
  }

  /** What an ensured row says about its line is what the line's item, or its old row, says. */
  lemma TermsOfLine(w: World, r: RequestId, i: ItemId, id: CustomId, overpayBps: nat, clients: set<AccountId>,
                    lastUsedAt: map<AccountId, int>)
    requires i in w.items
    ensures var p := EnsuredRow(w, r, i, id, overpayBps);
            && p.request == r
            && p.maxPrice == CapOf(w, r, i, overpayBps)
            && (p.status.Pending? ==> UsesAfterAsking(p, clients, lastUsedAt, w.now) == UsesOf(w, r, i, clients, lastUsedAt))
            && (!p.status.Pending? ==> RowOfRun(w, r, i) && p == w.rows[i])
  {
  }

  lemma ResolvedLineIs(w: World, v: World, r: RequestId, i: ItemId, overpayBps: nat, script: LineScript,
                       clients: set<AccountId>, payer: Option<AccountId>)
    requires RowOfRun(w, r, i) && !w.rows[i].status.Pending? && v.rows == w.rows && v.charges == w.charges
    ensures LineIs(w, v, r, i, overpayBps, script, clients, payer) && OnlyUnder(w.charges, v.charges, v.rows[i].id)
  {
  }

  lemma BoughtLineIs(w: World, v: World, r: RequestId, i: ItemId, id: CustomId, overpayBps: nat, script: LineScript,
                     clients: set<AccountId>, payer: Option<AccountId>)
    requires i in w.items && (i in w.rows || id !in w.charges) && RowOfRun(v, r, i)
    requires var p := EnsuredRow(w, r, i, id, overpayBps);
             && p.status.Pending?
             && BoughtFrom(p, v.rows[i], w.charges, v.charges, AskedFirst(w, p, clients, script.lookupLost), payer, script)
    ensures LineIs(w, v, r, i, overpayBps, script, clients, payer)
    ensures OnlyUnder(w.charges, v.charges, v.rows[i].id)
  {
    hide RowEnds, AttemptEnds, IsOffered, ShowsCharge;
  }
}
