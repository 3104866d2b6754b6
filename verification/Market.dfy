/**
 * Units, stages and price ceilings of the market channel, and the two choices
 * made from a list: which account pays and which offer is taken.
 */
module Market {
  import opened Wrappers

  type AccountId = nat

  const STAGE_ITEM_GIVEN := 2
  const STAGE_TIMED_OUT := 5

  /** The client never lets two requests of one key start closer than this. */
  const MIN_REQUEST_INTERVAL_MS := 260

  /** How long one request may take before the client gives up on its reply. */
  const REQUEST_TIMEOUT_MS := 20_000

  /** How long an attempted purchase may stay unaccounted for. */
  const UNCONFIRMED_GRACE_MS := 15 * 60_000

  const BASE_CURRENCY := "RUB"

  datatype MarketOutcome = InFlight | Given | TimedOut

  /** Only the two documented final stages are read as final. */
  function ClassifyStage(stage: int): MarketOutcome {
    if stage == STAGE_ITEM_GIVEN then Given
    else if stage == STAGE_TIMED_OUT then TimedOut
    else InFlight
  }

  /** `Math.floor((itemPrice * (10_000 + overpayBps)) / 10_000)`. */
  function MaxPayable(itemPrice: nat, overpayBps: nat): nat {
    itemPrice * (10_000 + overpayBps) / 10_000
  }

  /** The ceiling is the largest whole price inside the operator's allowance. */
  lemma MaxPayableIsTightest(itemPrice: nat, overpayBps: nat, price: int)
    ensures price <= MaxPayable(itemPrice, overpayBps)
            <==> price * 10_000 <= itemPrice * (10_000 + overpayBps)
  {
    var allowance := itemPrice * (10_000 + overpayBps);
    assert MaxPayable(itemPrice, overpayBps) == allowance / 10_000;
  }

  function Max(a: int, b: int): int {
    if a < b then b else a
  }

  function Upper(currency: string): string {
    seq(|currency|, i requires 0 <= i < |currency| =>
      if 'a' <= currency[i] <= 'z' then (currency[i] as int - 32) as char else currency[i])
  }

  /** Market price units per rouble, dollar or euro; none for any other currency. */
  function UnitsPerMajor(currency: string): Option<nat> {
    var upper := Upper(currency);
    if upper == "RUB" then Some(100)
    else if upper == "USD" || upper == "EUR" then Some(1000)
    else None
  }

  /** `Math.round` of a non-negative quotient: halves go up. */
  function RoundDiv(a: nat, b: nat): nat
    requires b > 0
  {
    (2 * a + b) / (2 * b)
  }

  function UnitsOr100(currency: string): nat {
    match UnitsPerMajor(currency) case Some(units) => units case None => 100
  }

  function ToMarketPrice(minor: nat, currency: string): nat {
    RoundDiv(minor * UnitsOr100(currency), 100)
  }

  function FromMarketPrice(price: nat, currency: string): nat {
    RoundDiv(price * 100, UnitsOr100(currency))
  }

  /** Converting a site price to market units and back loses nothing, in every currency. */
  lemma MarketPriceRoundTrip(minor: nat, currency: string)
    ensures FromMarketPrice(ToMarketPrice(minor, currency), currency) == minor
    ensures ToMarketPrice(minor, currency) * 100 == minor * UnitsOr100(currency)
  {
    if UnitsOr100(currency) == 1000 {
      assert ToMarketPrice(minor, currency) == minor * 10;
    } else {
      assert ToMarketPrice(minor, currency) == minor;
    }
  }

  /** Whether an account may settle for this site: only the base currency passes. */
  predicate CurrencyUsable(currency: Option<string>) {
    currency.Some? && currency.value != "" && Upper(currency.value) == BASE_CURRENCY
  }

  /** On an account the pool may pick, market units and site units coincide. */
  lemma UsableAccountsPayInSiteUnits(minor: nat, currency: string)
    requires CurrencyUsable(Some(currency))
    ensures ToMarketPrice(minor, currency) == minor
  {
    MarketPriceRoundTrip(minor, currency);
  }

  datatype AccountStatus = Offline | Online | Disabled | Error

  datatype Account = Account(
    id: AccountId, status: AccountStatus, balance: Option<int>, currency: Option<string>, lastUsedAt: int)

  predicate Eligible(account: Account, price: int) {
    && account.status.Online?
    && CurrencyUsable(account.currency)
    && (account.balance.Some? ==> account.balance.value >= price)
  }

  /** `best` is the choice the loop of `pickAccount` settles on over `accounts`. */
  ghost predicate IsPick(accounts: seq<Account>, price: int, best: Option<nat>) {
    match best
    case None => forall j :: 0 <= j < |accounts| ==> !Eligible(accounts[j], price)
    case Some(k) =>
      && k < |accounts|
      && Eligible(accounts[k], price)
      && (forall j :: 0 <= j < |accounts| && Eligible(accounts[j], price) ==>
            accounts[k].lastUsedAt <= accounts[j].lastUsedAt)
      && (forall j :: 0 <= j < k && Eligible(accounts[j], price) ==>
            accounts[k].lastUsedAt < accounts[j].lastUsedAt)
  }

  /** Least recently used among the accounts that can pay; the first one on a tie. */
  method PickAccount(accounts: seq<Account>, price: int) returns (best: Option<nat>)
    ensures IsPick(accounts, price, best)
  {
    best := None;
    for j := 0 to |accounts|
      invariant IsPick(accounts[..j], price, best)
    {
      assert accounts[..j + 1] == accounts[..j] + [accounts[j]];
      if Eligible(accounts[j], price) && (best.None? || accounts[j].lastUsedAt < accounts[best.value].lastUsedAt) {
        best := Some(j);
      }
    }
    assert accounts[..|accounts|] == accounts;
  }

  datatype Offer = Offer(price: nat, count: int)

  predicate Takeable(offer: Offer, maxPrice: int) {
    offer.count > 0 && offer.price <= maxPrice
  }

  /** The cheapest live offer within the ceiling, the first of them on a tie; none when every one is outside it. */
  ghost predicate IsBestOffer(offers: seq<Offer>, maxPrice: int, best: Option<Offer>) {
    match best
    case None => forall j :: 0 <= j < |offers| ==> !Takeable(offers[j], maxPrice)
    case Some(offer) =>
      exists k :: 0 <= k < |offers| && offers[k] == offer && FirstCheapest(offers, maxPrice, k)
  }

  predicate FirstCheapest(offers: seq<Offer>, maxPrice: int, k: nat) {
    && k < |offers| && Takeable(offers[k], maxPrice)
    && (forall j :: 0 <= j < |offers| && Takeable(offers[j], maxPrice) ==> offers[k].price <= offers[j].price)
    && (forall j :: 0 <= j < k && Takeable(offers[j], maxPrice) ==> offers[k].price < offers[j].price)
  }

  method PickOffer(offers: seq<Offer>, maxPrice: int) returns (best: Option<Offer>)
    ensures IsBestOffer(offers, maxPrice, best)
  {
    best := None;
    ghost var at := 0;
    for j := 0 to |offers|
      invariant best.None? ==> forall k :: 0 <= k < j ==> !Takeable(offers[k], maxPrice)
      invariant best.Some? ==> at < j && best.value == offers[at] && FirstCheapest(offers[..j], maxPrice, at)
    {
      assert offers[..j + 1] == offers[..j] + [offers[j]];
      if Takeable(offers[j], maxPrice) && (best.None? || offers[j].price < best.value.price) {
        best, at := Some(offers[j]), j;
      }
    }
    assert offers[..|offers|] == offers;
  }
}
