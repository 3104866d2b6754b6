/** The gate every saved case passes, and what it guarantees every opening. */
module SiteCases {
  import opened Rolls
  import opened Site
  import opened Tickets
  import opened Wrappers

  const MAX_ALLOWED_RTP := 0.98
  const CORRIDOR_MIN := 0.85
  const CORRIDOR_MAX := 0.95

  datatype RtpVerdict = OverCap | AboveCorridor | BelowCorridor | Inside

  function JudgeRtp(rtp: real): RtpVerdict {
    if rtp > MAX_ALLOWED_RTP then OverCap
    else if rtp > CORRIDOR_MAX then AboveCorridor
    else if rtp < CORRIDOR_MIN then BelowCorridor
    else Inside
  }

  datatype ItemInput = ItemInput(itemId: nat, bounds: RawRange)

  datatype CaseInput = CaseInput(price: int, isFree: bool, isActive: bool, items: seq<ItemInput>)

  datatype GateError = InvalidRanges(issues: seq<RangeError>) | ItemNotFound | RtpTooHigh | ItemWithoutPrice

  /** The input schema: free exactly when the price is zero. */
  predicate PriceAgrees(input: CaseInput) {
    if input.isFree then input.price == 0 else input.price > 0
  }

  function BoundsOf(items: seq<ItemInput>): (b: seq<RawRange>)
    ensures |b| == |items|
  {
    seq(|items|, i requires 0 <= i < |items| => items[i].bounds)
  }

  /** `priceById.get(id) ?? 0`. */
  function PriceOf(catalogue: map<nat, int>, itemId: nat): int {
    if itemId in catalogue then catalogue[itemId] else 0
  }

  function PricesOf(items: seq<ItemInput>, catalogue: map<nat, int>): (p: seq<int>)
    ensures |p| == |items|
  {
    seq(|items|, i requires 0 <= i < |items| => PriceOf(catalogue, items[i].itemId))
  }

  function PlannedRtp(input: CaseInput, catalogue: map<nat, int>): real {
    CalculateRtp(AllRounded(BoundsOf(input.items)), PricesOf(input.items, catalogue), input.price)
  }

  /** The rows the gate writes: the case's contents, replaced wholesale. */
  function StoredCase(input: CaseInput, catalogue: map<nat, int>): Case {
    Case(input.price, input.isFree, input.isActive,
         seq(|input.items|, i requires 0 <= i < |input.items| =>
           CaseItem(input.items[i].itemId, Rounded(input.items[i].bounds), PriceOf(catalogue, input.items[i].itemId))))
  }

  /** A table whose bounds are whole tickets, each owned once; known and priced items; a return within the cap. */
  ghost predicate GateAccepts(input: CaseInput, catalogue: map<nat, int>) {
    && (forall i :: 0 <= i < |input.items| ==> WellFormed(BoundsOf(input.items)[i]))
    && ExactCover(AllRounded(BoundsOf(input.items)))
    && (forall i :: 0 <= i < |input.items| ==> input.items[i].itemId in catalogue && catalogue[input.items[i].itemId] > 0)
    && (input.isFree || PlannedRtp(input, catalogue) <= MAX_ALLOWED_RTP)
  }

  method UpsertCase(input: CaseInput, catalogue: map<nat, int>) returns (r: Result<Case, GateError>)
    requires PriceAgrees(input)
    ensures r.Ok? <==> GateAccepts(input, catalogue)
    ensures r.Ok? ==> r.value == StoredCase(input, catalogue)
  {
    var valid, issues := ValidateTicketRanges(BoundsOf(input.items));
    if !valid {
      return Err(InvalidRanges(issues));
    }
    if exists i :: 0 <= i < |input.items| && input.items[i].itemId !in catalogue {
      return Err(ItemNotFound);
    }
    if !input.isFree && JudgeRtp(PlannedRtp(input, catalogue)) == OverCap {
      return Err(RtpTooHigh);
    }
    if exists i :: 0 <= i < |input.items| && PriceOf(catalogue, input.items[i].itemId) <= 0 {
      return Err(ItemWithoutPrice);
    }
    return Ok(StoredCase(input, catalogue));
  }

  /** Whatever is rolled on a stored case lands on exactly one of its items: an opening never fails after the debit. */
  lemma StoredCaseNeverFails(input: CaseInput, catalogue: map<nat, int>, roll: nat)
    requires PriceAgrees(input) && GateAccepts(input, catalogue) && roll < TICKET_SPACE
    ensures ValidCase(StoredCase(input, catalogue))
    ensures var c := StoredCase(input, catalogue);
            && PickByRoll(RangesOf(c.items), roll).Some? && c.items[Won(c, roll)].price > 0
            && forall k :: 0 <= k < |c.items| && Covers(c.items[k].range, roll) ==> k == Won(c, roll)
  {
    StoredRanges(input, catalogue);
    var c := StoredCase(input, catalogue);
    PickNeverThrows(RangesOf(c.items), roll);
    forall k | 0 <= k < |c.items| && Covers(c.items[k].range, roll) ensures k == Won(c, roll) {
      assert Covers(RangesOf(c.items)[k], roll);
    }
  }

  lemma StoredRanges(input: CaseInput, catalogue: map<nat, int>)
    requires GateAccepts(input, catalogue)
    ensures RangesOf(StoredCase(input, catalogue).items) == AllRounded(BoundsOf(input.items))
    ensures AllInSpace(RangesOf(StoredCase(input, catalogue).items)) && ExactCover(RangesOf(StoredCase(input, catalogue).items))
  {
    var rounded := AllRounded(BoundsOf(input.items));
    assert RangesOf(StoredCase(input, catalogue).items) == rounded;
    forall k | 0 <= k < |rounded| ensures InSpace(rounded[k]) {
      assert WellFormed(BoundsOf(input.items)[k]);
    }
  }

  /** Over all tickets a paid case hands out at most 98% of what opening it that often costs. */
  lemma StoredCaseKeepsTheMargin(input: CaseInput, catalogue: map<nat, int>)
    requires PriceAgrees(input) && GateAccepts(input, catalogue) && !input.isFree
    ensures var ranges, prices := AllRounded(BoundsOf(input.items)), PricesOf(input.items, catalogue);
            PaidOver(ranges, prices, TICKET_SPACE) as real <= 0.98 * (TICKET_SPACE as real * input.price as real)
  {
    var ranges, prices := AllRounded(BoundsOf(input.items)), PricesOf(input.items, catalogue);
    StoredRanges(input, catalogue);
    RtpIsTheAverage(ranges, prices, input.price);
    hide PaidOver, CalculateRtp;
    AtMost(PaidOver(ranges, prices, TICKET_SPACE) as real, input.price as real);
  }

  lemma AtMost(paid: real, price: real)
    requires price > 0.0 && paid / 1_000_000.0 / price <= 0.98
    ensures paid <= 0.98 * (1_000_000.0 * price)
  {
    var x := paid / 1_000_000.0 / price;
    assert x * price == paid / 1_000_000.0;
    assert x * price <= 0.98 * price;
  }
}
