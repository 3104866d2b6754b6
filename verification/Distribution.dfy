/** `distributeRanges`: shares rounded down, clamped up to one ticket, and made to fit. */
module Distribution {
  import opened Apportion
  import opened Reals
  import opened Tickets
  import opened Tilt
  import opened Weights
  import opened Wrappers

  datatype DistributionError = NoShares | MoreItemsThanTickets | TooManyItems

  function Max(a: int, b: int): int {
    if a >= b then a else b
  }

  function Min(a: int, b: int): int {
    if a <= b then a else b
  }

  function Clamped(shares: seq<real>): (widths: seq<int>)
    ensures |widths| == |shares|
  {
    seq(|shares|, i requires 0 <= i < |shares| => Max(1, (shares[i] * 1_000_000.0).Floor))
  }

  /** The first widest of the first `n` widths. */
  function FirstWidest(widths: seq<int>, n: nat): (w: nat)
    requires 1 <= n <= |widths|
    ensures w < n && forall i :: 0 <= i < n ==> widths[i] <= widths[w]
    ensures forall i :: 0 <= i < w ==> widths[i] < widths[w]
  {
    if n == 1 then 0
    else
      var w := FirstWidest(widths, n - 1);
      if widths[n - 1] > widths[w] then n - 1 else w
  }

  predicate AllPositive(widths: seq<int>) {
    forall i :: 0 <= i < |widths| ==> widths[i] >= 1
  }

  /** If the widths still exceed the space, the widest one has a ticket to spare: the throw is unreachable. */
  lemma {:induction false} WidestCanAffordIt(widths: seq<int>)
    requires AllPositive(widths) && widths != [] && |widths| < Total(widths)
    ensures widths[FirstWidest(widths, |widths|)] > 1
  {
    var w := FirstWidest(widths, |widths|);
    if widths[w] <= 1 {
      TotalAtMost(widths, 1);
    }
  }

  lemma {:induction false} TotalAtMost(widths: seq<int>, most: int)
    requires forall i :: 0 <= i < |widths| ==> widths[i] <= most
    ensures Total(widths) <= most * |widths|
  {
    if widths != [] {
      TotalAtMost(widths[..|widths| - 1], most);
      assert most * |widths| == most * (|widths| - 1) + most;
    }
  }

  /** As much of an overrun as the widest range can give. */
  function Taken(widths: seq<int>, over: nat): int
    requires widths != []
  {
    Min(over, widths[FirstWidest(widths, |widths|)] - 1)
  }

  function TakenOnce(widths: seq<int>, over: nat): (r: seq<int>)
    requires widths != []
    ensures |r| == |widths| && Total(r) == Total(widths) - Taken(widths, over)
  {
    var w := FirstWidest(widths, |widths|);
    TotalUpdate(widths, w, widths[w] - Taken(widths, over));
    widths[w := widths[w] - Taken(widths, over)]
  }

  /** Every width can be clamped up and the whole can still fit. */
  predicate Fits(widths: seq<int>, over: int) {
    AllPositive(widths) && widths != [] && |widths| <= Total(widths) - over
  }

  lemma TakingMakesProgress(widths: seq<int>, over: nat)
    requires Fits(widths, over) && over > 0
    ensures 1 <= Taken(widths, over) <= over && Fits(TakenOnce(widths, over), over - Taken(widths, over))
    ensures forall i :: 0 <= i < |widths| ==> TakenOnce(widths, over)[i] <= widths[i]
  {
    WidestCanAffordIt(widths);
  }

  /** Takes an overrun from the widest ranges. */
  function Trimmed(widths: seq<int>, over: nat): (r: seq<int>)
    requires Fits(widths, over)
    ensures |r| == |widths| && AllPositive(r) && Total(r) == Total(widths) - over
    ensures forall i :: 0 <= i < |r| ==> r[i] <= widths[i]
    decreases over
  {
    if over == 0 then widths
    else
      TakingMakesProgress(widths, over);
      Trimmed(TakenOnce(widths, over), over - Taken(widths, over))
  }

  function Topped(widths: seq<int>, spare: nat): (r: seq<int>)
    requires widths != []
    ensures |r| == |widths| && Total(r) == Total(widths) + spare
    ensures forall i :: 0 <= i < |r| ==> r[i] == widths[i] + (if i == FirstWidest(widths, |widths|) then spare else 0)
  {
    var w := FirstWidest(widths, |widths|);
    TotalUpdate(widths, w, widths[w] + spare);
    widths[w := widths[w] + spare]
  }

  /** The width each item ends up with. */
  function Widths(shares: seq<real>): (r: seq<int>)
    requires 1 <= |shares| <= TICKET_SPACE
    ensures |r| == |shares| && AllPositive(r) && Total(r) == TICKET_SPACE
  {
    var widths := Clamped(shares);
    var remainder := TICKET_SPACE - Total(widths);
    if remainder > 0 then Topped(widths, remainder) else Trimmed(widths, -remainder)
  }

  // ----- the source's loops

  method FindWidest(widths: array<int>) returns (widest: nat)
    requires widths.Length > 0
    ensures widest == FirstWidest(widths[..], widths.Length)
  {
    widest := 0;
    for i := 1 to widths.Length
      invariant widest == FirstWidest(widths[..], i)
    {
      if widths[i] > widths[widest] {
        widest := i;
      }
    }
  }

  method AddToWidest(widths: array<int>, spare: nat)
    requires widths.Length > 0
    modifies widths
    ensures widths[..] == Topped(old(widths[..]), spare)
  {
    var widest := FindWidest(widths);
    widths[widest] := widths[widest] + spare;
  }

  method TakeFromWidest(widths: array<int>, over: nat) returns (ok: bool, take: int)
    requires Fits(widths[..], over) && over > 0
    modifies widths
    ensures ok && take == Taken(old(widths[..]), over) && widths[..] == TakenOnce(old(widths[..]), over)
  {
    WidestCanAffordIt(widths[..]);
    var widest := FindWidest(widths);
    if widths[widest] <= 1 {
      return false, 0;
    }
    take := Min(over, widths[widest] - 1);
    widths[widest] := widths[widest] - take;
    ok := true;
  }

  lemma TrimmedStep(widths: seq<int>, over: nat)
    requires Fits(widths, over)
    ensures over == 0 ==> Trimmed(widths, over) == widths
    ensures over > 0 ==>
              && 1 <= Taken(widths, over) <= over && Fits(TakenOnce(widths, over), over - Taken(widths, over))
              && Trimmed(widths, over) == Trimmed(TakenOnce(widths, over), over - Taken(widths, over))
  {
    if over > 0 {
      TakingMakesProgress(widths, over);
    }
  }

  method TakeShortfall(widths: array<int>, shortfall: int) returns (ok: bool)
    requires shortfall >= 0 && Fits(widths[..], shortfall)
    modifies widths
    ensures ok && widths[..] == Trimmed(old(widths[..]), shortfall)
  {
    var remainder := -shortfall;
    ok := true;
    hide TakenOnce, Taken, Fits, Trimmed;
    while remainder < 0 && ok
      invariant ok && remainder <= 0 && Fits(widths[..], -remainder)
      invariant Trimmed(widths[..], -remainder) == Trimmed(old(widths[..]), shortfall)
      decreases -remainder
    {
      TrimmedStep(widths[..], -remainder);
      var take;
      ok, take := TakeFromWidest(widths, -remainder);
      remainder := remainder + take;
    }
    TrimmedStep(widths[..], 0);
  }

  method ClampedWidths(shares: seq<real>) returns (widths: array<int>, total: int)
    ensures fresh(widths) && widths[..] == Clamped(shares) && total == Total(Clamped(shares))
  {
    widths := new int[|shares|](i requires 0 <= i < |shares| => Max(1, (shares[i] * 1_000_000.0).Floor));
    assert widths[..] == Clamped(shares);
    total := 0;
    for i := 0 to widths.Length
      invariant total == Total(Clamped(shares)[..i])
    {
      assert Clamped(shares)[..i + 1][..i] == Clamped(shares)[..i];
      total := total + widths[i];
    }
    assert Clamped(shares)[..widths.Length] == Clamped(shares);
  }

  method FitWidths(shares: seq<real>) returns (widths: array<int>, ok: bool)
    requires 1 <= |shares| <= TICKET_SPACE
    ensures ok && fresh(widths) && widths[..] == Widths(shares)
  {
    var total: int;
    widths, total := ClampedWidths(shares);
    var remainder := TICKET_SPACE - total;
    ok := true;
    hide Total, Clamped, Trimmed, Topped;
    if remainder > 0 {
      AddToWidest(widths, remainder);
    } else {
      ok := TakeShortfall(widths, -remainder);
    }
  }

  method LayOutArray(widths: array<int>) returns (ranges: seq<Range>)
    ensures ranges == LayOut(widths[..], 0)
  {
    ranges := [];
    var cursor := 0;
    for i := 0 to widths.Length
      invariant ranges == LayOut(widths[..i], 0) && cursor == Total(widths[..i])
    {
      LayOutGrows(widths[..i + 1], 0);
      assert widths[..i + 1][..i] == widths[..i];
      ranges := ranges + [Range(cursor, cursor + widths[i] - 1)];
      cursor := cursor + widths[i];
    }
    assert widths[..widths.Length] == widths[..];
  }

  /** It fails only for no items or more items than tickets; otherwise it tiles the space, in the order given. */
  method DistributeRanges(shares: seq<real>) returns (r: Result<seq<Range>, DistributionError>)
    ensures r.Err? <==> !(1 <= |shares| <= TICKET_SPACE)
    ensures r.Err? ==> r.error == if |shares| == 0 then NoShares else MoreItemsThanTickets
    ensures r.Ok? ==> r.value == LayOut(Widths(shares), 0)
    ensures r.Ok? ==> |r.value| == |shares| && TilesFrom(r.value, 0)
    ensures r.Ok? ==> forall i :: 0 <= i < |shares| ==> Tickets.Width(r.value[i]) == Widths(shares)[i] >= 1
  {
    if |shares| == 0 {
      return Err(NoShares);
    }
    if |shares| > TICKET_SPACE {
      return Err(MoreItemsThanTickets);
    }
    var widths, ok := FitWidths(shares);
    if !ok {
      return Err(TooManyItems);
    }
    var ranges := LayOutArray(widths);
    LayOutTiles(Widths(shares), 0);
    return Ok(ranges);
  }

  // ----- what rounding does to the expected price

  predicate IsDistribution(shares: seq<real>) {
    (forall i :: 0 <= i < |shares| ==> shares[i] >= 0.0) && Sum(shares) == 1.0
  }

  /** Either no item loses a whole ticket, or no item gains more than one. */
  lemma OneTicketEach(shares: seq<real>)
    requires 1 <= |shares| <= TICKET_SPACE && IsDistribution(shares)
    ensures var c, e := Widths(shares), Exact(shares);
            || (forall i :: 0 <= i < |e| ==> e[i] - c[i] as real <= 1.0)
            || (forall i :: 0 <= i < |e| ==> c[i] as real - e[i] <= 1.0)
  {
    hide Total, Sum, FirstWidest, Trimmed;
    var c, e := Widths(shares), Exact(shares);
    forall i | 0 <= i < |e|
      ensures TICKET_SPACE > Total(Clamped(shares)) ==> e[i] - c[i] as real <= 1.0
      ensures TICKET_SPACE <= Total(Clamped(shares)) ==> c[i] as real - e[i] <= 1.0
    {
      assert e[i].Floor as real <= e[i] < e[i].Floor as real + 1.0 && e[i] >= 0.0;
      assert Clamped(shares)[i] == Max(1, e[i].Floor);
    }
  }

  /** At most one ticket per item is misplaced. */
  lemma FewTicketsMisplaced(shares: seq<real>)
    requires 1 <= |shares| <= TICKET_SPACE && IsDistribution(shares)
    ensures Sum(AsReals(Widths(shares))) == Sum(Exact(shares)) == 1_000_000.0
    ensures Surplus(AsReals(Widths(shares)), Exact(shares)) <= |shares| as real
  {
    hide Widths, Total, Surplus;
    var c, e := AsReals(Widths(shares)), Exact(shares);
    SumIsTotal(Widths(shares));
    SumOfExact(shares);
    SurplusBalances(c, e);
    hide Sum, Exact;
    OneTicketEach(shares);
    if forall i :: 0 <= i < |e| ==> e[i] - c[i] <= 1.0 {
      SurplusAtMostOneEach(e, c);
    } else {
      SurplusAtMostOneEach(c, e);
    }
  }

  lemma {:induction false} LossIsWithinTotal(before: seq<int>, later: seq<int>, i: nat)
    requires |later| == |before| && i < |before| && forall k :: 0 <= k < |before| ==> later[k] <= before[k]
    ensures before[i] - later[i] <= Total(before) - Total(later)
  {
    var n := |before| - 1;
    if i < n {
      LossIsWithinTotal(before[..n], later[..n], i);
    } else if n > 0 {
      LossIsWithinTotal(before[..n], later[..n], 0);
    }
  }

  lemma {:induction false} TotalNearSum(counts: seq<int>, e: seq<real>)
    requires |counts| == |e| && forall i :: 0 <= i < |e| ==> -1.0 <= counts[i] as real - e[i] <= 1.0
    ensures -(|e| as real) <= Total(counts) as real - Sum(e) <= |e| as real
  {
    if e != [] {
      var n := |e| - 1;
      TotalNearSum(counts[..n], e[..n]);
    }
  }

  /** Making the widths fit moves none by more than they miss the space by. */
  lemma FittingMovesAtMost(shares: seq<real>, i: nat)
    requires 1 <= |shares| <= TICKET_SPACE && i < |shares|
    ensures var spare := TICKET_SPACE - Total(Clamped(shares)); var moved := Widths(shares)[i] - Clamped(shares)[i];
            if spare > 0 then 0 <= moved <= spare else spare <= moved <= 0
  {
    hide Total, FirstWidest, Trimmed, Topped;
    var c := Clamped(shares);
    assert AllPositive(c);
    hide Clamped;
    if Total(c) >= TICKET_SPACE {
      LossIsWithinTotal(c, Trimmed(c, Total(c) - TICKET_SPACE), i);
    }
  }

  lemma ClampedNearExact(shares: seq<real>)
    requires forall k :: 0 <= k < |shares| ==> shares[k] >= 0.0
    ensures forall k :: 0 <= k < |shares| ==> -1.0 <= Clamped(shares)[k] as real - Exact(shares)[k] <= 1.0
  {
    var e := Exact(shares);
    forall k | 0 <= k < |shares| ensures -1.0 <= Clamped(shares)[k] as real - e[k] <= 1.0 {
      assert e[k].Floor as real <= e[k] < e[k].Floor as real + 1.0 && e[k] >= 0.0;
    }
  }

  /** For any shares, how far each width is from its share: the number of items, and what the shares miss one by. */
  lemma EachNearItsShare(shares: seq<real>, i: nat)
    requires 1 <= |shares| <= TICKET_SPACE && i < |shares| && forall k :: 0 <= k < |shares| ==> shares[k] >= 0.0
    ensures var off := if Sum(shares) >= 1.0 then Sum(shares) - 1.0 else 1.0 - Sum(shares);
            var most := (|shares| + 1) as real + off * 1_000_000.0;
            -most <= Widths(shares)[i] as real - shares[i] * 1_000_000.0 <= most
  {
    hide Clamped, Sum, Total, Widths;
    ClampedNearExact(shares);
    TotalNearSum(Clamped(shares), Exact(shares));
    SumOfExact(shares);
    FittingMovesAtMost(shares, i);
  }

  /** So the expected price moves by at most `n * (pmax - pmin) / 1_000_000`. */
  lemma RoundingMovesLittle(shares: seq<real>, prices: seq<int>, low: real, high: real)
    requires 1 <= |shares| == |prices| <= TICKET_SPACE && IsDistribution(shares)
    requires Within(AsReals(prices), low, high)
    ensures var gap := Mul(|shares| as real, high - low) / 1_000_000.0;
            -gap <= Rolls.ExpectedValue(LayOut(Widths(shares), 0), prices) - Dot(shares, AsReals(prices)) <= gap
  {
    hide Widths, Mul, Surplus, Sum, Exact, Dot;
    FewTicketsMisplaced(shares);
    assert low <= AsReals(prices)[0] <= high;
    TableIsCloseToShares(Widths(shares), shares, prices, |shares|, low, high);
  }

  lemma NoDearer(c: real, e: real, q: real)
    requires q >= 0.0 && (c <= e || q == 0.0)
    ensures Mul(c, q) <= Mul(e, q)
  {
  }

  /** If only a cheapest item gets more than its share, the total price does not rise. */
  lemma OnlyCheapestGains(c: seq<real>, e: seq<real>, p: seq<real>, w: nat)
    requires |c| == |e| == |p| && Sum(c) == Sum(e) && w < |p|
    requires forall i :: 0 <= i < |p| ==> p[w] <= p[i] && (i != w ==> c[i] <= e[i])
    ensures Dot(c, p) <= Dot(e, p)
  {
    hide Mul;
    var q := Above(p, p[w]);
    forall i | 0 <= i < |c| ensures Times(c, q)[i] <= Times(e, q)[i] {
      NoDearer(c[i], e[i], q[i]);
    }
    SumLe(Times(c, q), Times(e, q));
    DotAbove(c, p, p[w]);
    DotAbove(e, p, p[w]);
  }

  lemma NothingClamped(shares: seq<real>)
    requires 1 <= |shares| <= TICKET_SPACE && IsDistribution(shares)
    requires forall i :: 0 <= i < |shares| ==> Exact(shares)[i] >= 1.0
    ensures forall i :: 0 <= i < |shares| && i != FirstWidest(Clamped(shares), |shares|) ==>
              Widths(shares)[i] as real <= Exact(shares)[i]
  {
    var e := Exact(shares);
    assert Clamped(shares) == Floors(e);
    SumOfExact(shares);
    FloorsFallShort(e);
    assert Total(Clamped(shares)) <= TICKET_SPACE;
    hide Total, Sum, FirstWidest;
    forall i | 0 <= i < |shares| && i != FirstWidest(Clamped(shares), |shares|)
      ensures Widths(shares)[i] as real <= e[i]
    {
      assert Widths(shares)[i] <= Clamped(shares)[i] == e[i].Floor;
      assert e[i].Floor as real <= e[i];
    }
  }

  /** When no share was clamped up and the remainder goes to a cheapest item, rounding never raises it. */
  lemma RoundingNeverRaises(shares: seq<real>, prices: seq<int>)
    requires 1 <= |shares| == |prices| <= TICKET_SPACE && IsDistribution(shares)
    requires forall i :: 0 <= i < |shares| ==> Exact(shares)[i] >= 1.0
    requires forall i :: 0 <= i < |prices| ==> prices[FirstWidest(Clamped(shares), |shares|)] <= prices[i]
    ensures Rolls.ExpectedValue(LayOut(Widths(shares), 0), prices) <= Dot(shares, AsReals(prices))
  {
    NothingClamped(shares);
    FewTicketsMisplaced(shares);
    hide Widths, Dot, Total, Sum, Exact, Surplus, Clamped, FirstWidest, IsDistribution;
    OnlyCheapestGains(AsReals(Widths(shares)), Exact(shares), AsReals(prices), FirstWidest(Clamped(shares), |shares|));
    TableValue(Widths(shares), prices);
    ExactValue(shares, AsReals(prices));
  }
}
