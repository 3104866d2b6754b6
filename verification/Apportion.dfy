/**
 * Whole tickets for fractional shares: what moving tickets between items can
 * do to the expected price, and how counts become ranges.
 */
module Apportion {
  import opened Reals
  import opened Rolls
  import opened Tickets
  import opened Tilt
  import opened Weights

  function Total(counts: seq<int>): int {
    if counts == [] then 0 else Total(counts[..|counts| - 1]) + counts[|counts| - 1]
  }

  function AsReals(counts: seq<int>): (a: seq<real>)
    ensures |a| == |counts|
  {
    seq(|counts|, i requires 0 <= i < |counts| => counts[i] as real)
  }

  lemma {:induction false} SumIsTotal(counts: seq<int>)
    ensures Sum(AsReals(counts)) == Total(counts) as real
  {
    if counts != [] {
      var n := |counts| - 1;
      SumIsTotal(counts[..n]);
      assert AsReals(counts)[..n] == AsReals(counts[..n]);
    }
  }

  lemma {:induction false} TotalUpdate(counts: seq<int>, i: nat, x: int)
    requires i < |counts|
    ensures Total(counts[i := x]) == Total(counts) - counts[i] + x
  {
    var n := |counts| - 1;
    if i == n {
      assert counts[i := x][..n] == counts[..n];
    } else {
      TotalUpdate(counts[..n], i, x);
      assert counts[i := x][..n] == counts[..n][i := x];
    }
  }

  /** The tickets each share is worth before rounding. */
  function Exact(shares: seq<real>): (e: seq<real>)
    ensures |e| == |shares|
  {
    seq(|shares|, i requires 0 <= i < |shares| => shares[i] * 1_000_000.0)
  }

  lemma {:induction false} SumOfExact(shares: seq<real>)
    ensures Sum(Exact(shares)) == Sum(shares) * 1_000_000.0
  {
    if shares != [] {
      var n := |shares| - 1;
      SumOfExact(shares[..n]);
      assert Exact(shares)[..n] == Exact(shares[..n]);
    }
  }

  function Floors(exact: seq<real>): (f: seq<int>)
    ensures |f| == |exact|
  {
    seq(|exact|, i requires 0 <= i < |exact| => exact[i].Floor)
  }

  /** Rounding down loses less than one ticket per item. */
  lemma {:induction false} FloorsFallShort(exact: seq<real>)
    ensures Total(Floors(exact)) as real <= Sum(exact)
    ensures exact != [] ==> Sum(exact) < Total(Floors(exact)) as real + |exact| as real
    ensures exact == [] ==> Sum(exact) == 0.0
  {
    if exact != [] {
      var n := |exact| - 1;
      FloorsFallShort(exact[..n]);
      assert Floors(exact)[..n] == Floors(exact[..n]);
    }
  }

  // ----- misplaced tickets

  function Positivity(x: real): real {
    if x > 0.0 then x else 0.0
  }

  /** The tickets `c` hands out beyond `e`. */
  function Surplus(c: seq<real>, e: seq<real>): real
    requires |c| == |e|
  {
    if c == [] then 0.0
    else
      var n := |c| - 1;
      Surplus(c[..n], e[..n]) + Positivity(c[n] - e[n])
  }

  /** With equal totals, what one table has too much of the other has too little of. */
  lemma {:induction false} SurplusBalances(c: seq<real>, e: seq<real>)
    requires |c| == |e|
    ensures Surplus(c, e) - Surplus(e, c) == Sum(c) - Sum(e)
    ensures Surplus(c, e) >= 0.0
  {
    if c != [] {
      var n := |c| - 1;
      SurplusBalances(c[..n], e[..n]);
    }
  }

  lemma {:induction false} SurplusAtMostOneEach(c: seq<real>, e: seq<real>)
    requires |c| == |e| && forall i :: 0 <= i < |c| ==> c[i] - e[i] <= 1.0
    ensures Surplus(c, e) <= |c| as real
  {
    if c != [] {
      SurplusAtMostOneEach(c[..|c| - 1], e[..|c| - 1]);
    }
  }

  lemma ShiftTerm(c: real, e: real, q: real, spread: real)
    requires 0.0 <= q <= spread
    ensures Mul(c, q) - Mul(e, q) <= Mul(Positivity(c - e), spread)
  {
    hide Mul;
    Distribute(q, c, e);
    ProductSign(c - e, q);
    ProductSign(0.0, spread);
    if c - e > 0.0 {
      ScaleLe(q, spread, c - e);
    }
  }

  lemma {:induction false} ShiftFromSurplus(c: seq<real>, e: seq<real>, q: seq<real>, spread: real)
    requires |c| == |e| == |q| && Within(q, 0.0, spread)
    ensures Dot(c, q) - Dot(e, q) <= Mul(Surplus(c, e), spread)
  {
    hide Mul, Positivity;
    if c == [] {
      assert Times(c, q) == [] && Times(e, q) == [];
      ProductSign(0.0, spread);
    } else {
      var n := |c| - 1;
      ShiftFromSurplus(c[..n], e[..n], q[..n], spread);
      DotGrows(c, q);
      DotGrows(e, q);
      ShiftTerm(c[n], e[n], q[n], spread);
      Distribute(spread, Surplus(c[..n], e[..n]), Positivity(c[n] - e[n]));
      hide Dot;
    }
  }

  /** Moving at most `moved` tickets moves the total price by at most `moved` times the price spread. */
  lemma MisplacedTickets(c: seq<real>, e: seq<real>, p: seq<real>, moved: real, low: real, high: real)
    requires |c| == |e| == |p| && Sum(c) == Sum(e) && Within(p, low, high) && low <= high
    requires Surplus(c, e) <= moved
    ensures -Mul(moved, high - low) <= Dot(c, p) - Dot(e, p) <= Mul(moved, high - low)
  {
    hide Mul, Surplus, Dot;
    var q := Above(p, low);
    SurplusBalances(c, e);
    ShiftFromSurplus(c, e, q, high - low);
    ShiftFromSurplus(e, c, q, high - low);
    DotAbove(c, p, low);
    DotAbove(e, p, low);
    ScaleLe(Surplus(c, e), moved, high - low);
  }

  // ----- ranges

  /** Consecutive ranges of the given widths. */
  function LayOut(widths: seq<int>, cursor: int): (s: seq<Range>)
    ensures |s| == |widths|
  {
    if widths == [] then []
    else [Range(cursor, cursor + widths[0] - 1)] + LayOut(widths[1..], cursor + widths[0])
  }

  lemma {:induction false} TotalHead(widths: seq<int>)
    requires widths != []
    ensures Total(widths) == widths[0] + Total(widths[1..])
  {
    var n := |widths| - 1;
    if n > 0 {
      TotalHead(widths[..n]);
      assert widths[1..][..n - 1] == widths[..n][1..];
    }
  }

  /** Positive widths that add up to the ticket space tile it, in the order given. */
  lemma {:induction false} LayOutTiles(widths: seq<int>, cursor: int)
    requires forall i :: 0 <= i < |widths| ==> widths[i] >= 1
    requires cursor + Total(widths) == TICKET_SPACE
    ensures TilesFrom(LayOut(widths, cursor), cursor)
    ensures forall i :: 0 <= i < |widths| ==> Width(LayOut(widths, cursor)[i]) == widths[i]
  {
    if widths != [] {
      TotalHead(widths);
      LayOutTiles(widths[1..], cursor + widths[0]);
      forall i | 0 <= i < |widths| ensures Width(LayOut(widths, cursor)[i]) == widths[i] {
        if i > 0 {
          assert LayOut(widths, cursor)[i] == LayOut(widths[1..], cursor + widths[0])[i - 1];
        }
      }
    }
  }

  lemma {:induction false} LayOutGrows(widths: seq<int>, cursor: int)
    requires widths != []
    ensures var n := |widths| - 1;
            var end := cursor + Total(widths[..n]);
            LayOut(widths, cursor) == LayOut(widths[..n], cursor) + [Range(end, end + widths[n] - 1)]
  {
    var n := |widths| - 1;
    if n > 0 {
      LayOutGrows(widths[1..], cursor + widths[0]);
      assert widths[1..][..n - 1] == widths[..n][1..];
      TotalHead(widths[..n]);
    } else {
      assert widths[..0] == [] && widths[1..] == [];
    }
  }

  // ----- what a laid-out table pays

  lemma {:induction false} WidthPayIsDot(widths: seq<int>, cursor: int, prices: seq<int>)
    requires |widths| == |prices|
    ensures WidthPay(LayOut(widths, cursor), prices) as real == Dot(AsReals(widths), AsReals(prices))
  {
    if widths == [] {
      assert Times(AsReals(widths), AsReals(prices)) == [];
    } else {
      var n := |widths| - 1;
      WidthPayIsDot(widths[..n], cursor, prices[..n]);
      LayOutGrows(widths, cursor);
      assert LayOut(widths, cursor)[..n] == LayOut(widths[..n], cursor);
      assert AsReals(widths)[..n] == AsReals(widths[..n]) && AsReals(prices)[..n] == AsReals(prices[..n]);
      DotGrows(AsReals(widths), AsReals(prices));
      ProductAsReal(widths[n], prices[n]);
      hide Dot, Mul;
    }
  }

  lemma ProductAsReal(a: int, b: int)
    ensures (a * b) as real == Mul(a as real, b as real)
  {
  }

  /** The range formula is the weighted price of the counts, a millionth of it per ticket. */
  lemma TableValue(widths: seq<int>, prices: seq<int>)
    requires |widths| == |prices|
    ensures ExpectedValue(LayOut(widths, 0), prices) == Dot(AsReals(widths), AsReals(prices)) / 1_000_000.0
  {
    WidthPayIsDot(widths, 0, prices);
    ExpectedIsWidthPay(LayOut(widths, 0), prices);
    hide Dot, WidthPay;
  }

  lemma {:induction false} ExactValue(shares: seq<real>, p: seq<real>)
    requires |shares| == |p|
    ensures Dot(Exact(shares), p) == Dot(shares, p) * 1_000_000.0
  {
    if shares == [] {
      assert Times(Exact(shares), p) == [] && Times(shares, p) == [];
    } else {
      var n := |shares| - 1;
      ExactValue(shares[..n], p[..n]);
      assert Exact(shares)[..n] == Exact(shares[..n]);
      DotGrows(Exact(shares), p);
      DotGrows(shares, p);
      MillionTimes(shares[n], p[n]);
      hide Dot, Mul;
    }
  }

  lemma MillionTimes(s: real, p: real)
    ensures Mul(s * 1_000_000.0, p) == Mul(s, p) * 1_000_000.0
  {
  }

  /** A table that misplaces at most `moved` tickets is this close to the value of the shares it rounds. */
  lemma TableIsCloseToShares(widths: seq<int>, shares: seq<real>, prices: seq<int>, moved: nat, low: real, high: real)
    requires |widths| == |shares| == |prices| && Within(AsReals(prices), low, high) && low <= high
    requires Sum(AsReals(widths)) == Sum(Exact(shares)) && Surplus(AsReals(widths), Exact(shares)) <= moved as real
    ensures var gap := Mul(moved as real, high - low) / 1_000_000.0;
            -gap <= ExpectedValue(LayOut(widths, 0), prices) - Dot(shares, AsReals(prices)) <= gap
  {
    hide Mul, Dot, Surplus, Sum, ExpectedValue;
    MisplacedTickets(AsReals(widths), Exact(shares), AsReals(prices), moved as real, low, high);
    TableValue(widths, prices);
    ExactValue(shares, AsReals(prices));
  }
}
