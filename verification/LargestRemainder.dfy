/** `allocateTickets`: whole tickets by largest remainder. */
module LargestRemainder {
  import opened Apportion
  import opened Reals
  import opened Sorting
  import opened Tickets
  import opened Weights

  datatype Slot = Slot(index: nat, remainder: real)

  function RemainderOf(x: real): (r: real)
    ensures 0.0 <= r < 1.0
  {
    x - x.Floor as real
  }

  function Slots(exact: seq<real>): (s: seq<Slot>)
    ensures |s| == |exact|
  {
    seq(|exact|, i requires 0 <= i < |exact| => Slot(i, RemainderOf(exact[i])))
  }

  /** Larger remainders first, ties by index. */
  predicate FirstServed(a: Slot, b: Slot) {
    a.remainder > b.remainder || (a.remainder == b.remainder && a.index <= b.index)
  }

  lemma FirstServedIsTotal()
    ensures TotalPreorder(FirstServed)
  {
  }

  function ByRemainder(exact: seq<real>): seq<Slot> {
    SortBy(Slots(exact), FirstServed)
  }

  /** A list in which every index appears once. */
  ghost predicate OneSlotEach(order: seq<Slot>, n: nat) {
    && |order| == n
    && (forall k :: 0 <= k < n ==> order[k].index < n)
    && (forall j, k :: 0 <= j < k < n ==> order[j].index != order[k].index)
  }

  lemma OrderHasOneSlotEach(exact: seq<real>)
    ensures OneSlotEach(ByRemainder(exact), |exact|) && Sorted(ByRemainder(exact), FirstServed)
    ensures forall k :: 0 <= k < |exact| ==> ByRemainder(exact)[k] in Slots(exact)
  {
    FirstServedIsTotal();
    SortBySorts(Slots(exact), FirstServed);
    var slots, order := Slots(exact), ByRemainder(exact);
    SameMembers(slots, order);
    forall k | 0 <= k < |exact| ensures order[k] in slots {
      assert order[k] in order;
    }
    forall j, k | 0 <= j < k < |exact| ensures order[j].index != order[k].index {
      assert order[j] in slots && order[k] in slots;
      if order[j].index == order[k].index {
        assert order[j] == order[k];
        CountOnce(order, j, k);
        Distinct(slots, order[j]);
      }
    }
  }

  lemma SlotIsServed(exact: seq<real>, j: nat)
    requires j < |exact|
    ensures exists l :: 0 <= l < |ByRemainder(exact)| && ByRemainder(exact)[l].index == j
  {
    FirstServedIsTotal();
    SortBySorts(Slots(exact), FirstServed);
    SameMembers(Slots(exact), ByRemainder(exact));
    assert Slots(exact)[j] in Slots(exact);
  }

  /** One more ticket for each of the first `m` slots. */
  function TopUp(counts: seq<int>, order: seq<Slot>, m: nat): (r: seq<int>)
    requires m <= |order| && forall k :: 0 <= k < |order| ==> order[k].index < |counts|
    ensures |r| == |counts|
  {
    if m == 0 then counts
    else
      var r := TopUp(counts, order, m - 1);
      var i := order[m - 1].index;
      r[i := r[i] + 1]
  }

  predicate Topped(order: seq<Slot>, m: nat, i: nat)
    requires m <= |order|
  {
    exists k :: 0 <= k < m && order[k].index == i
  }

  lemma {:induction false} TopUpAddsOnceEach(counts: seq<int>, order: seq<Slot>, m: nat)
    requires OneSlotEach(order, |counts|) && m <= |order|
    ensures Total(TopUp(counts, order, m)) == Total(counts) + m
    ensures forall i :: 0 <= i < |counts| ==>
              TopUp(counts, order, m)[i] == counts[i] + (if Topped(order, m, i) then 1 else 0)
  {
    if m > 0 {
      var r, at := TopUp(counts, order, m - 1), order[m - 1].index;
      TopUpAddsOnceEach(counts, order, m - 1);
      TotalUpdate(r, at, r[at] + 1);
      assert !Topped(order, m - 1, at);
      forall i | 0 <= i < |counts|
        ensures Topped(order, m, i) <==> Topped(order, m - 1, i) || i == at
      {
        if i == at {
          assert order[m - 1].index == i;
        }
      }
    }
  }

  predicate IsShares(weights: seq<real>) {
    (forall i :: 0 <= i < |weights| ==> weights[i] >= 0.0) && Sum(weights) == 1.0
  }

  function Extras(weights: seq<real>): int {
    TICKET_SPACE - Total(Floors(Exact(weights)))
  }

  /** Fewer top-ups than items, so no item is topped up twice. */
  lemma ExtrasAreFew(weights: seq<real>)
    requires IsShares(weights)
    ensures weights != [] && 0 <= Extras(weights) < |weights|
  {
    SumOfExact(weights);
    FloorsFallShort(Exact(weights));
  }

  function Allocation(weights: seq<real>): (counts: seq<int>)
    requires IsShares(weights)
    ensures |counts| == |weights|
  {
    ExtrasAreFew(weights);
    OrderHasOneSlotEach(Exact(weights));
    TopUp(Floors(Exact(weights)), ByRemainder(Exact(weights)), Extras(weights))
  }

  /** The extra ticket an item gets over its rounded-down share. */
  function Extra(weights: seq<real>, i: nat): int
    requires IsShares(weights) && i < |weights|
  {
    Allocation(weights)[i] - Exact(weights)[i].Floor
  }

  /**
   * The allocation is complete, each count is its share rounded down or one
   * more, and the items topped up are those with the largest remainders.
   */
  lemma AllocationIsLargestRemainder(weights: seq<real>)
    requires IsShares(weights)
    ensures Total(Allocation(weights)) == TICKET_SPACE
    ensures forall i :: 0 <= i < |weights| ==> 0 <= Extra(weights, i) <= 1 && Allocation(weights)[i] >= 0
    ensures forall i, j :: 0 <= i < |weights| && 0 <= j < |weights| && Extra(weights, i) == 1 && Extra(weights, j) == 0
              ==> FirstServed(Slots(Exact(weights))[i], Slots(Exact(weights))[j])
  {
    var exact := Exact(weights);
    var order, m := ByRemainder(exact), Extras(weights);
    ExtrasAreFew(weights);
    OrderHasOneSlotEach(exact);
    TopUpAddsOnceEach(Floors(exact), order, m);
    forall i, j | 0 <= i < |weights| && 0 <= j < |weights| && Extra(weights, i) == 1 && Extra(weights, j) == 0
      ensures FirstServed(Slots(exact)[i], Slots(exact)[j])
    {
      assert Topped(order, m, i) && !Topped(order, m, j);
      var k :| 0 <= k < m && order[k].index == i;
      SlotIsServed(exact, j);
      var l :| 0 <= l < |exact| && order[l].index == j;
      assert order[k] == Slots(exact)[i] && order[l] == Slots(exact)[j];
      assert k < l;
    }
  }

  lemma SmallModulo(k: nat, n: nat)
    requires k < n
    ensures k % n == k
  {
  }

  method RoundDown(exact: seq<real>) returns (counts: array<int>, handedOut: int)
    ensures fresh(counts) && counts[..] == Floors(exact) && handedOut == Total(Floors(exact))
  {
    counts := new int[|exact|](i requires 0 <= i < |exact| => exact[i].Floor);
    assert counts[..] == Floors(exact);
    handedOut := 0;
    for i := 0 to counts.Length
      invariant handedOut == Total(Floors(exact)[..i])
    {
      assert Floors(exact)[..i + 1][..i] == Floors(exact)[..i];
      handedOut := handedOut + counts[i];
    }
    assert Floors(exact)[..counts.Length] == Floors(exact);
  }

  /** Hands out the tickets still missing, in remainder order. */
  method HandOutRest(counts: array<int>, byRemainder: seq<Slot>, start: int)
    requires 0 <= TICKET_SPACE - start < |byRemainder|
    requires forall k :: 0 <= k < |byRemainder| ==> byRemainder[k].index < counts.Length
    modifies counts
    ensures counts[..] == TopUp(old(counts[..]), byRemainder, TICKET_SPACE - start)
  {
    var handedOut, k := start, 0;
    while handedOut < TICKET_SPACE
      invariant 0 <= k <= TICKET_SPACE - start && handedOut == start + k
      invariant counts[..] == TopUp(old(counts[..]), byRemainder, k)
    {
      SmallModulo(k, |byRemainder|);
      var at := byRemainder[k % |byRemainder|].index;
      counts[at] := counts[at] + 1;
      handedOut := handedOut + 1;
      k := k + 1;
    }
  }

  /** The source's loops: round down, sort by remainder, hand out what is left. */
  method AllocateTickets(weights: seq<real>) returns (counts: array<int>)
    requires IsShares(weights)
    ensures fresh(counts) && counts[..] == Allocation(weights)
  {
    var exact := Exact(weights);
    var handedOut: int;
    counts, handedOut := RoundDown(exact);
    ExtrasAreFew(weights);
    OrderHasOneSlotEach(exact);
    HandOutRest(counts, ByRemainder(exact), handedOut);
  }

  lemma SharesAreRounded(weights: seq<real>)
    requires IsShares(weights)
    ensures Sum(AsReals(Allocation(weights))) == Sum(Exact(weights)) == 1_000_000.0
    ensures Surplus(AsReals(Allocation(weights)), Exact(weights)) <= |weights| as real
  {
    AllocationIsLargestRemainder(weights);
    SumIsTotal(Allocation(weights));
    SumOfExact(weights);
    var c, e := AsReals(Allocation(weights)), Exact(weights);
    forall i | 0 <= i < |c| ensures c[i] - e[i] <= 1.0 {
      assert Extra(weights, i) <= 1;
      assert e[i].Floor as real <= e[i];
    }
    SurplusAtMostOneEach(c, e);
  }

  // ----- who is left without a ticket

  /** Whoever gets a ticket has at least as large a share as anyone left without one. */
  lemma UnservedHaveLess(weights: seq<real>, i: nat, j: nat)
    requires IsShares(weights) && i < |weights| && j < |weights|
    requires Allocation(weights)[i] > 0 && Allocation(weights)[j] == 0
    ensures weights[j] <= weights[i]
  {
    AllocationIsLargestRemainder(weights);
    var e := Exact(weights);
    assert 0 <= Extra(weights, i) <= 1 && 0 <= Extra(weights, j) <= 1;
    assert e[i] >= 0.0 && e[j] >= 0.0;
    if Extra(weights, i) == 1 {
      assert FirstServed(Slots(e)[i], Slots(e)[j]);
    }
  }

  lemma {:induction false} SumWithSlack(e: seq<real>, c: seq<real>, slack: real, j: nat)
    requires |e| == |c| && j < |e| && e[j] <= c[j] + slack - 1.0
    requires forall i :: 0 <= i < |e| ==> e[i] <= c[i] + slack
    ensures Sum(e) <= Sum(c) + Mul(|e| as real, slack) - 1.0
  {
    hide Mul;
    var n := |e| - 1;
    OneMoreTime(n as real, slack);
    if j < n {
      SumWithSlack(e[..n], c[..n], slack, j);
    } else {
      SumWithinSlack(e[..n], c[..n], slack);
    }
  }

  lemma {:induction false} SumWithinSlack(e: seq<real>, c: seq<real>, slack: real)
    requires |e| == |c| && forall i :: 0 <= i < |e| ==> e[i] <= c[i] + slack
    ensures Sum(e) <= Sum(c) + Mul(|e| as real, slack)
  {
    hide Mul;
    if e == [] {
      ProductSign(0.0, slack);
    } else {
      var n := |e| - 1;
      OneMoreTime(n as real, slack);
      SumWithinSlack(e[..n], c[..n], slack);
    }
  }

  lemma OneMoreTime(n: real, slack: real)
    ensures Mul(n + 1.0, slack) == Mul(n, slack) + slack
  {
  }

  /** A share of less than one n-th of a ticket among n gets none: a top-up of it would exceed the ticket space. */
  lemma SliverGetsNothing(weights: seq<real>, j: nat)
    requires IsShares(weights) && j < |weights|
    requires Mul(|weights| as real, Exact(weights)[j]) < 1.0
    ensures Allocation(weights)[j] == 0
  {
    AllocationIsLargestRemainder(weights);
    SharesAreRounded(weights);
    var e, c := Exact(weights), AsReals(Allocation(weights));
    assert e[j] >= 0.0;
    AtMostAllOfThem(|weights| as real, e[j]);
    hide Mul, Sum;
    if Extra(weights, j) == 1 {
      forall i | 0 <= i < |e| ensures e[i] <= c[i] + e[j] {
        assert 0 <= Extra(weights, i) <= 1;
        if Extra(weights, i) == 0 {
          assert FirstServed(Slots(e)[j], Slots(e)[i]);
        }
      }
      SumWithSlack(e, c, e[j], j);
    }
  }

  lemma AtMostAllOfThem(n: real, x: real)
    requires n >= 1.0 && x >= 0.0
    ensures x <= Mul(n, x)
  {
    ScaleLe(1.0, n, x);
  }
}
