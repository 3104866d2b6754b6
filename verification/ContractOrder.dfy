/** When the outcome table of a contract depends on the order its candidates come in. */
module ContractOrder {
  import opened Apportion
  import opened Bisection
  import opened ContractOdds
  import opened ContractPool
  import opened Exponential
  import opened LargestRemainder
  import opened Reals
  import opened Sorting
  import opened Tilt
  import opened Weights

  /** No item id has two different prices inside the band. */
  ghost predicate OneBandPriceEach(candidates: seq<Candidate>, band: Band) {
    forall c, d :: c in candidates && d in candidates && InBand(c, band) && InBand(d, band) && c.itemId == d.itemId ==> c == d
  }

  /** Every ordering of these candidates keeps the same ones. */
  ghost predicate KeptForgetsOrder(a: seq<Candidate>, band: Band) {
    forall b :: multiset(b) == multiset(a) ==> multiset(FirstInBand(b, band)) == multiset(FirstInBand(a, band))
  }

  lemma {:induction false} DistinctCount(s: seq<Candidate>, c: Candidate)
    requires DistinctIds(s)
    ensures multiset(s)[c] == if c in s then 1 else 0
  {
    if s != [] {
      var n := |s| - 1;
      assert s == s[..n] + [s[n]];
      DistinctCount(s[..n], c);
      if s[n] == c {
        assert c !in s[..n];
      }
    }
  }

  lemma KeptBoth(a: seq<Candidate>, b: seq<Candidate>, band: Band, c: Candidate)
    requires (forall x :: x in a <==> x in b) && OneBandPriceEach(a, band)
    ensures c in FirstInBand(a, band) ==> c in FirstInBand(b, band)
  {
    FirstInBandIs(a, band);
    FirstInBandIs(b, band);
    if c in FirstInBand(a, band) {
      assert c in b && c.itemId in IdsOf(FirstInBand(b, band));
      var d :| d in FirstInBand(b, band) && d.itemId == c.itemId;
      assert d in a;
    }
  }

  lemma SameKept(a: seq<Candidate>, b: seq<Candidate>, band: Band)
    requires multiset(a) == multiset(b) && OneBandPriceEach(a, band)
    ensures multiset(FirstInBand(a, band)) == multiset(FirstInBand(b, band))
  {
    SameMembers(a, b);
    FirstInBandIs(a, band);
    FirstInBandIs(b, band);
    var ka, kb := FirstInBand(a, band), FirstInBand(b, band);
    hide FirstInBand;
    forall c ensures multiset(ka)[c] == multiset(kb)[c] {
      DistinctCount(ka, c);
      DistinctCount(kb, c);
      KeptBoth(a, b, band, c);
      KeptBoth(b, a, band, c);
    }
  }

  /** Whoever comes first and is in the band is kept. */
  lemma {:induction false} FirstIsKept(c: Candidate, rest: seq<Candidate>, band: Band)
    requires InBand(c, band)
    ensures c in FirstInBand([c] + rest, band)
  {
    var s := [c] + rest;
    if rest == [] {
      assert s[..0] == [] && FirstInBand(s[..0], band) == [];
    } else {
      var n := |rest| - 1;
      assert s[..|s| - 1] == [c] + rest[..n];
      FirstIsKept(c, rest[..n], band);
    }
  }

  /** An ordering that starts with a given candidate. */
  lemma StartWith(a: seq<Candidate>, c: Candidate) returns (rest: seq<Candidate>)
    requires c in a
    ensures multiset([c] + rest) == multiset(a)
  {
    var i :| 0 <= i < |a| && a[i] == c;
    rest := a[..i] + a[i + 1..];
    assert a == a[..i] + [c] + a[i + 1..];
  }

  lemma InBandIsKept(a: seq<Candidate>, band: Band, c: Candidate)
    requires KeptForgetsOrder(a, band) && c in a && InBand(c, band)
    ensures c in FirstInBand(a, band)
  {
    hide FirstInBand, InBand;
    var rest := StartWith(a, c);
    FirstIsKept(c, rest, band);
    SameMembers(FirstInBand([c] + rest, band), FirstInBand(a, band));
  }

  /** Two different in-band prices of one id cannot both be kept, so whichever comes first decides. */
  lemma TwoPricesConflict(a: seq<Candidate>, band: Band, c: Candidate, d: Candidate)
    requires KeptForgetsOrder(a, band) && c in a && d in a && InBand(c, band) && InBand(d, band) && c.itemId == d.itemId
    ensures c == d
  {
    InBandIsKept(a, band, c);
    InBandIsKept(a, band, d);
    FirstInBandIs(a, band);
    hide FirstInBand, KeptForgetsOrder;
  }

  /** The candidates kept are the same in every order if and only if no id has two different in-band prices. */
  lemma KeptForgetsOrderIff(a: seq<Candidate>, band: Band)
    ensures KeptForgetsOrder(a, band) <==> OneBandPriceEach(a, band)
  {
    if OneBandPriceEach(a, band) {
      forall b | multiset(b) == multiset(a) ensures multiset(FirstInBand(b, band)) == multiset(FirstInBand(a, band)) {
        SameKept(a, b, band);
      }
    }
    if KeptForgetsOrder(a, band) {
      forall c, d | c in a && d in a && InBand(c, band) && InBand(d, band) && c.itemId == d.itemId ensures c == d {
        TwoPricesConflict(a, band, c, d);
      }
    }
  }

  /** Then every permutation of the candidates is answered alike. */
  lemma OrderDoesNotMatter(m: Maths, a: seq<Candidate>, b: seq<Candidate>, stake: int)
    requires m.Valid() && multiset(a) == multiset(b) && OneBandPriceEach(a, RewardBand(stake))
    ensures BuiltPool(m, a, stake) == BuiltPool(m, b, stake)
  {
    var band := RewardBand(stake);
    SameKept(a, b, band);
    CheaperFirstIsTotal();
    FirstInBandIs(a, band);
    var kept := FirstInBand(a, band);
    forall x, y | x in kept && y in kept && CheaperFirst(x, y) && CheaperFirst(y, x) ensures x == y {
      assert x.itemId == y.itemId;
    }
    SortForgetsOrder(kept, FirstInBand(b, band), CheaperFirst);
  }

  // ----- two orders of one catalogue, one accepted and one not

  const COMMON := [Candidate(1, 800), Candidate(2, 850), Candidate(3, 875), Candidate(4, 875)]
  const DEAR := Candidate(5, 1100)
  const CHEAP := Candidate(5, 880)
  const BALANCED_PRICES := [800.0, 850.0, 875.0, 875.0, 1100.0]

  /** A second candidate of an id that is kept already changes nothing. */
  lemma SecondPriceIsSkipped(m: Maths, pool: seq<Candidate>, c: Candidate, stake: int)
    requires m.Valid() && GoodPool(pool, stake) && CONTRACT_MIN_POOL <= |pool| <= CONTRACT_POOL_SIZE
    requires c.itemId in IdsOf(pool)
    ensures BuiltPool(m, pool + [c], stake) == Solve(m, pool, stake)
  {
    var band := RewardBand(stake);
    OrderedIsKept(pool, band);
    OrderedIsItsOwnBand(pool, band);
    assert (pool + [c])[..|pool|] == pool;
    assert SortedBand(pool + [c], band) == pool;
    hide SortedBand, RewardBand, Solve;
  }

  /** The pool these two candidates of item 5 leave: the first of them decides. */
  lemma PoolOf(m: Maths, first: Candidate, second: Candidate)
    requires m.Valid() && ((first == DEAR && second == CHEAP) || (first == CHEAP && second == DEAR))
    ensures GoodPool(COMMON + [first], 1000)
    ensures BuiltPool(m, COMMON + [first, second], 1000) == Solve(m, COMMON + [first], 1000)
  {
    var s := COMMON + [first];
    assert RewardBand(1000) == Band(100, 5000);
    hide BuiltPool, Solve, RewardBand, IsExp, IsLog;
    assert s[4] in s;
    SecondPriceIsSkipped(m, s, second, 1000);
    assert COMMON + [first, second] == s + [second];
  }

  lemma PricesInReals()
    ensures AsReals(PricesOf(COMMON + [DEAR])) == BALANCED_PRICES
  {
  }

  /** Untilted, the five items are worth 900 on average. */
  lemma UntiltedMean(t: Tilted)
    requires t.Valid() && t.prices == BALANCED_PRICES
    ensures t.Ev(0.0) == 900.0
  {
    var w := t.Raw(0.0);
    forall i | 0 <= i < 5 ensures w[i] == 1.0 {
      NoSlope(t.scale[i]);
      ExpAtZero(t.exp);
    }
    t.RawIsPositive(0.0);
    EvenMean(w);
  }

  lemma NoSlope(s: real)
    ensures Slope(0.0, s) == 0.0
  {
  }

  lemma EvenMean(w: seq<real>)
    requires |w| == 5 && Sum(w) > 0.0 && forall i :: 0 <= i < 5 ==> w[i] == 1.0
    ensures Mean(w, BALANCED_PRICES) == 900.0
  {
    assert Times(w, BALANCED_PRICES) == BALANCED_PRICES;
    SumOfFive(w);
    SumOfFive(BALANCED_PRICES);
  }

  /** The search for that average ends next to no tilt at all. */
  lemma HardlyTilted(t: Tilted, times: nat)
    requires t.Valid() && t.prices == BALANCED_PRICES && times >= 80
    ensures -2.0 <= Halved(t, 900.0, WHOLE, times).Mid() <= 0.0
  {
    UntiltedMean(t);
    HalvedStep(t, 900.0, WHOLE, times);
    forall k | k < 0.0 ensures t.Ev(k) > 900.0 {
      t.EvFallsStrictly(k, 0.0, 0, 4);
    }
    var b := Bracket(-100.0, 0.0);
    assert Halve(t, 900.0, WHOLE) == b;
    hide Halved;
    RunsIntoTheEnd(t, 900.0, b, times - 1);
    HundredOver(times as real);
  }

  lemma HundredOver(n: real)
    requires n >= 80.0
    ensures 100.0 / n <= 2.0
  {
  }

  /** So every outcome keeps a fair share. */
  lemma FairWeights(t: Tilted, k: real)
    requires t.Valid() && Within(t.scale, 0.0, 1.0) && -2.0 <= k <= 0.0
    ensures Within(t.Raw(k), 1.0, 16.0)
  {
    hide Mul, Follows;
    ExpAtZero(t.exp);
    ExpPositive(t.exp, 1.0);
    ExpOfOneBelowFour(t.exp);
    ExpAdd(t.exp, 1.0, 1.0);
    AtMostSixteen(t.exp(1.0));
    forall i | 0 <= i < |t.scale| ensures 1.0 <= t.Raw(k)[i] <= 16.0 {
      GentleSlope(k, t.scale[i]);
      var x := Slope(k, t.scale[i]);
      if x > 0.0 {
        ExpGrows(t.exp, 0.0, x);
      }
      if x < 2.0 {
        ExpGrows(t.exp, x, 2.0);
      }
    }
  }

  lemma AtMostSixteen(e: real)
    requires 0.0 <= e <= 4.0
    ensures Mul(e, e) <= 16.0
  {
    ScaleLe(e, 4.0, e);
  }

  lemma GentleSlope(k: real, s: real)
    requires -2.0 <= k <= 0.0 && 0.0 <= s <= 1.0
    ensures 0.0 <= Slope(k, s) <= 2.0
  {
    ScaleLe(-2.0, k, s);
    ProductSign(k, s);
  }

  lemma FairShares(w: seq<real>, i: nat)
    requires |w| == 5 && Within(w, 1.0, 16.0) && i < 5
    ensures Sum(w) > 0.0 && Normal(w)[i] >= 0.0125
  {
    SumOfFive(w);
    QuotientOrder(0.0125, 1.0, w[i], Sum(w));
  }

  lemma FairShareWins(weights: seq<real>)
    requires IsShares(weights) && forall i :: 0 <= i < |weights| ==> weights[i] >= 0.0125
    ensures AllWin(Allocation(weights))
  {
    AllocationIsLargestRemainder(weights);
    hide Allocation;
    forall i | 0 <= i < |weights| ensures Allocation(weights)[i] > 0 {
      assert 0 <= Extra(weights, i) && Exact(weights)[i] >= 12_500.0;
    }
  }

  lemma EveryoneWinsHere(m: Maths, prices: seq<real>, k: real)
    requires m.Valid() && Solvable(prices) && |prices| == 5 && -2.0 <= k <= 0.0 && IsShares(PoolWeights(m, prices, k))
    ensures AllWin(Allocation(PoolWeights(m, prices, k)))
  {
    var t := PoolTilt(m, prices);
    ShiftCancels(m, prices, k);
    FairWeights(t, k);
    hide Allocation, PoolTilt;
    forall i | 0 <= i < 5 ensures PoolWeights(m, prices, k)[i] >= 0.0125 {
      FairShares(t.Raw(k), i);
    }
    FairShareWins(PoolWeights(m, prices, k));
  }

  lemma DearFirstIsAccepted(m: Maths)
    requires m.Valid()
    ensures GoodPool(COMMON + [DEAR], 1000) && Solve(m, COMMON + [DEAR], 1000).Accepted?
  {
    hide Halved, Allocation;
    PoolOf(m, DEAR, CHEAP);
    hide BuiltPool;
    PricesInReals();
    var pool := COMMON + [DEAR];
    PoolIsSolvable(pool, 1000);
    var t := PoolTilt(m, BALANCED_PRICES);
    HardlyTilted(t, HALVINGS);
    var k := SolvedAlpha(m, BALANCED_PRICES, Target(1000));
    TiltedWeightsAddUp(m, BALANCED_PRICES, k);
    EveryoneWinsHere(m, BALANCED_PRICES, k);
    hide PoolTilt, PoolWeights, Table;
  }

  lemma CheapFirstIsRejected(m: Maths)
    requires m.Valid()
    ensures GoodPool(COMMON + [CHEAP], 1000) && Solve(m, COMMON + [CHEAP], 1000) == Rejected(CannotBalance)
  {
    PoolOf(m, CHEAP, DEAR);
    hide BuiltPool, GoodPool, PoolCounts;
    assert (COMMON + [CHEAP])[4] == CHEAP && !Balanceable(COMMON + [CHEAP], 1000);
  }

  lemma SwapLast(s: seq<Candidate>, c: Candidate, d: Candidate)
    ensures multiset(s + [c, d]) == multiset(s + [d, c])
  {
    assert s + [c, d] == s + [c] + [d] && s + [d, c] == s + [d] + [c];
  }

  /**
   * With two in-band prices for one id, the order decides: one order of these
   * six candidates gives a table, another is turned away.
   */
  lemma OrderMattersWithTwoPrices(m: Maths)
    requires m.Valid()
    ensures multiset(COMMON + [DEAR, CHEAP]) == multiset(COMMON + [CHEAP, DEAR])
    ensures BuiltPool(m, COMMON + [DEAR, CHEAP], 1000).Accepted?
    ensures BuiltPool(m, COMMON + [CHEAP, DEAR], 1000) == Rejected(CannotBalance)
  {
    hide Solve, GoodPool, BuiltPool;
    PoolOf(m, DEAR, CHEAP);
    PoolOf(m, CHEAP, DEAR);
    DearFirstIsAccepted(m);
    CheapFirstIsRejected(m);
    SwapLast(COMMON, DEAR, CHEAP);
  }
}
