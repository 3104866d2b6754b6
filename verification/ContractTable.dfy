/** What an accepted contract table holds, and what it is worth. */
module ContractTable {
  import opened Apportion
  import opened Bisection
  import opened ContractOdds
  import opened ContractPool
  import opened ContractReach
  import opened Exponential
  import opened LargestRemainder
  import opened Reals
  import opened Rolls
  import opened Tickets
  import opened Tilt
  import opened Weights

  function RangesOf(outcomes: seq<Outcome>): (s: seq<Range>)
    ensures |s| == |outcomes|
  {
    seq(|outcomes|, i requires 0 <= i < |outcomes| => outcomes[i].range)
  }

  function OutcomePrices(outcomes: seq<Outcome>): (p: seq<int>)
    ensures |p| == |outcomes|
  {
    seq(|outcomes|, i requires 0 <= i < |outcomes| => outcomes[i].price)
  }

  /** The pool the accepted table was laid out from. */
  function FinalPool(m: Maths, pool: seq<Candidate>, stake: int): (f: seq<Candidate>)
    requires m.Valid() && GoodPool(pool, stake) && Solve(m, pool, stake).Accepted?
    ensures GoodPool(f, stake) && Balanceable(f, stake) && |f| <= |pool|
    ensures |f| >= CONTRACT_MIN_POOL || f == pool
    ensures forall c :: c in f ==> c in pool
    ensures AllWin(PoolCounts(m, f, stake))
    ensures Solve(m, pool, stake) == Table(f, PoolCounts(m, f, stake), stake)
    decreases |pool|
  {
    var counts := PoolCounts(m, pool, stake);
    if AllWin(counts) then pool
    else
      SurvivorsAreGood(pool, counts, stake);
      SurvivorsKeepOrder(pool, counts);
      FinalPool(m, Survivors(pool, counts), stake)
  }

  function ItemOf(o: Outcome): Candidate {
    Candidate(o.itemId, o.price)
  }

  /** 5 to 12 distinct items of the catalogue, in price order (ties by id), all inside the reward band. */
  ghost predicate SoundItems(o: seq<Outcome>, candidates: seq<Candidate>, band: Band) {
    && CONTRACT_MIN_POOL <= |o| <= CONTRACT_POOL_SIZE
    && (forall i :: 0 <= i < |o| ==> ItemOf(o[i]) in candidates && InBand(ItemOf(o[i]), band))
    && (forall i, j :: 0 <= i < j < |o| ==>
          o[i].itemId != o[j].itemId && (o[i].price < o[j].price || (o[i].price == o[j].price && o[i].itemId < o[j].itemId)))
  }

  /** Every outcome owns at least one ticket, in list order, and together they tile the ticket space. */
  ghost predicate SoundRanges(o: seq<Outcome>) {
    && TilesFrom(RangesOf(o), 0)
    && (forall i :: 0 <= i < |o| ==> Width(o[i].range) >= 1 && o[i].chance == RangeChance(o[i].range))
  }

  /** An accepted table, with the value of its whole tickets reported. */
  ghost predicate SoundTable(r: PoolResult, candidates: seq<Candidate>, stake: int)
    requires r.Accepted? && stake > 0
  {
    && SoundItems(r.outcomes, candidates, RewardBand(stake)) && SoundRanges(r.outcomes)
    && r.rewardRange == RewardBand(stake)
    && r.expectedValue == ExpectedValue(RangesOf(r.outcomes), OutcomePrices(r.outcomes)) == Mul(r.rtp, stake as real)
  }

  lemma ItemsAreSound(candidates: seq<Candidate>, pool: seq<Candidate>, ranges: seq<Range>, band: Band)
    requires Ordered(pool) && AllInBand(pool, band) && CONTRACT_MIN_POOL <= |pool| == |ranges| <= CONTRACT_POOL_SIZE
    requires forall c :: c in pool ==> c in candidates
    ensures SoundItems(Outcomes(pool, ranges), candidates, band)
  {
    var o := Outcomes(pool, ranges);
    forall i | 0 <= i < |o| ensures ItemOf(o[i]) in candidates && InBand(ItemOf(o[i]), band) {
      assert pool[i] in pool && pool[i] == ItemOf(o[i]);
    }
    forall i, j | 0 <= i < j < |o|
      ensures o[i].itemId != o[j].itemId
      ensures o[i].price < o[j].price || (o[i].price == o[j].price && o[i].itemId < o[j].itemId)
    {
      assert CheaperFirst(pool[i], pool[j]);
    }
  }

  lemma RangesAreSound(pool: seq<Candidate>, counts: seq<int>)
    requires |counts| == |pool| && AllWin(counts) && Total(counts) == TICKET_SPACE
    ensures SoundRanges(Outcomes(pool, LayOut(counts, 0)))
    ensures RangesOf(Outcomes(pool, LayOut(counts, 0))) == LayOut(counts, 0)
  {
    var o := Outcomes(pool, LayOut(counts, 0));
    LayOutTiles(counts, 0);
    assert RangesOf(o) == LayOut(counts, 0);
    hide LayOut, Total, RangeChance;
    forall i | 0 <= i < |o| ensures Width(o[i].range) >= 1 {
      assert counts[i] > 0;
    }
  }

  lemma TableIsSound(candidates: seq<Candidate>, pool: seq<Candidate>, counts: seq<int>, stake: int)
    requires GoodPool(pool, stake) && CONTRACT_MIN_POOL <= |pool| <= CONTRACT_POOL_SIZE && |counts| == |pool|
    requires AllWin(counts) && Total(counts) == TICKET_SPACE
    requires forall c :: c in pool ==> c in candidates
    ensures SoundTable(Table(pool, counts, stake), candidates, stake)
  {
    ItemsAreSound(candidates, pool, LayOut(counts, 0), RewardBand(stake));
    RangesAreSound(pool, counts);
    var o := Outcomes(pool, LayOut(counts, 0));
    assert OutcomePrices(o) == PricesOf(pool);
    hide SoundItems, SoundRanges, RewardBand, ExpectedValue, LayOut, Total, RangesOf, OutcomePrices, PricesOf, Mul, Div;
    DivideBack(ExpectedValue(LayOut(counts, 0), PricesOf(pool)), stake as real);
  }

  lemma AcceptedTableIsSound(m: Maths, candidates: seq<Candidate>, stake: int)
    requires m.Valid() && BuiltPool(m, candidates, stake).Accepted?
    ensures SoundTable(BuiltPool(m, candidates, stake), candidates, stake)
  {
    FirstPoolIsGood(candidates, stake);
    SortedBandIsOrdered(candidates, RewardBand(stake));
    SpreadKeepsEnds(SortedBand(candidates, RewardBand(stake)), CONTRACT_POOL_SIZE);
    hide SortedBand, TakeSpread, RewardBand, PoolCounts, Solve, Table;
    var pool := FirstPool(candidates, stake);
    var f := FinalPool(m, pool, stake);
    TableIsSound(candidates, f, PoolCounts(m, f, stake), stake);
  }

  /** Weights that fall with the price by one power of the price ratio, and counts that round them. */
  ghost predicate OddsFollow(m: Maths, weights: seq<real>, alpha: real, o: seq<Outcome>) {
    && |weights| == |o| > 0 && Sum(weights) == 1.0
    && m.ln(o[0].price as real) < m.ln(o[|o| - 1].price as real)
    && (forall i, j :: 0 <= i < |o| && 0 <= j < |o| ==> WeighedByPrice(m, weights, alpha, o, i, j))
    && (forall i :: 0 <= i < |o| ==> Rounds(Width(o[i].range), weights[i] * 1_000_000.0))
  }

  predicate WeighedByPrice(m: Maths, weights: seq<real>, alpha: real, o: seq<Outcome>, i: nat, j: nat)
    requires |weights| == |o| && i < |o| && j < |o| && m.ln(o[0].price as real) < m.ln(o[|o| - 1].price as real)
  {
    var apart := Mul(alpha, m.ln(o[j].price as real) - m.ln(o[i].price as real));
    weights[i] == Mul(weights[j], m.exp(Div(apart, m.ln(o[|o| - 1].price as real) - m.ln(o[0].price as real))))
  }

  predicate Rounds(count: int, exact: real) {
    count == exact.Floor || count == exact.Floor + 1
  }

  lemma WeightsAreByPrice(m: Maths, weights: seq<real>, alpha: real, pool: seq<Candidate>, o: seq<Outcome>)
    requires |o| == |pool| && forall i :: 0 <= i < |o| ==> o[i].price == pool[i].price
    requires m.Valid() && Solvable(AsReals(PricesOf(pool))) && weights == PoolWeights(m, AsReals(PricesOf(pool)), alpha)
    ensures o != [] && m.ln(o[0].price as real) < m.ln(o[|o| - 1].price as real)
    ensures forall i, j :: 0 <= i < |o| && 0 <= j < |o| ==> WeighedByPrice(m, weights, alpha, o, i, j)
  {
    hide PoolWeights, IsExp, IsLog, Mul, Div;
    var prices := AsReals(PricesOf(pool));
    WeightsFollowPrices(m, prices, alpha, 0, 0);
    forall i, j | 0 <= i < |o| && 0 <= j < |o| ensures WeighedByPrice(m, weights, alpha, o, i, j) {
      WeightsFollowPrices(m, prices, alpha, i, j);
    }
  }

  lemma PoolOddsFollow(m: Maths, pool: seq<Candidate>, stake: int)
    requires m.Valid() && GoodPool(pool, stake) && Balanceable(pool, stake) && AllWin(PoolCounts(m, pool, stake))
    ensures var r := Table(pool, PoolCounts(m, pool, stake), stake); var prices := AsReals(PricesOf(pool));
            && Solvable(prices)
            && var alpha := SolvedAlpha(m, prices, Target(stake)); OddsFollow(m, PoolWeights(m, prices, alpha), alpha, r.outcomes)
  {
    hide SolvedAlpha, PoolWeights, IsExp, IsLog, Mul, Div, Sum, LayOut, ExpectedValue, Total, Allocation, Solvable, WeighedByPrice;
    PoolIsSolvable(pool, stake);
    var prices := AsReals(PricesOf(pool));
    var alpha := SolvedAlpha(m, prices, Target(stake));
    var weights, counts := PoolWeights(m, prices, alpha), PoolCounts(m, pool, stake);
    var o := Table(pool, counts, stake).outcomes;
    TiltedWeightsAddUp(m, prices, alpha);
    AllocationIsLargestRemainder(weights);
    LayOutTiles(counts, 0);
    WeightsAreByPrice(m, weights, alpha, pool, o);
    forall i | 0 <= i < |o| ensures Rounds(Width(o[i].range), weights[i] * 1_000_000.0) {
      assert 0 <= Extra(weights, i) <= 1;
    }
  }

  /** The odds of an accepted table fall with the price: any two outcomes by a power of their price ratio, to a ticket. */
  lemma AcceptedOddsFollowPrices(m: Maths, candidates: seq<Candidate>, stake: int)
    requires m.Valid() && BuiltPool(m, candidates, stake).Accepted?
    ensures exists weights, alpha :: OddsFollow(m, weights, alpha, BuiltPool(m, candidates, stake).outcomes)
  {
    FirstPoolIsGood(candidates, stake);
    hide PoolCounts, Table, OddsFollow, RewardBand, SortedBand, Solve;
    var f := FinalPool(m, FirstPool(candidates, stake), stake);
    PoolOddsFollow(m, f, stake);
  }

  // ----- what it returns

  function CheapestOf(pool: seq<Candidate>): real
    requires pool != []
  {
    pool[0].price as real
  }

  function DearestOf(pool: seq<Candidate>): real
    requires pool != []
  {
    pool[|pool| - 1].price as real
  }

  /** How far the table may end from its target: the last bracket's width, and one ticket per outcome. */
  function Tolerance(pool: seq<Candidate>): real
    requires pool != []
  {
    var spread := DearestOf(pool) - CheapestOf(pool);
    Mul(Div(200.0, Pow2(HALVINGS)), spread) + Mul(|pool| as real, spread) / 1_000_000.0
  }

  lemma PricesWithin(pool: seq<Candidate>, stake: int)
    requires GoodPool(pool, stake)
    ensures CheapestOf(pool) <= DearestOf(pool)
    ensures Within(AsReals(PricesOf(pool)), CheapestOf(pool), DearestOf(pool))
  {
    var p, n := AsReals(PricesOf(pool)), |pool|;
    forall i | 0 <= i < n ensures CheapestOf(pool) <= p[i] <= DearestOf(pool) {
      assert i > 0 ==> CheaperFirst(pool[0], pool[i]);
      assert i < n - 1 ==> CheaperFirst(pool[i], pool[n - 1]);
    }
  }

  /** The tilted weights the counts are rounded from. */
  function SolvedWeights(m: Maths, pool: seq<Candidate>, stake: int): (w: seq<real>)
    requires m.Valid() && GoodPool(pool, stake) && Balanceable(pool, stake)
    ensures |w| == |pool|
  {
    PoolIsSolvable(pool, stake);
    var prices := AsReals(PricesOf(pool));
    PoolWeights(m, prices, SolvedAlpha(m, prices, Target(stake)))
  }

  lemma SolvedWeightsAreClose(m: Maths, pool: seq<Candidate>, stake: int)
    requires m.Valid() && GoodPool(pool, stake) && Balanceable(pool, stake) && PoolStraddles(m, pool, stake)
    ensures var gap := Mul(Div(200.0, Pow2(HALVINGS)), DearestOf(pool) - CheapestOf(pool));
            -gap <= Dot(SolvedWeights(m, pool, stake), AsReals(PricesOf(pool))) - Target(stake) <= gap
  {
    hide Halved, Pow2, IsExp, IsLog, PoolWeights, PoolValue, SolvedAlpha, Dot, Mul, Div, Solvable, GoodPool;
    PoolIsSolvable(pool, stake);
    PricesWithin(pool, stake);
    var prices := AsReals(PricesOf(pool));
    PoolValueIsEv(m, prices, SolvedAlpha(m, prices, Target(stake)));
    PoolValueIsEv(m, prices, -ALPHA_BOUND);
    PoolValueIsEv(m, prices, ALPHA_BOUND);
    hide PoolTilt, Target, CheapestOf, DearestOf, PricesOf, AsReals;
    SolvedAlphaIsClose(m, prices, Target(stake), CheapestOf(pool), DearestOf(pool));
  }

  lemma CountsRoundWeights(m: Maths, pool: seq<Candidate>, stake: int)
    requires m.Valid() && GoodPool(pool, stake) && Balanceable(pool, stake)
    ensures var w, counts := SolvedWeights(m, pool, stake), PoolCounts(m, pool, stake);
            Sum(AsReals(counts)) == Sum(Exact(w)) && Surplus(AsReals(counts), Exact(w)) <= |pool| as real
  {
    hide Halved;
    PoolIsSolvable(pool, stake);
    var prices := AsReals(PricesOf(pool));
    TiltedWeightsAddUp(m, prices, SolvedAlpha(m, prices, Target(stake)));
    hide SolvedAlpha, PoolWeights, Sum, Surplus, Allocation;
    SharesAreRounded(SolvedWeights(m, pool, stake));
  }

  lemma PoolCountsAreClose(m: Maths, pool: seq<Candidate>, stake: int)
    requires m.Valid() && GoodPool(pool, stake) && Balanceable(pool, stake) && PoolStraddles(m, pool, stake)
    ensures -Tolerance(pool) <= ExpectedValue(LayOut(PoolCounts(m, pool, stake), 0), PricesOf(pool)) - Target(stake)
    ensures ExpectedValue(LayOut(PoolCounts(m, pool, stake), 0), PricesOf(pool)) - Target(stake) <= Tolerance(pool)
  {
    hide SolvedWeights, PoolCounts, PoolStraddles, Pow2, Mul, Div, Sum, Surplus, Dot, ExpectedValue, LayOut, Target,
         CheapestOf, DearestOf, PricesOf, AsReals, Balanceable, GoodPool, Exact, Within;
    PricesWithin(pool, stake);
    SolvedWeightsAreClose(m, pool, stake);
    CountsRoundWeights(m, pool, stake);
    var w, counts := SolvedWeights(m, pool, stake), PoolCounts(m, pool, stake);
    TableIsCloseToShares(counts, w, PricesOf(pool), |pool|, CheapestOf(pool), DearestOf(pool));
  }

  /** The pool a table is laid out from is one the search could balance: otherwise an end of it owns no ticket. */
  lemma FinalPoolStraddles(m: Maths, pool: seq<Candidate>, stake: int)
    requires m.Valid() && GoodPool(pool, stake) && |pool| <= CONTRACT_POOL_SIZE && Solve(m, pool, stake).Accepted?
    ensures PoolStraddles(m, FinalPool(m, pool, stake), stake)
  {
    hide PoolCounts, PoolStraddles, Solve, Table;
    var f := FinalPool(m, pool, stake);
    if !PoolStraddles(m, f, stake) {
      UnreachedTargetDropsAnEnd(m, f, stake);
    }
  }

  /** The expected value of every accepted whole-ticket table is within `Tolerance` of 0.9 times the stake. */
  lemma AcceptedTablePaysTheTarget(m: Maths, candidates: seq<Candidate>, stake: int)
    requires m.Valid() && BuiltPool(m, candidates, stake).Accepted?
    ensures GoodPool(FirstPool(candidates, stake), stake)
    ensures var f := FinalPool(m, FirstPool(candidates, stake), stake);
            -Tolerance(f) <= BuiltPool(m, candidates, stake).expectedValue - Target(stake) <= Tolerance(f)
  {
    FirstPoolIsGood(candidates, stake);
    var pool := FirstPool(candidates, stake);
    hide PoolCounts, Tolerance, PoolStraddles, Solve, FirstPool;
    FinalPoolStraddles(m, pool, stake);
    PoolCountsAreClose(m, FinalPool(m, pool, stake), stake);
  }
}
