/** `buildContractPool`: from a catalogue and a stake to the outcome table of a contract. */
module ContractPool {
  import opened Apportion
  import opened ContractOdds
  import opened LargestRemainder
  import opened Reals
  import opened Rolls
  import opened Sorting
  import opened Tickets

  const CONTRACT_RTP := 0.9
  const CONTRACT_MIN_MULTIPLIER := 0.1
  const CONTRACT_MAX_MULTIPLIER := 5.0
  const CONTRACT_POOL_SIZE := 12
  const CONTRACT_MIN_POOL := 5

  datatype Candidate = Candidate(itemId: nat, price: int)

  datatype Band = Band(min: int, max: int)

  datatype Outcome = Outcome(itemId: nat, price: int, range: Range, chance: real)

  datatype Rejection = NoPrice | NotEnoughItems(band: Band) | CannotBalance

  datatype PoolResult =
    | Accepted(outcomes: seq<Outcome>, rewardRange: Band, expectedValue: real, rtp: real)
    | Rejected(reason: Rejection)

  // ----- the band and the candidates in it

  function Ceil(x: real): int {
    -((-x).Floor)
  }

  function RewardBand(stake: int): Band {
    Band(Ceil(stake as real * CONTRACT_MIN_MULTIPLIER), (stake as real * CONTRACT_MAX_MULTIPLIER).Floor)
  }

  predicate InBand(c: Candidate, band: Band) {
    band.min <= c.price <= band.max
  }

  function IdsOf(s: seq<Candidate>): set<nat> {
    set c | c in s :: c.itemId
  }

  /** The in-band candidates, the first of each item id only. */
  function FirstInBand(candidates: seq<Candidate>, band: Band): seq<Candidate> {
    if candidates == [] then []
    else
      var n := |candidates| - 1;
      var kept := FirstInBand(candidates[..n], band);
      var c := candidates[n];
      if InBand(c, band) && c.itemId !in IdsOf(kept) then kept + [c] else kept
  }

  predicate CheaperFirst(a: Candidate, b: Candidate) {
    a.price < b.price || (a.price == b.price && a.itemId <= b.itemId)
  }

  lemma CheaperFirstIsTotal()
    ensures TotalPreorder(CheaperFirst)
  {
  }

  ghost predicate DistinctIds(s: seq<Candidate>) {
    forall i, j :: 0 <= i < j < |s| ==> s[i].itemId != s[j].itemId
  }

  lemma {:induction false} FirstInBandIs(candidates: seq<Candidate>, band: Band)
    ensures DistinctIds(FirstInBand(candidates, band))
    ensures forall c :: c in FirstInBand(candidates, band) ==> c in candidates && InBand(c, band)
    ensures forall c :: c in candidates && InBand(c, band) ==> c.itemId in IdsOf(FirstInBand(candidates, band))
  {
    if candidates != [] {
      var n := |candidates| - 1;
      FirstInBandIs(candidates[..n], band);
      assert candidates == candidates[..n] + [candidates[n]];
      var kept, r := FirstInBand(candidates[..n], band), FirstInBand(candidates, band);
      forall i, j | 0 <= i < j < |r| ensures r[i].itemId != r[j].itemId {
        if j == |kept| {
          assert kept[i] in kept;
        }
      }
    }
  }

  /** In band, and no candidate before it is in band under the same id. */
  predicate IsFirst(candidates: seq<Candidate>, band: Band, k: nat) {
    && k < |candidates| && InBand(candidates[k], band)
    && forall j :: 0 <= j < k && InBand(candidates[j], band) ==> candidates[j].itemId != candidates[k].itemId
  }

  ghost predicate HasFirst(candidates: seq<Candidate>, band: Band, c: Candidate) {
    exists k: nat :: IsFirst(candidates, band, k) && candidates[k] == c
  }

  lemma FirstAmongMore(candidates: seq<Candidate>, band: Band, c: Candidate)
    requires candidates != []
    ensures var n := |candidates| - 1;
            HasFirst(candidates, band, c)
            <==> HasFirst(candidates[..n], band, c) || (IsFirst(candidates, band, n) && candidates[n] == c)
  {
    var n := |candidates| - 1;
    assert forall k: nat :: k < n ==> (IsFirst(candidates, band, k) <==> IsFirst(candidates[..n], band, k));
    if HasFirst(candidates[..n], band, c) {
      var k: nat :| IsFirst(candidates[..n], band, k) && candidates[..n][k] == c;
      assert IsFirst(candidates, band, k) && candidates[k] == c;
    }
  }

  /** Of several in-band prices of one id the first in the list is kept, and nothing else. */
  lemma {:induction false} KeptAreFirst(candidates: seq<Candidate>, band: Band)
    ensures forall c :: c in FirstInBand(candidates, band) <==> HasFirst(candidates, band, c)
  {
    if candidates != [] {
      var n := |candidates| - 1;
      var kept := FirstInBand(candidates[..n], band);
      KeptAreFirst(candidates[..n], band);
      FirstInBandIs(candidates[..n], band);
      assert candidates == candidates[..n] + [candidates[n]];
      assert IsFirst(candidates, band, n) <==> InBand(candidates[n], band) && candidates[n].itemId !in IdsOf(kept) by {
        assert forall j :: 0 <= j < n ==> candidates[j] in candidates[..n];
      }
      hide HasFirst, IsFirst;
      forall c ensures c in FirstInBand(candidates, band) <==> HasFirst(candidates, band, c) {
        FirstAmongMore(candidates, band, c);
      }
    }
  }

  // ----- the spread

  function Round(x: real): int {
    (x + 0.5).Floor
  }

  function SpreadIndex(n: nat, size: nat, i: nat): int
    requires size >= 2
  {
    Round(Mul(i as real, Div((n - 1) as real, (size - 1) as real)))
  }

  /** The sampled positions are valid, strictly increasing, and keep both ends. */
  lemma SpreadSteps(n: nat, size: nat, i: nat)
    requires 2 <= size < n && i < size
    ensures 0 <= SpreadIndex(n, size, i) < n
    ensures i == 0 ==> SpreadIndex(n, size, i) == 0
    ensures i == size - 1 ==> SpreadIndex(n, size, i) == n - 1
    ensures i + 1 < size ==> SpreadIndex(n, size, i) < SpreadIndex(n, size, i + 1)
  {
    hide Mul, Div;
    var a, b := (n - 1) as real, (size - 1) as real;
    var step := Div(a, b);
    StepAboveOne(a, b);
    DivideBack(a, b);
    ProductSign(i as real, step);
    Reassociate(b, step, 0.0);
    ScaleLe(i as real, b, step);
    Distribute(step, i as real, 1.0);
    StepOnce(step);
    assert (i + 1) as real == i as real + 1.0;
  }

  lemma StepAboveOne(a: real, b: real)
    requires a > b > 0.0
    ensures Div(a, b) > 1.0
  {
  }

  lemma StepOnce(step: real)
    ensures Mul(1.0, step) == step
  {
  }

  lemma {:induction false} SpreadIncreases(n: nat, size: nat, i: nat, j: nat)
    requires 2 <= size < n && i < j < size
    ensures SpreadIndex(n, size, i) < SpreadIndex(n, size, j)
    decreases j - i
  {
    hide SpreadIndex;
    SpreadSteps(n, size, i);
    if i + 1 < j {
      SpreadIncreases(n, size, i + 1, j);
    }
  }

  function TakeSpread<T>(items: seq<T>, size: nat): (r: seq<T>)
    requires size >= 2
    ensures |r| == if |items| <= size then |items| else size
  {
    if |items| <= size then items
    else seq(size, i requires 0 <= i < size => SpreadSteps(|items|, size, i); items[SpreadIndex(|items|, size, i)])
  }

  /** The sample keeps the order of what it keeps... */
  lemma SpreadKeepsOrder<T>(items: seq<T>, size: nat, i: nat, j: nat) returns (a: nat, b: nat)
    requires size >= 2 && i < j < |TakeSpread(items, size)|
    ensures a < b < |items| && TakeSpread(items, size)[i] == items[a] && TakeSpread(items, size)[j] == items[b]
  {
    hide SpreadIndex;
    if |items| > size {
      SpreadSteps(|items|, size, i);
      SpreadSteps(|items|, size, j);
      SpreadIncreases(|items|, size, i, j);
      return SpreadIndex(|items|, size, i), SpreadIndex(|items|, size, j);
    }
    return i, j;
  }

  /** ...and both ends. */
  lemma SpreadKeepsEnds<T>(items: seq<T>, size: nat)
    requires size >= 2 && items != []
    ensures var r := TakeSpread(items, size); r[0] == items[0] && r[|r| - 1] == items[|items| - 1]
    ensures forall x :: x in TakeSpread(items, size) ==> x in items
  {
    hide SpreadIndex;
    var r := TakeSpread(items, size);
    if |items| > size {
      SpreadSteps(|items|, size, 0);
      SpreadSteps(|items|, size, size - 1);
      forall x | x in r ensures x in items {
        var i :| 0 <= i < |r| && r[i] == x;
        SpreadSteps(|items|, size, i);
      }
    }
  }

  /** The sample is even: each place is the whole number nearest to its share of the way, halves up. */
  lemma SampleIsEven<T>(items: seq<T>, size: nat, i: nat)
    requires 2 <= size < |items| && i < size
    ensures var at := SpreadIndex(|items|, size, i);
            && 0 <= at < |items| && TakeSpread(items, size)[i] == items[at]
            && -(size - 1) < 2 * (at * (size - 1) - i * (|items| - 1)) <= size - 1
  {
    SpreadSteps(|items|, size, i);
    NearestWhole(i, |items| - 1, size - 1);
  }

  lemma NearestWhole(i: int, a: int, b: int)
    requires b > 0
    ensures var at := Round(Mul(i as real, Div(a as real, b as real))); -b < 2 * (at * b - i * a) <= b
  {
    var x := Mul(i as real, Div(a as real, b as real));
    var at := Round(x);
    assert x * b as real == (i * a) as real;
    assert x - 0.5 < at as real <= x + 0.5;
    ScaleLt(x - 0.5, at as real, b as real);
    ScaleLe(at as real, x + 0.5, b as real);
    assert (at * b) as real == at as real * b as real;
  }

  /** A whole price is in the band exactly when it is between a tenth and five times the stake. */
  lemma BandIsExact(stake: int, c: Candidate)
    ensures InBand(c, RewardBand(stake)) <==> 0.1 * stake as real <= c.price as real <= 5.0 * stake as real
  {
  }

  // ----- one attempt

  function PricesOf(pool: seq<Candidate>): (p: seq<int>)
    ensures |p| == |pool|
  {
    seq(|pool|, i requires 0 <= i < |pool| => pool[i].price)
  }

  /** In price order, ties by id, no id twice. */
  ghost predicate Ordered(pool: seq<Candidate>) {
    forall i, j :: 0 <= i < j < |pool| ==> CheaperFirst(pool[i], pool[j]) && pool[i].itemId != pool[j].itemId
  }

  ghost predicate AllInBand(pool: seq<Candidate>, band: Band) {
    forall i :: 0 <= i < |pool| ==> InBand(pool[i], band)
  }

  ghost predicate GoodPool(pool: seq<Candidate>, stake: int) {
    stake > 0 && pool != [] && Ordered(pool) && AllInBand(pool, RewardBand(stake))
  }

  function Target(stake: int): real {
    stake as real * CONTRACT_RTP
  }

  /** The target lies strictly between the cheapest and the dearest price. */
  predicate Balanceable(pool: seq<Candidate>, stake: int)
    requires pool != []
  {
    pool[0].price as real < Target(stake) < pool[|pool| - 1].price as real
  }

  lemma PoolIsSolvable(pool: seq<Candidate>, stake: int)
    requires GoodPool(pool, stake) && Balanceable(pool, stake)
    ensures Solvable(AsReals(PricesOf(pool)))
  {
    assert RewardBand(stake).min >= 1;
    var p := AsReals(PricesOf(pool));
    forall i | 0 <= i < |p| ensures p[i] > 0.0 {
      assert InBand(pool[i], RewardBand(stake));
    }
    forall i, j | 0 <= i < j < |p| ensures p[i] <= p[j] {
      assert CheaperFirst(pool[i], pool[j]);
    }
  }

  /** The ticket counts the solver gives a pool. */
  function PoolCounts(m: Maths, pool: seq<Candidate>, stake: int): (counts: seq<int>)
    requires m.Valid() && GoodPool(pool, stake) && Balanceable(pool, stake)
    ensures |counts| == |pool| && Total(counts) == TICKET_SPACE && forall i :: 0 <= i < |counts| ==> counts[i] >= 0
  {
    PoolIsSolvable(pool, stake);
    var prices := AsReals(PricesOf(pool));
    var weights := PoolWeights(m, prices, SolvedAlpha(m, prices, Target(stake)));
    TiltedWeightsAddUp(m, prices, SolvedAlpha(m, prices, Target(stake)));
    AllocationIsLargestRemainder(weights);
    Allocation(weights)
  }

  predicate AllWin(counts: seq<int>) {
    forall i :: 0 <= i < |counts| ==> counts[i] > 0
  }

  /** The outcomes that own at least one ticket. */
  function Survivors(pool: seq<Candidate>, counts: seq<int>): (r: seq<Candidate>)
    requires |counts| == |pool|
    ensures |r| <= |pool| && (!AllWin(counts) ==> |r| < |pool|)
  {
    if pool == [] then []
    else
      var n := |pool| - 1;
      var rest := Survivors(pool[..n], counts[..n]);
      assert AllWin(counts[..n]) && counts[n] > 0 ==> AllWin(counts);
      if counts[n] > 0 then rest + [pool[n]] else rest
  }

  lemma {:induction false} SurvivorsKeepOrder(pool: seq<Candidate>, counts: seq<int>)
    requires |counts| == |pool| && Ordered(pool)
    ensures Ordered(Survivors(pool, counts)) && forall c :: c in Survivors(pool, counts) ==> c in pool
  {
    if pool != [] {
      var n := |pool| - 1;
      var rest, r := Survivors(pool[..n], counts[..n]), Survivors(pool, counts);
      SurvivorsKeepOrder(pool[..n], counts[..n]);
      forall i, j | 0 <= i < j < |r| ensures CheaperFirst(r[i], r[j]) && r[i].itemId != r[j].itemId {
        if j == |rest| {
          assert rest[i] in rest && rest[i] in pool[..n];
        }
      }
    }
  }

  lemma SurvivorsAreGood(pool: seq<Candidate>, counts: seq<int>, stake: int)
    requires |counts| == |pool| && GoodPool(pool, stake) && Survivors(pool, counts) != []
    ensures GoodPool(Survivors(pool, counts), stake)
  {
    SurvivorsKeepOrder(pool, counts);
    var r := Survivors(pool, counts);
    forall i | 0 <= i < |r| ensures InBand(r[i], RewardBand(stake)) {
      assert r[i] in r;
    }
  }

  function Outcomes(pool: seq<Candidate>, ranges: seq<Range>): (o: seq<Outcome>)
    requires |ranges| == |pool|
    ensures |o| == |pool|
  {
    seq(|pool|, i requires 0 <= i < |pool| =>
      Outcome(pool[i].itemId, pool[i].price, ranges[i], RangeChance(ranges[i])))
  }

  function Table(pool: seq<Candidate>, counts: seq<int>, stake: int): PoolResult
    requires |counts| == |pool| && stake > 0
  {
    var ranges := LayOut(counts, 0);
    var value := ExpectedValue(ranges, PricesOf(pool));
    Accepted(Outcomes(pool, ranges), RewardBand(stake), value, Div(value, stake as real))
  }

  /** Solve, drop the outcomes that own no ticket, and solve again. */
  function Solve(m: Maths, pool: seq<Candidate>, stake: int): PoolResult
    requires m.Valid() && GoodPool(pool, stake)
    decreases |pool|
  {
    if !Balanceable(pool, stake) then Rejected(CannotBalance)
    else
      var counts := PoolCounts(m, pool, stake);
      if AllWin(counts) then Table(pool, counts, stake)
      else
        var survivors := Survivors(pool, counts);
        if |survivors| < CONTRACT_MIN_POOL then Rejected(CannotBalance)
        else
          SurvivorsAreGood(pool, counts, stake);
          Solve(m, survivors, stake)
  }

  function SortedBand(candidates: seq<Candidate>, band: Band): seq<Candidate> {
    SortBy(FirstInBand(candidates, band), CheaperFirst)
  }

  lemma SortedBandIsOrdered(candidates: seq<Candidate>, band: Band)
    ensures Ordered(SortedBand(candidates, band)) && AllInBand(SortedBand(candidates, band), band)
    ensures forall c :: c in SortedBand(candidates, band) ==> c in candidates
  {
    var kept, s := FirstInBand(candidates, band), SortedBand(candidates, band);
    CheaperFirstIsTotal();
    FirstInBandIs(candidates, band);
    SortBySorts(kept, CheaperFirst);
    SameMembers(kept, s);
    DistinctIdsOfPermutation(kept, s);
    forall i | 0 <= i < |s| ensures InBand(s[i], band) && s[i] in candidates {
      assert s[i] in s;
    }
  }

  lemma {:induction false} OrderedIsKept(s: seq<Candidate>, band: Band)
    requires Ordered(s) && AllInBand(s, band)
    ensures FirstInBand(s, band) == s
  {
    if s != [] {
      var n := |s| - 1;
      OrderedIsKept(s[..n], band);
      assert s == s[..n] + [s[n]];
    }
  }

  /** A list in price order that is all in the band is left as it is. */
  lemma OrderedIsItsOwnBand(s: seq<Candidate>, band: Band)
    requires Ordered(s) && AllInBand(s, band)
    ensures SortedBand(s, band) == s
  {
    CheaperFirstIsTotal();
    OrderedIsKept(s, band);
    SortBySorts(s, CheaperFirst);
    SameMembers(s, SortBy(s, CheaperFirst));
    assert Antisymmetric(s, CheaperFirst) by {
      forall x, y | x in s && y in s && CheaperFirst(x, y) && CheaperFirst(y, x) ensures x == y {
        assert x.price == y.price && x.itemId == y.itemId;
      }
    }
    SortedUnique(s, SortBy(s, CheaperFirst), CheaperFirst);
  }

  lemma DistinctIdsOfPermutation(a: seq<Candidate>, b: seq<Candidate>)
    requires DistinctIds(a) && multiset(a) == multiset(b)
    ensures DistinctIds(b)
  {
    SameMembers(a, b);
    forall i, j | 0 <= i < j < |b| ensures b[i].itemId != b[j].itemId {
      if b[i].itemId == b[j].itemId {
        assert b[i] in a && b[j] in a;
        CountOnce(b, i, j);
        Distinct(a, b[i]);
      }
    }
  }

  /** The pool the first attempt is made on. */
  function FirstPool(candidates: seq<Candidate>, stake: int): seq<Candidate> {
    TakeSpread(SortedBand(candidates, RewardBand(stake)), CONTRACT_POOL_SIZE)
  }

  /** This candidate stands at the whole place nearest to the i-th twelfth of the way through the list. */
  ghost predicate IsEvenlyPlaced(sorted: seq<Candidate>, c: Candidate, i: nat) {
    exists at: nat :: at < |sorted| && sorted[at] == c && -11 < 2 * (at * 11 - i * (|sorted| - 1)) <= 11
  }

  /** In price order, ties by id; of more than 12 it takes 12, evenly, the cheapest and the dearest among them. */
  ghost predicate IsSample(kept: seq<Candidate>, sorted: seq<Candidate>, pool: seq<Candidate>) {
    && Ordered(sorted) && multiset(sorted) == multiset(kept)
    && if |sorted| <= 12 then pool == sorted
       else |pool| == 12 && forall i :: 0 <= i < 12 ==> IsEvenlyPlaced(sorted, pool[i], i)
  }

  /** The first pool samples what is kept. */
  lemma FirstPoolIsSample(candidates: seq<Candidate>, stake: int)
    ensures exists sorted :: IsSample(FirstInBand(candidates, RewardBand(stake)), sorted, FirstPool(candidates, stake))
  {
    hide SpreadIndex, Ordered, RewardBand, FirstInBand;
    var kept := FirstInBand(candidates, RewardBand(stake));
    var sorted, pool := SortedBand(candidates, RewardBand(stake)), FirstPool(candidates, stake);
    SortedBandIsOrdered(candidates, RewardBand(stake));
    CheaperFirstIsTotal();
    SortBySorts(kept, CheaperFirst);
    if |sorted| > 12 {
      forall i | 0 <= i < 12 ensures IsEvenlyPlaced(sorted, pool[i], i) {
        SampleIsEven(sorted, 12, i);
      }
    }
    assert IsSample(kept, sorted, pool);
  }

  lemma FirstPoolIsGood(candidates: seq<Candidate>, stake: int)
    requires stake > 0 && |SortedBand(candidates, RewardBand(stake))| >= CONTRACT_MIN_POOL
    ensures GoodPool(FirstPool(candidates, stake), stake)
    ensures CONTRACT_MIN_POOL <= |FirstPool(candidates, stake)| <= CONTRACT_POOL_SIZE
  {
    var band := RewardBand(stake);
    var s := SortedBand(candidates, band);
    SortedBandIsOrdered(candidates, band);
    hide SortedBand, RewardBand;
    SpreadOfOrdered(s, band, CONTRACT_POOL_SIZE);
  }

  lemma SpreadOfOrdered(s: seq<Candidate>, band: Band, size: nat)
    requires Ordered(s) && AllInBand(s, band) && s != [] && size >= 2
    ensures Ordered(TakeSpread(s, size)) && AllInBand(TakeSpread(s, size), band)
  {
    var pool := TakeSpread(s, size);
    SpreadKeepsEnds(s, size);
    hide TakeSpread;
    forall i, j | 0 <= i < j < |pool| ensures CheaperFirst(pool[i], pool[j]) && pool[i].itemId != pool[j].itemId {
      var a, b := SpreadKeepsOrder(s, size, i, j);
    }
    forall i | 0 <= i < |pool| ensures InBand(pool[i], band) {
      assert pool[i] in s;
    }
  }

  function BuiltPool(m: Maths, candidates: seq<Candidate>, stake: int): PoolResult
    requires m.Valid()
  {
    if stake <= 0 then Rejected(NoPrice)
    else if |SortedBand(candidates, RewardBand(stake))| < CONTRACT_MIN_POOL then
      Rejected(NotEnoughItems(RewardBand(stake)))
    else
      FirstPoolIsGood(candidates, stake);
      Solve(m, FirstPool(candidates, stake), stake)
  }

  // ----- the source's loops

  method InBandOnce(candidates: seq<Candidate>, band: Band) returns (kept: seq<Candidate>)
    ensures kept == FirstInBand(candidates, band)
  {
    kept := [];
    var seen: set<nat> := {};
    for i := 0 to |candidates|
      invariant kept == FirstInBand(candidates[..i], band) && seen == IdsOf(kept)
    {
      var c := candidates[i];
      assert candidates[..i + 1][..i] == candidates[..i];
      if InBand(c, band) && c.itemId !in seen {
        seen := seen + {c.itemId};
        kept := kept + [c];
      }
    }
    assert candidates[..|candidates|] == candidates;
  }

  method KeepSurvivors(pool: seq<Candidate>, counts: array<int>) returns (r: seq<Candidate>)
    requires counts.Length == |pool|
    ensures r == Survivors(pool, counts[..])
  {
    r := [];
    for i := 0 to |pool|
      invariant r == Survivors(pool[..i], counts[..i])
    {
      assert pool[..i + 1][..i] == pool[..i] && counts[..i + 1][..i] == counts[..i];
      if counts[i] > 0 {
        r := r + [pool[i]];
      }
    }
    assert pool[..|pool|] == pool && counts[..|pool|] == counts[..];
  }

  method EveryoneWins(counts: array<int>) returns (all: bool)
    ensures all == AllWin(counts[..])
  {
    for i := 0 to counts.Length
      invariant AllWin(counts[..i])
    {
      if counts[i] <= 0 {
        assert !(counts[..][i] > 0);
        return false;
      }
    }
    assert counts[..counts.Length] == counts[..];
    return true;
  }

  /** One solve: logs, span, alpha, whole tickets. */
  method SolveCounts(m: Maths, pool: seq<Candidate>, stake: int) returns (counts: array<int>)
    requires m.Valid() && GoodPool(pool, stake) && Balanceable(pool, stake)
    ensures fresh(counts) && counts[..] == PoolCounts(m, pool, stake)
  {
    PoolIsSolvable(pool, stake);
    var prices := AsReals(PricesOf(pool));
    var logs := Logs(m.ln, prices);
    var span := logs[|logs| - 1] - logs[0];
    LogNeverFalls(m, prices[0], prices[|prices| - 1]);
    var alpha := SolveAlpha(m, prices, logs, span, Target(stake));
    TiltedWeightsAddUp(m, prices, alpha);
    counts := AllocateTickets(TiltedWeights(m.exp, logs, span, alpha));
  }

  /** Terminates because every further attempt is made on a strictly smaller pool. */
  method BuildContractPool(m: Maths, candidates: seq<Candidate>, stake: int) returns (r: PoolResult)
    requires m.Valid()
    ensures r == BuiltPool(m, candidates, stake)
  {
    if stake <= 0 {
      return Rejected(NoPrice);
    }
    var band := RewardBand(stake);
    var kept := InBandOnce(candidates, band);
    var inBand := SortBy(kept, CheaperFirst);
    if |inBand| < CONTRACT_MIN_POOL {
      return Rejected(NotEnoughItems(band));
    }
    FirstPoolIsGood(candidates, stake);
    var pool := TakeSpread(inBand, CONTRACT_POOL_SIZE);
    while true
      invariant GoodPool(pool, stake) && Solve(m, pool, stake) == BuiltPool(m, candidates, stake)
      decreases |pool|
    {
      if !Balanceable(pool, stake) {
        return Rejected(CannotBalance);
      }
      var counts := SolveCounts(m, pool, stake);
      var all := EveryoneWins(counts);
      if all {
        return Table(pool, counts[..], stake);
      }
      var survivors := KeepSurvivors(pool, counts);
      if |survivors| < CONTRACT_MIN_POOL {
        return Rejected(CannotBalance);
      }
      SurvivorsAreGood(pool, counts[..], stake);
      pool := survivors;
    }
  }
}
