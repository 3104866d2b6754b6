/** When a contract gets a table, and which: the outcome of the whole solve, without its loop. */
module ContractAcceptance {
  import opened Apportion
  import opened ContractOdds
  import opened ContractPool
  import opened Sorting
  import opened Tickets

  // ----- how many candidates there are

  /** The item ids with a price inside the band. */
  function BandIds(candidates: seq<Candidate>, band: Band): set<nat> {
    set c | c in candidates && band.min <= c.price <= band.max :: c.itemId
  }

  lemma {:induction false} AsManyAsIds(s: seq<Candidate>)
    requires DistinctIds(s)
    ensures |IdsOf(s)| == |s|
  {
    if s != [] {
      var n := |s| - 1;
      AsManyAsIds(s[..n]);
      assert s == s[..n] + [s[n]];
      assert s[n].itemId !in IdsOf(s[..n]);
      assert IdsOf(s) == IdsOf(s[..n]) + {s[n].itemId};
    }
  }

  /** As many candidates are sorted as there are ids with an in-band price. */
  lemma OneCandidatePerId(candidates: seq<Candidate>, band: Band)
    ensures |SortedBand(candidates, band)| == |BandIds(candidates, band)|
  {
    var kept := FirstInBand(candidates, band);
    FirstInBandIs(candidates, band);
    CheaperFirstIsTotal();
    SortBySorts(kept, CheaperFirst);
    AsManyAsIds(kept);
    hide FirstInBand;
    assert IdsOf(kept) == BandIds(candidates, band) by {
      forall id ensures id in IdsOf(kept) <==> id in BandIds(candidates, band) {
      }
    }
  }

  // ----- the pools a solve goes through

  /** The cheapest price is below 0.9 times the stake and the dearest above it. */
  predicate AroundTarget(pool: seq<Candidate>, stake: int) {
    pool != [] && pool[0].price as real < 0.9 * stake as real < pool[|pool| - 1].price as real
  }

  /** `next` holds exactly the outcomes of `pool` that own a ticket, still in price order. */
  ghost predicate KeepsOwners(pool: seq<Candidate>, counts: seq<int>, next: seq<Candidate>)
    requires |counts| == |pool|
  {
    && Ordered(next)
    && forall c :: c in next <==> exists i :: 0 <= i < |pool| && pool[i] == c && counts[i] > 0
  }

  /** From one pool to the next: some outcome owns no ticket, and five or more are left. */
  ghost predicate Drops(m: Maths, pool: seq<Candidate>, next: seq<Candidate>, stake: int)
    requires m.Valid()
  {
    && GoodPool(pool, stake) && AroundTarget(pool, stake)
    && (exists i :: 0 <= i < |pool| && PoolCounts(m, pool, stake)[i] == 0)
    && KeepsOwners(pool, PoolCounts(m, pool, stake), next) && |next| >= 5
  }

  /** The pool a table can be laid out from. */
  ghost predicate EveryoneOwns(m: Maths, pool: seq<Candidate>, stake: int)
    requires m.Valid()
  {
    && GoodPool(pool, stake) && AroundTarget(pool, stake)
    && forall i :: 0 <= i < |pool| ==> PoolCounts(m, pool, stake)[i] > 0
  }

  /** A chain of pools, each the ticket owners of the one before, that ends in one whose every outcome owns a ticket. */
  ghost predicate Chain(m: Maths, pools: seq<seq<Candidate>>, stake: int)
    requires m.Valid()
  {
    && pools != []
    && (forall a :: 0 <= a < |pools| - 1 ==> Drops(m, pools[a], pools[a + 1], stake))
    && EveryoneOwns(m, pools[|pools| - 1], stake)
  }

  lemma SameGuard(pool: seq<Candidate>, stake: int)
    requires pool != []
    ensures Balanceable(pool, stake) <==> AroundTarget(pool, stake)
  {
  }

  lemma {:induction false} SurvivorsAreOwners(pool: seq<Candidate>, counts: seq<int>)
    requires |counts| == |pool|
    ensures forall c :: c in Survivors(pool, counts) <==> exists i :: 0 <= i < |pool| && pool[i] == c && counts[i] > 0
  {
    if pool != [] {
      var n := |pool| - 1;
      SurvivorsAreOwners(pool[..n], counts[..n]);
      var rest, r := Survivors(pool[..n], counts[..n]), Survivors(pool, counts);
      forall c ensures c in r <==> exists i :: 0 <= i < |pool| && pool[i] == c && counts[i] > 0 {
        if c in rest {
          var i :| 0 <= i < n && pool[..n][i] == c && counts[..n][i] > 0;
          assert pool[i] == c && counts[i] > 0;
        }
        if i :| 0 <= i < |pool| && pool[i] == c && counts[i] > 0 {
          if i < n {
            assert pool[..n][i] == c && counts[..n][i] > 0;
          }
        }
      }
    }
  }

  /** Two lists in price order with the same members are the same list. */
  lemma {:induction false} OrderedIsUnique(a: seq<Candidate>, b: seq<Candidate>)
    requires Ordered(a) && Ordered(b) && forall c :: c in a <==> c in b
    ensures a == b
  {
    assert forall k :: 0 <= k < |a| ==> a[k] in b;
    assert forall k :: 0 <= k < |b| ==> b[k] in a;
    if a != [] && b != [] {
      assert a[0] in a && b[0] in b;
      FirstIsLeast(a, b[0]);
      FirstIsLeast(b, a[0]);
      assert a[0] == b[0];
      forall c ensures c in a[1..] <==> c in b[1..] {
        TailMembers(a, c);
        TailMembers(b, c);
      }
      OrderedIsUnique(a[1..], b[1..]);
    }
  }

  lemma FirstIsLeast(a: seq<Candidate>, c: Candidate)
    requires Ordered(a) && c in a
    ensures CheaperFirst(a[0], c)
  {
    var i :| 0 <= i < |a| && a[i] == c;
    assert i > 0 ==> CheaperFirst(a[0], a[i]);
  }

  lemma TailMembers(a: seq<Candidate>, c: Candidate)
    requires Ordered(a) && a != []
    ensures c in a[1..] <==> c in a && c != a[0]
  {
    if c in a[1..] {
      var i :| 0 <= i < |a| - 1 && a[1..][i] == c;
      assert a[0].itemId != a[i + 1].itemId;
    }
  }

  /** One turn of the solve, in these terms. */
  lemma NextPool(m: Maths, pool: seq<Candidate>, next: seq<Candidate>, stake: int)
    requires m.Valid() && GoodPool(pool, stake) && Balanceable(pool, stake)
    ensures Drops(m, pool, next, stake) <==>
              && !AllWin(PoolCounts(m, pool, stake))
              && next == Survivors(pool, PoolCounts(m, pool, stake)) && |next| >= CONTRACT_MIN_POOL
  {
    SameGuard(pool, stake);
    var counts := PoolCounts(m, pool, stake);
    hide PoolCounts, GoodPool, Balanceable, AroundTarget;
    assert Ordered(pool) by { GoodIsOrdered(pool, stake); }
    SurvivorsAreOwners(pool, counts);
    SurvivorsKeepOrder(pool, counts);
    if KeepsOwners(pool, counts, next) {
      OrderedIsUnique(next, Survivors(pool, counts));
    }
  }

  lemma GoodIsOrdered(pool: seq<Candidate>, stake: int)
    requires GoodPool(pool, stake)
    ensures Ordered(pool) && pool != []
  {
  }

  lemma ChainGrows(m: Maths, pool: seq<Candidate>, pools: seq<seq<Candidate>>, stake: int)
    requires m.Valid() && Chain(m, pools, stake) && Drops(m, pool, pools[0], stake)
    ensures Chain(m, [pool] + pools, stake)
  {
    hide Drops, EveryoneOwns;
    var longer := [pool] + pools;
    forall a | 0 <= a < |longer| - 1 ensures Drops(m, longer[a], longer[a + 1], stake) {
      assert a > 0 ==> longer[a] == pools[a - 1];
      assert longer[a + 1] == pools[a];
    }
  }

  lemma ChainShrinks(m: Maths, pools: seq<seq<Candidate>>, stake: int)
    requires m.Valid() && Chain(m, pools, stake) && |pools| > 1
    ensures Chain(m, pools[1..], stake) && Drops(m, pools[0], pools[1], stake)
  {
    hide Drops, EveryoneOwns;
    var rest := pools[1..];
    forall a | 0 <= a < |rest| - 1 ensures Drops(m, rest[a], rest[a + 1], stake) {
      assert rest[a] == pools[a + 1] && rest[a + 1] == pools[a + 2];
    }
  }

  lemma ChainOfOne(m: Maths, pool: seq<Candidate>, stake: int)
    requires m.Valid() && GoodPool(pool, stake) && Balanceable(pool, stake) && AllWin(PoolCounts(m, pool, stake))
    ensures Chain(m, [pool], stake)
  {
    SameGuard(pool, stake);
    hide GoodPool, PoolCounts, Drops;
  }

  /** An accepted solve went through a chain. */
  lemma {:induction false} AcceptedHasChain(m: Maths, pool: seq<Candidate>, stake: int) returns (pools: seq<seq<Candidate>>)
    requires m.Valid() && GoodPool(pool, stake) && Solve(m, pool, stake).Accepted?
    ensures Chain(m, pools, stake) && pools[0] == pool
    decreases |pool|
  {
    hide Chain, Drops, Survivors, PoolCounts, GoodPool, Balanceable, AllWin;
    var counts := PoolCounts(m, pool, stake);
    if AllWin(counts) {
      ChainOfOne(m, pool, stake);
      pools := [pool];
    } else {
      var next := Survivors(pool, counts);
      SurvivorsAreGood(pool, counts, stake);
      NextPool(m, pool, next, stake);
      var rest := AcceptedHasChain(m, next, stake);
      ChainGrows(m, pool, rest, stake);
      pools := [pool] + rest;
    }
  }

  lemma ChainStart(m: Maths, pools: seq<seq<Candidate>>, stake: int)
    requires m.Valid() && Chain(m, pools, stake)
    ensures GoodPool(pools[0], stake) && Balanceable(pools[0], stake)
    ensures |pools| == 1 ==> AllWin(PoolCounts(m, pools[0], stake))
  {
    if |pools| > 1 {
      assert Drops(m, pools[0], pools[1], stake);
    }
    SameGuard(pools[0], stake);
  }

  /** A chain leads to the table of its last pool. */
  lemma {:induction false} ChainIsAccepted(m: Maths, pools: seq<seq<Candidate>>, stake: int)
    requires m.Valid() && Chain(m, pools, stake)
    ensures GoodPool(pools[0], stake)
    ensures var last := pools[|pools| - 1];
            && GoodPool(last, stake) && AroundTarget(last, stake)
            && Solve(m, pools[0], stake) == Table(last, PoolCounts(m, last, stake), stake)
    decreases |pools|
  {
    ChainStart(m, pools, stake);
    if |pools| > 1 {
      ChainShrinks(m, pools, stake);
      NextPool(m, pools[0], pools[1], stake);
      ChainIsAccepted(m, pools[1..], stake);
      hide Chain, Drops, Survivors, PoolCounts, GoodPool, Table;
      assert pools[1..][|pools| - 2] == pools[|pools| - 1] && pools[1..][0] == pools[1];
    }
  }

  // ----- the answer

  /** The answer shows exactly the items of a pool, each with the tickets its tilted weight was given. */
  ghost predicate TableOf(m: Maths, r: PoolResult, pool: seq<Candidate>, stake: int)
    requires m.Valid() && GoodPool(pool, stake) && AroundTarget(pool, stake)
  {
    && r.Accepted? && |r.outcomes| == |pool|
    && forall i :: 0 <= i < |pool| ==>
         && r.outcomes[i].itemId == pool[i].itemId && r.outcomes[i].price == pool[i].price
         && Width(r.outcomes[i].range) == PoolCounts(m, pool, stake)[i]
  }

  lemma TableShowsPool(m: Maths, pool: seq<Candidate>, stake: int)
    requires m.Valid() && EveryoneOwns(m, pool, stake)
    ensures TableOf(m, Table(pool, PoolCounts(m, pool, stake), stake), pool, stake)
  {
    hide PoolCounts, LayOut, GoodPool;
    SameGuard(pool, stake);
    var counts := PoolCounts(m, pool, stake);
    LayOutTiles(counts, 0);
  }

  ghost predicate StartsChain(m: Maths, pools: seq<seq<Candidate>>, pool: seq<Candidate>, stake: int)
    requires m.Valid()
  {
    Chain(m, pools, stake) && pools[0] == pool
  }

  /**
   * Exactly when a stake gets a table: it is positive, five item ids have a
   * price in the band, and a chain of pools leads from the sampled one to one
   * whose every outcome owns a ticket. The table is that pool's, and each
   * refusal has its own reason.
   */
  lemma AcceptedExactlyWhen(m: Maths, candidates: seq<Candidate>, stake: int)
    requires m.Valid()
    ensures var r, band := BuiltPool(m, candidates, stake), RewardBand(stake);
            && (r == Rejected(NoPrice) <==> stake <= 0)
            && (r == Rejected(NotEnoughItems(band)) <==> stake > 0 && |BandIds(candidates, band)| < 5)
            && (r.Accepted? <==> stake > 0 && |BandIds(candidates, band)| >= 5
                                 && exists pools :: StartsChain(m, pools, FirstPool(candidates, stake), stake))
            && (r == Rejected(CannotBalance) <==> stake > 0 && |BandIds(candidates, band)| >= 5 && !r.Accepted?)
  {
    var band := RewardBand(stake);
    OneCandidatePerId(candidates, band);
    if stake > 0 && |BandIds(candidates, band)| >= 5 {
      FirstPoolIsGood(candidates, stake);
      var pool := FirstPool(candidates, stake);
      SolveRefusesForBalance(m, pool, stake);
      hide FirstPool, SortedBand, RewardBand, Solve, Chain, GoodPool, BandIds;
      if Solve(m, pool, stake).Accepted? {
        var pools := AcceptedHasChain(m, pool, stake);
        assert StartsChain(m, pools, pool, stake);
      }
      if pools :| StartsChain(m, pools, pool, stake) {
        ChainIsAccepted(m, pools, stake);
      }
    }
  }

  lemma {:induction false} SolveRefusesForBalance(m: Maths, pool: seq<Candidate>, stake: int)
    requires m.Valid() && GoodPool(pool, stake)
    ensures Solve(m, pool, stake).Accepted? || Solve(m, pool, stake) == Rejected(CannotBalance)
    decreases |pool|
  {
    if Balanceable(pool, stake) {
      var counts := PoolCounts(m, pool, stake);
      var survivors := Survivors(pool, counts);
      if !AllWin(counts) && |survivors| >= CONTRACT_MIN_POOL {
        SurvivorsAreGood(pool, counts, stake);
        SolveRefusesForBalance(m, survivors, stake);
      }
    }
  }

  /** The table shows the last pool of whatever chain leads there. */
  lemma AcceptedTableIsLastPool(m: Maths, candidates: seq<Candidate>, stake: int, pools: seq<seq<Candidate>>)
    requires m.Valid() && stake > 0 && |BandIds(candidates, RewardBand(stake))| >= 5
    requires StartsChain(m, pools, FirstPool(candidates, stake), stake)
    ensures var last := pools[|pools| - 1];
            && GoodPool(last, stake) && AroundTarget(last, stake)
            && TableOf(m, BuiltPool(m, candidates, stake), last, stake)
  {
    OneCandidatePerId(candidates, RewardBand(stake));
    FirstPoolIsGood(candidates, stake);
    hide FirstPool, SortedBand, RewardBand, Solve, GoodPool, BandIds, TableOf;
    ChainIsAccepted(m, pools, stake);
    TableShowsPool(m, pools[|pools| - 1], stake);
  }
}
