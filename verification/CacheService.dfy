/** The cache service itself: its calls, with everybody else's commands running in between. */
module CacheService {
  import opened Cache
  import opened Wrappers

  /** Moves of other calls, of writers and of Redis itself. */
  predicate Foreign(m: Move, id: nat) {
    match m
    case Begin(other, _, _, _) => other != id
    case Look(other, _) => other != id
    case StartProduce(other) => other != id
    case Query(other) => other != id
    case Store(other, _) => other != id
    case GiveUp(other) => other != id
    case Incr(_, _) => true
    case Expire(_) => true
    case WriteDatabase => true
  }

  /** The others leave this call where it is. */
  ghost predicate LeavesAlone(w: World, w': World, id: nat) {
    && w'.now >= w.now
    && (id in w'.calls <==> id in w.calls) && (id in w'.returned <==> id in w.returned)
    && (id in w.calls ==> w'.calls[id] == w.calls[id])
  }

  lemma ForeignLeavesAlone(w: World, m: Move, id: nat)
    requires CanDo(w, m) && Foreign(m, id)
    ensures LeavesAlone(w, Do(w, m), id)
  {
  }

  lemma NothingRun(w: World)
    ensures CanRun(w, []) && After(w, []) == w
  {
  }

  class Service {
    var world: World

    constructor (w: World)
      ensures world == w
    {
      world := w;
    }

    /** One command of this call. */
    method Command(m: Move, ghost start: World, ghost run: seq<Move>) returns (ghost run': seq<Move>)
      requires CanRun(start, run) && world == After(start, run) && CanDo(world, m)
      modifies this
      ensures world == Do(old(world), m) && CanRun(start, run') && world == After(start, run') && run' == run + [m]
    {
      RunOne(start, run, m);
      world := Do(world, m);
      run' := run + [m];
    }

    /** An `await`: any of the others' commands may run. */
    method Await(others: seq<Move>, id: nat, ghost start: World, ghost run: seq<Move>) returns (ghost run': seq<Move>)
      requires CanRun(start, run) && world == After(start, run)
      modifies this
      ensures CanRun(start, run') && world == After(start, run') && LeavesAlone(old(world), world, id)
      ensures others == [] ==> world == old(world)
    {
      run' := run;
      hide Do, CanDo, CanRun, After, Foreign;
      for k := 0 to |others|
        invariant CanRun(start, run') && world == After(start, run') && LeavesAlone(old(world), world, id)
        invariant k == 0 ==> world == old(world)
      {
        var m := others[k];
        if CanDo(world, m) && Foreign(m, id) {
          ForeignLeavesAlone(world, m, id);
          RunOne(start, run', m);
          run' := run' + [m];
          world := Do(world, m);
        }
      }
    }

    /**
     * `wrap`: read the counter, look, produce, store. A failing command only
     * costs the cache. What is returned is what the run of the whole system
     * records, so it is covered by the freshness guarantee. `None` is a
     * `produce` that threw. With nobody else at work, a cached value is
     * returned as it is, and anything else is produced from the database and
     * cached as far as Redis answers.
     */
    method Wrap(id: nat, ns: nat, key: nat, redisOk: seq<bool>, produceOk: bool, others: seq<seq<Move>>)
      returns (r: Option<Answer>, ghost run: seq<Move>)
      requires id !in world.calls && id !in world.returned && |redisOk| == 3 && |others| == 5
      modifies this
      ensures CanRun(old(world), run) && world == After(old(world), run)
      ensures r.Some? <==> id in world.returned
      ensures r.Some? ==> world.returned[id].answer == r.value && world.returned[id].ns == ns && world.returned[id].key == key
      ensures r.Some? ==> world.returned[id].keyedAt >= old(world.now)
      ensures r.None? ==> !produceOk
      ensures (forall a :: 0 <= a < 5 ==> others[a] == []) ==>
                var slot := SlotOf(old(world), ns, key);
                if redisOk[0] && redisOk[1] && slot in old(world).entries then
                  r == Some(old(world).entries[slot]) && world.entries == old(world).entries
                else if !produceOk then r == None && world.entries == old(world).entries
                else
                  && r.Some? && r.value.seen == old(world).db && r.value.began > old(world).now
                  && world.entries
                     == if redisOk[0] && redisOk[2] then old(world).entries[slot := r.value] else old(world).entries
    {
      hide CanRun, After;
      ghost var start := world;
      run := [];
      NothingRun(start);
      run := Await(others[0], id, start, run);
      run := Command(Begin(id, ns, key, redisOk[0]), start, run);
      run := Await(others[1], id, start, run);
      if redisOk[0] {
        run := Command(Look(id, redisOk[1]), start, run);
        if id in world.returned {
          return Some(world.returned[id].answer), run;
        }
        run := Await(others[2], id, start, run);
      }
      r, run := ProduceAndStore(id, redisOk[2], produceOk, others[3], others[4], start, run);
    }

    /** What follows a miss: produce, and store under the key, if there is one and Redis answers. */
    method ProduceAndStore(id: nat, storeOk: bool, produceOk: bool, during: seq<Move>, after: seq<Move>,
                           ghost start: World, ghost run: seq<Move>)
      returns (r: Option<Answer>, ghost run': seq<Move>)
      requires CanRun(start, run) && world == After(start, run)
      requires id in world.calls && world.calls[id].phase.Missed? && id !in world.returned
      modifies this
      ensures CanRun(start, run') && world == After(start, run')
      ensures (r.Some? <==> id in world.returned) && (r.Some? <==> produceOk)
      ensures r.Some? ==> var c := old(world).calls[id]; world.returned[id] == Returned(c.ns, c.key, c.keyedAt, r.value)
      ensures during == [] && after == [] ==>
                var full := old(world).calls[id].phase.full;
                && (r.Some? ==> r.value.seen == old(world).db && r.value.began >= old(world).now)
                && world.entries
                   == if r.Some? && storeOk && full.Some? then old(world).entries[full.value := r.value] else old(world).entries
    {
      hide CanRun, After;
      run' := Command(StartProduce(id), start, run);
      run' := Await(during, id, start, run');
      if !produceOk {
        run' := Command(GiveUp(id), start, run');
        return None, run';
      }
      run' := Command(Query(id), start, run');
      run' := Await(after, id, start, run');
      run' := Command(Store(id, storeOk), start, run');
      return Some(world.returned[id].answer), run';
    }

    /**
     * `invalidate`: one INCR, whose failure is only logged. Once it succeeds on
     * a counter that existed, whatever happens later, no call keyed after it
     * returns anything older.
     */
    method Invalidate(ns: nat, redisOk: bool)
      requires Inv(world)
      modifies this
      ensures Inv(world) && world == DoIncr(old(world), ns, redisOk)
      ensures redisOk && !LeavesStale(old(world), ns) ==>
                forall later, id :: FreshIn(world, later, NextBump(old(world), ns), id)
      ensures redisOk && ns in old(world).counters ==> !LeavesStale(old(world), ns)
      ensures !redisOk ==> world == Tick(old(world))
    {
      IncrKeeps(world, ns, redisOk);
      if redisOk {
        if !LeavesStale(world, ns) {
          CleanBumpProtects(world, ns);
        }
        var bump := NextBump(world, ns);
        var to := if ns in world.counters then world.counters[ns] + 1 else 1;
        world := world.(counters := world.counters[ns := to], bumps := world.bumps + {bump});
      }
      world := Tick(world);
    }
  }
}
