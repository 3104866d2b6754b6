/**
 * The versioned read-through cache as a transition system. Calls of `wrap`
 * and `invalidate`, expiries, database writes and failing Redis commands
 * interleave freely, one command at a time.
 */
module Cache {
  import opened Wrappers

  /** A versioned key: `cache:<namespace>:<version>:<key>`. */
  datatype Slot = Slot(ns: nat, version: nat, key: nat)

  /** A produced value: the database state it saw, and when producing it began. */
  datatype Answer = Answer(seen: nat, began: nat)

  datatype Phase =
    | Keyed(slot: Slot)
    | Missed(full: Option<Slot>)
    | Producing(full: Option<Slot>, began: nat)
    | Produced(full: Option<Slot>, answer: Answer)

  /** A call of `wrap` under way; `keyedAt` is when it read the version counter. */
  datatype Call = Call(ns: nat, key: nat, keyedAt: nat, phase: Phase)

  datatype Returned = Returned(ns: nat, key: nat, keyedAt: nat, answer: Answer)

  /** A successful bump: when, at which database state, the version it set, and whether it left nothing stale behind. */
  datatype Bump = Bump(ns: nat, at: nat, db: nat, to: nat, clean: bool)

  datatype World = World(
    now: nat,
    db: nat,
    counters: map<nat, nat>,
    entries: map<Slot, Answer>,
    calls: map<nat, Call>,
    returned: map<nat, Returned>,
    bumps: set<Bump>)

  datatype Move =
    | Begin(id: nat, ns: nat, key: nat, ok: bool)
    | Look(id: nat, ok: bool)
    | StartProduce(id: nat)
    | Query(id: nat)
    | Store(id: nat, ok: bool)
    | GiveUp(id: nat)
    | Incr(ns: nat, ok: bool)
    | Expire(slot: Slot)
    | WriteDatabase

  /** `(await redis.get(versionKey)) ?? '1'`. */
  function VersionOf(w: World, ns: nat): nat {
    if ns in w.counters then w.counters[ns] else 1
  }

  /** What INCR leaves: one more, or 1 where there was no counter. */
  function Incremented(w: World, ns: nat): nat {
    if ns in w.counters then w.counters[ns] + 1 else 1
  }

  function SlotOf(w: World, ns: nat, key: nat): Slot {
    Slot(ns, VersionOf(w, ns), key)
  }

  function FullOf(phase: Phase): Option<Slot> {
    match phase
    case Keyed(slot) => Some(slot)
    case Missed(full) => full
    case Producing(full, _) => full
    case Produced(full, _) => full
  }

  function Tick(w: World): World {
    w.(now := w.now + 1)
  }

  function Advance(w: World, id: nat, phase: Phase): World
    requires id in w.calls
  {
    Tick(w.(calls := w.calls[id := w.calls[id].(phase := phase)]))
  }

  function Finish(w: World, id: nat, answer: Answer): World
    requires id in w.calls
  {
    var c := w.calls[id];
    Tick(w.(calls := w.calls - {id}, returned := w.returned[id := Returned(c.ns, c.key, c.keyedAt, answer)]))
  }

  predicate CanDo(w: World, m: Move) {
    match m
    case Begin(id, _, _, _) => id !in w.calls && id !in w.returned
    case Look(id, _) => id in w.calls && w.calls[id].phase.Keyed?
    case StartProduce(id) => id in w.calls && w.calls[id].phase.Missed?
    case Query(id) => id in w.calls && w.calls[id].phase.Producing?
    case Store(id, _) => id in w.calls && w.calls[id].phase.Produced?
    case GiveUp(id) => id in w.calls
    case Incr(_, _) => true
    case Expire(_) => true
    case WriteDatabase => true
  }

  function DoBegin(w: World, id: nat, ns: nat, key: nat, ok: bool): World {
    var phase := if ok then Keyed(SlotOf(w, ns, key)) else Missed(None);
    Tick(w.(calls := w.calls[id := Call(ns, key, w.now, phase)]))
  }

  function DoLook(w: World, id: nat, ok: bool): World
    requires CanDo(w, Look(id, ok))
  {
    var slot := w.calls[id].phase.slot;
    if ok && slot in w.entries then Finish(w, id, w.entries[slot]) else Advance(w, id, Missed(Some(slot)))
  }

  function DoStore(w: World, id: nat, ok: bool): World
    requires CanDo(w, Store(id, ok))
  {
    var p := w.calls[id].phase;
    if ok && p.full.Some? then Finish(w.(entries := w.entries[p.full.value := p.answer]), id, p.answer)
    else Finish(w, id, p.answer)
  }

  /** A value no older than the bump. */
  predicate NoOlder(answer: Answer, b: Bump) {
    answer.began > b.at && answer.seen >= b.db
  }

  /** A call that will store, or has stored, something it began to produce already. */
  predicate HoldsOldAnswer(phase: Phase, slot: Slot) {
    match phase
    case Producing(full, _) => full == Some(slot)
    case Produced(full, _) => full == Some(slot)
    case _ => false
  }

  /**
   * Creating the counter leaves its readers on version 1, where readers of an
   * absent counter already were: what is cached there, or about to be, stays
   * in reach.
   */
  predicate LeavesStale(w: World, ns: nat) {
    && ns !in w.counters
    && (|| (exists s :: s in w.entries && s.ns == ns && s.version == 1 && !NoOlder(w.entries[s], Bump(ns, w.now, w.db, 1, false)))
        || (exists id :: id in w.calls && FullOf(w.calls[id].phase).Some?
              && FullOf(w.calls[id].phase).value.ns == ns && FullOf(w.calls[id].phase).value.version == 1
              && HoldsOldAnswer(w.calls[id].phase, FullOf(w.calls[id].phase).value)))
  }

  function NextBump(w: World, ns: nat): Bump {
    Bump(ns, w.now, w.db, Incremented(w, ns), !LeavesStale(w, ns))
  }

  function DoIncr(w: World, ns: nat, ok: bool): World {
    if !ok then Tick(w)
    else
      var to := Incremented(w, ns);
      Tick(w.(counters := w.counters[ns := to], bumps := w.bumps + {NextBump(w, ns)}))
  }

  function Do(w: World, m: Move): World
    requires CanDo(w, m)
  {
    match m
    case Begin(id, ns, key, ok) => DoBegin(w, id, ns, key, ok)
    case Look(id, ok) => DoLook(w, id, ok)
    case StartProduce(id) => Advance(w, id, Producing(w.calls[id].phase.full, w.now))
    case Query(id) => Advance(w, id, Produced(w.calls[id].phase.full, Answer(w.db, w.calls[id].phase.began)))
    case Store(id, ok) => DoStore(w, id, ok)
    case GiveUp(id) => Tick(w.(calls := w.calls - {id}))
    case Incr(ns, ok) => DoIncr(w, ns, ok)
    case Expire(slot) => Tick(w.(entries := w.entries - {slot}))
    case WriteDatabase => Tick(w.(db := w.db + 1))
  }

  predicate CanRun(w: World, run: seq<Move>)
    decreases |run|
  {
    run == [] || (CanDo(w, run[0]) && CanRun(Do(w, run[0]), run[1..]))
  }

  function After(w: World, run: seq<Move>): World
    requires CanRun(w, run)
    decreases |run|
  {
    if run == [] then w else After(Do(w, run[0]), run[1..])
  }

  // ----- the invariant

  predicate ProducedAfter(b: Bump, answer: Answer) {
    answer.began > b.at ==> answer.seen >= b.db
  }

  /** Bumps lie in the past, and the counter is at least what they set it to. */
  ghost predicate BumpsOk(w: World) {
    forall b :: b in w.bumps ==> b.at < w.now && b.db <= w.db && b.ns in w.counters && b.to <= w.counters[b.ns]
  }

  /** Versions above the current one are unused. */
  ghost predicate SlotsOk(w: World) {
    && (forall s :: s in w.entries ==> s.version <= VersionOf(w, s.ns))
    && (forall id :: id in w.calls ==> InUse(w, FullOf(w.calls[id].phase)))
  }

  predicate InUse(w: World, full: Option<Slot>) {
    full.Some? ==> full.value.version <= VersionOf(w, full.value.ns)
  }

  predicate EntryOk(s: Slot, answer: Answer, b: Bump) {
    b.clean && b.ns == s.ns && b.to <= s.version ==> NoOlder(answer, b)
  }

  /** A cached value is no older than any bump that led to its version. */
  ghost predicate EntriesOk(w: World) {
    forall s, b :: s in w.entries && b in w.bumps ==> EntryOk(s, w.entries[s], b)
  }

  /** When production of the answer began, once it has. */
  function BeganAt(phase: Phase): Option<nat> {
    match phase
    case Producing(_, began) => Some(began)
    case Produced(_, answer) => Some(answer.began)
    case _ => None
  }

  /** The version read is at least that of every earlier bump, and nothing older is about to be stored under it. */
  predicate CallOk(c: Call, b: Bump) {
    var full := FullOf(c.phase);
    && (b.clean && b.ns == c.ns && full.Some? && b.at < c.keyedAt ==> b.to <= full.value.version)
    && (b.clean && b.ns == c.ns && full.Some? && b.to <= full.value.version && BeganAt(c.phase).Some? ==>
          BeganAt(c.phase).value > b.at)
    && (c.phase.Produced? ==> ProducedAfter(b, c.phase.answer))
  }

  predicate CallClock(c: Call, now: nat) {
    && c.keyedAt < now
    && (BeganAt(c.phase).Some? ==> c.keyedAt < BeganAt(c.phase).value < now)
    && (FullOf(c.phase).Some? ==> FullOf(c.phase).value.ns == c.ns)
  }

  ghost predicate CallsOk(w: World) {
    && (forall id :: id in w.calls ==> CallClock(w.calls[id], w.now))
    && (forall id, b :: id in w.calls && b in w.bumps ==> CallOk(w.calls[id], b))
  }

  /** The guarantee: what a call returned is no older than any bump made before it read the counter. */
  predicate ReturnOk(r: Returned, b: Bump) {
    b.clean && b.ns == r.ns && b.at < r.keyedAt ==> NoOlder(r.answer, b)
  }

  ghost predicate ReturnedOk(w: World) {
    && (forall id :: id in w.returned ==> w.returned[id].keyedAt < w.now)
    && (forall id, b :: id in w.returned && b in w.bumps ==> ReturnOk(w.returned[id], b))
  }

  ghost predicate Inv(w: World) {
    BumpsOk(w) && SlotsOk(w) && EntriesOk(w) && CallsOk(w) && ReturnedOk(w)
  }

  /** No call under way, whatever Redis and the database hold from before. */
  ghost predicate Initial(w: World) {
    w.calls == map[] && w.returned == map[] && w.bumps == {} && SlotsOk(w)
  }

  lemma InitialKeepsInv(w: World)
    requires Initial(w)
    ensures Inv(w)
  {
  }

  // ----- every step keeps it

  lemma BeginKeeps(w: World, id: nat, ns: nat, key: nat, ok: bool)
    requires Inv(w) && CanDo(w, Begin(id, ns, key, ok))
    ensures Inv(DoBegin(w, id, ns, key, ok))
  {
    var w' := DoBegin(w, id, ns, key, ok);
    forall b | b in w.bumps ensures CallOk(w'.calls[id], b) {
    }
  }

  lemma AdvanceKeeps(w: World, id: nat, phase: Phase)
    requires Inv(w) && id in w.calls && FullOf(phase) == FullOf(w.calls[id].phase)
    requires phase.Missed? || phase.Producing? || phase.Produced?
    requires phase.Producing? ==> phase.began == w.now
    requires phase.Produced? ==> w.calls[id].phase.Producing? && phase.answer == Answer(w.db, w.calls[id].phase.began)
    ensures Inv(Advance(w, id, phase))
  {
    var w' := Advance(w, id, phase);
    forall b | b in w.bumps ensures CallOk(w'.calls[id], b) {
      assert CallOk(w.calls[id], b);
    }
  }

  lemma FinishKeeps(w: World, id: nat, answer: Answer)
    requires Inv(w) && id in w.calls
    requires forall b :: b in w.bumps ==> ReturnOk(Returned(w.calls[id].ns, w.calls[id].key, w.calls[id].keyedAt, answer), b)
    ensures Inv(Finish(w, id, answer))
  {
  }

  lemma LookKeeps(w: World, id: nat, ok: bool)
    requires Inv(w) && CanDo(w, Look(id, ok))
    ensures Inv(DoLook(w, id, ok))
  {
    var c := w.calls[id];
    var slot := c.phase.slot;
    if ok && slot in w.entries {
      forall b | b in w.bumps ensures ReturnOk(Returned(c.ns, c.key, c.keyedAt, w.entries[slot]), b) {
        assert CallOk(c, b) && EntryOk(slot, w.entries[slot], b);
      }
      FinishKeeps(w, id, w.entries[slot]);
    } else {
      AdvanceKeeps(w, id, Missed(Some(slot)));
    }
  }

  lemma StoreKeeps(w: World, id: nat, ok: bool)
    requires Inv(w) && CanDo(w, Store(id, ok))
    ensures Inv(DoStore(w, id, ok))
  {
    var c := w.calls[id];
    var p := c.phase;
    forall b | b in w.bumps ensures ReturnOk(Returned(c.ns, c.key, c.keyedAt, p.answer), b) {
      assert CallOk(c, b) && CallClock(c, w.now);
    }
    if ok && p.full.Some? {
      var stored := w.(entries := w.entries[p.full.value := p.answer]);
      forall b | b in w.bumps ensures EntryOk(p.full.value, p.answer, b) {
        assert CallOk(c, b) && CallClock(c, w.now);
      }
      FinishKeeps(stored, id, p.answer);
    } else {
      FinishKeeps(w, id, p.answer);
    }
  }

  lemma IncrKeeps(w: World, ns: nat, ok: bool)
    requires Inv(w)
    ensures Inv(DoIncr(w, ns, ok))
  {
    var w' := DoIncr(w, ns, ok);
    if ok {
      var b := NextBump(w, ns);
      forall s | s in w.entries ensures EntryOk(s, w.entries[s], b) {
      }
      forall id | id in w.calls ensures CallOk(w.calls[id], b) {
        assert InUse(w, FullOf(w.calls[id].phase)) && CallClock(w.calls[id], w.now);
      }
    }
  }

  lemma StepKeeps(w: World, m: Move)
    requires Inv(w) && CanDo(w, m)
    ensures Inv(Do(w, m))
  {
    hide Inv;
    match m
    case Begin(id, ns, key, ok) => BeginKeeps(w, id, ns, key, ok);
    case Look(id, ok) => LookKeeps(w, id, ok);
    case StartProduce(id) => AdvanceKeeps(w, id, Producing(w.calls[id].phase.full, w.now));
    case Query(id) => AdvanceKeeps(w, id, Produced(w.calls[id].phase.full, Answer(w.db, w.calls[id].phase.began)));
    case Store(id, ok) => StoreKeeps(w, id, ok);
    case GiveUp(_) => QuietKeeps(w, m);
    case Incr(ns, ok) => IncrKeeps(w, ns, ok);
    case Expire(_) => QuietKeeps(w, m);
    case WriteDatabase => QuietKeeps(w, m);
  }

  lemma QuietKeeps(w: World, m: Move)
    requires Inv(w) && CanDo(w, m) && (m.GiveUp? || m.Expire? || m.WriteDatabase?)
    ensures Inv(Do(w, m))
  {
  }

  lemma {:induction false} RunKeeps(w: World, run: seq<Move>)
    requires Inv(w) && CanRun(w, run)
    ensures Inv(After(w, run))
    decreases |run|
  {
    if run != [] {
      StepKeeps(w, run[0]);
      RunKeeps(Do(w, run[0]), run[1..]);
    }
  }

  // ----- freshness

  /**
   * Over every interleaving: a call that read the counter after a clean bump
   * never returns a value whose production began before that bump, nor one
   * that misses a write committed before it.
   */
  lemma NoStaleAnswerAfterBump(w: World, run: seq<Move>, id: nat, b: Bump)
    requires Initial(w) && CanRun(w, run) && id in After(w, run).returned && b in After(w, run).bumps
    requires b.clean && b.ns == After(w, run).returned[id].ns && b.at < After(w, run).returned[id].keyedAt
    ensures NoOlder(After(w, run).returned[id].answer, b)
  {
    InitialKeepsInv(w);
    RunKeeps(w, run);
    assert ReturnOk(After(w, run).returned[id], b);
  }

  /** Bumping an existing counter is always clean. */
  lemma ExistingCounterIsClean(w: World, ns: nat)
    requires ns in w.counters
    ensures NextBump(w, ns).clean
  {
  }

  // ----- exactly which bumps are safe

  predicate KeyedLater(r: Returned, b: Bump) {
    r.ns == b.ns && r.keyedAt > b.at ==> NoOlder(r.answer, b)
  }

  /** In this continuation, calls keyed after the bump return nothing older than it. */
  predicate FreshIn(w: World, run: seq<Move>, b: Bump, id: nat) {
    CanRun(w, run) && id in After(w, run).returned ==> KeyedLater(After(w, run).returned[id], b)
  }

  /** Whatever happens after a successful bump in `w`, it has orphaned everything older. */
  ghost predicate BumpProtects(w: World, ns: nat) {
    forall run, id :: FreshIn(DoIncr(w, ns, true), run, NextBump(w, ns), id)
  }

  lemma {:induction false} BumpsAreKept(w: World, run: seq<Move>)
    requires CanRun(w, run)
    ensures w.bumps <= After(w, run).bumps
    decreases |run|
  {
    if run != [] {
      BumpsAreKept(Do(w, run[0]), run[1..]);
    }
  }

  lemma CleanBumpProtects(w: World, ns: nat)
    requires Inv(w) && NextBump(w, ns).clean
    ensures BumpProtects(w, ns)
  {
    var w1, b := DoIncr(w, ns, true), NextBump(w, ns);
    IncrKeeps(w, ns, true);
    hide Inv, DoIncr, NextBump;
    assert b in w1.bumps by { BumpIsRecorded(w, ns); }
    forall run, id ensures FreshIn(w1, run, b, id) {
      if CanRun(w1, run) && id in After(w1, run).returned {
        RunKeeps(w1, run);
        BumpsAreKept(w1, run);
        GuaranteeHolds(After(w1, run), id, b);
      }
    }
  }

  lemma BumpIsRecorded(w: World, ns: nat)
    ensures NextBump(w, ns) in DoIncr(w, ns, true).bumps
  {
  }

  lemma GuaranteeHolds(w: World, id: nat, b: Bump)
    requires Inv(w) && id in w.returned && b in w.bumps
    ensures ReturnOk(w.returned[id], b)
  {
  }

  lemma {:induction false} FreshId(used: set<nat>) returns (id: nat)
    ensures forall u :: u in used ==> u < id
  {
    if used == {} {
      id := 0;
    } else {
      var u :| u in used;
      var rest := FreshId(used - {u});
      id := if u < rest then rest else u + 1;
      forall x | x in used ensures x < id {
        assert x == u || x in used - {u};
      }
    }
  }

  /** A new call finds what is cached under version 1 of a counter that was just created. */
  lemma ReadsVersionOne(w: World, slot: Slot, f: nat) returns (run: seq<Move>)
    requires slot in w.entries && slot.version == VersionOf(w, slot.ns) && f !in w.calls && f !in w.returned
    ensures CanRun(w, run) && f in After(w, run).returned
    ensures After(w, run).returned[f] == Returned(slot.ns, slot.key, w.now, w.entries[slot])
  {
    var first, second := Begin(f, slot.ns, slot.key, true), Look(f, true);
    run := [first, second];
    RunOne(w, [], first);
    assert [] + [first] == [first];
    assert Do(w, first).calls[f].phase == Keyed(slot);
    RunOne(w, [first], second);
    assert [first] + [second] == run;
  }

  lemma {:induction false} RunsCompose(w: World, a: seq<Move>, b: seq<Move>)
    requires CanRun(w, a) && CanRun(After(w, a), b)
    ensures CanRun(w, a + b) && After(w, a + b) == After(After(w, a), b)
    decreases |a|
  {
    if a == [] {
      assert a + b == b;
    } else {
      assert (a + b)[1..] == a[1..] + b;
      RunsCompose(Do(w, a[0]), a[1..], b);
    }
  }

  lemma OneMove(w: World, m: Move)
    requires CanDo(w, m)
    ensures CanRun(w, [m]) && After(w, [m]) == Do(w, m)
  {
    assert [m][1..] == [];
    assert CanRun(Do(w, m), []) && After(Do(w, m), []) == Do(w, m);
  }

  lemma RunOne(w: World, run: seq<Move>, m: Move)
    requires CanRun(w, run) && CanDo(After(w, run), m)
    ensures CanRun(w, run + [m]) && After(w, run + [m]) == Do(After(w, run), m)
  {
    hide CanDo, Do;
    OneMove(After(w, run), m);
    RunsCompose(w, run, [m]);
  }

  /** A call already producing completes and stores its old answer. */
  lemma StoresOldAnswer(w: World, id: nat) returns (run: seq<Move>)
    requires id in w.calls && BeganAt(w.calls[id].phase).Some? && FullOf(w.calls[id].phase).Some?
    ensures CanRun(w, run)
    ensures var slot, w' := FullOf(w.calls[id].phase).value, After(w, run);
            && w'.calls == w.calls - {id} && w'.returned.Keys == w.returned.Keys + {id} && w'.counters == w.counters
            && slot in w'.entries && w'.entries[slot].began == BeganAt(w.calls[id].phase).value && w'.now > w.now
  {
    var store := Store(id, true);
    if w.calls[id].phase.Produced? {
      run := [store];
      RunOne(w, [], store);
      assert [] + [store] == run;
    } else {
      var query := Query(id);
      run := [query, store];
      RunOne(w, [], query);
      assert [] + [query] == [query];
      RunOne(w, [query], store);
      assert [query] + [store] == run;
      assert Do(w, query).calls - {id} == w.calls - {id};
    }
  }

  lemma UncleanEntry(w: World, ns: nat, slot: Slot)
    requires ns !in w.counters && slot in w.entries && slot.ns == ns && slot.version == 1
    requires !NoOlder(w.entries[slot], NextBump(w, ns))
    ensures !BumpProtects(w, ns)
  {
    var w1, b := DoIncr(w, ns, true), NextBump(w, ns);
    var f := FreshId(w1.calls.Keys + w1.returned.Keys);
    var run := ReadsVersionOne(w1, slot, f);
    assert !FreshIn(w1, run, b, f);
  }

  lemma UncleanCall(w: World, ns: nat, id: nat)
    requires Inv(w) && ns !in w.counters && id in w.calls && FullOf(w.calls[id].phase).Some?
    requires FullOf(w.calls[id].phase).value.ns == ns && FullOf(w.calls[id].phase).value.version == 1
    requires BeganAt(w.calls[id].phase).Some?
    ensures !BumpProtects(w, ns)
  {
    var w1, b := DoIncr(w, ns, true), NextBump(w, ns);
    assert CallClock(w.calls[id], w.now);
    var slot := FullOf(w.calls[id].phase).value;
    var first := StoresOldAnswer(w1, id);
    var w2 := After(w1, first);
    var f := FreshId(w2.calls.Keys + w2.returned.Keys);
    var second := ReadsVersionOne(w2, slot, f);
    RunsCompose(w1, first, second);
    assert !FreshIn(w1, first + second, b, f);
  }

  /**
   * A successful bump protects every later reader exactly when it is clean:
   * when the counter existed, or nothing is cached or being produced under
   * the version that readers of the absent counter used.
   */
  lemma BumpProtectsIff(w: World, ns: nat)
    requires Inv(w)
    ensures BumpProtects(w, ns) <==> !LeavesStale(w, ns)
  {
    if LeavesStale(w, ns) {
      if s :| s in w.entries && s.ns == ns && s.version == 1 && !NoOlder(w.entries[s], Bump(ns, w.now, w.db, 1, false)) {
        UncleanEntry(w, ns, s);
      } else {
        var id :| id in w.calls && FullOf(w.calls[id].phase).Some?
          && FullOf(w.calls[id].phase).value.ns == ns && FullOf(w.calls[id].phase).value.version == 1
          && HoldsOldAnswer(w.calls[id].phase, FullOf(w.calls[id].phase).value);
        UncleanCall(w, ns, id);
      }
    } else {
      CleanBumpProtects(w, ns);
    }
  }
}
