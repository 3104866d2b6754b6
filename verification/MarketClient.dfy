/** One key's request queue: chained rather than counted, so it cannot burst. */
module MarketClient {
  import opened Market
  import opened Wrappers

  /** Starts at least one interval apart, in the order the calls were made. */
  ghost predicate Spaced(starts: seq<int>) {
    forall k :: 0 < k < |starts| ==> starts[k - 1] + MIN_REQUEST_INTERVAL_MS <= starts[k]
  }

  function Later(a: int, b: int): int {
    if a < b then b else a
  }

  /** A call, what its wait and its request took, and whether it failed. */
  datatype Call = Call(submittedAt: int, timerLate: nat, duration: nat, fails: bool)

  /** How a promise settles, and when. */
  datatype Promise = Resolves(at: int) | Rejects(at: int)

  /** What became of a call chained onto a promise: when its work started, if it did, and how the call settles. */
  datatype Chained = Chained(startedAt: Option<int>, result: Promise)

  /** The work waits for the interval since the last start; a timer may fire late but not early. */
  function StartAfter(settledAt: int, lastCallAt: int, call: Call): int {
    var ready := Later(call.submittedAt, settledAt);
    if lastCallAt + MIN_REQUEST_INTERVAL_MS > ready then lastCallAt + MIN_REQUEST_INTERVAL_MS + call.timerLate else ready
  }

  /** `queue.then(work)`: a rejected promise skips the work and passes its rejection on. */
  function Then(queue: Promise, lastCallAt: int, call: Call): Chained {
    match queue
    case Rejects(at) => Chained(None, Rejects(Later(call.submittedAt, at)))
    case Resolves(at) =>
      var startedAt := StartAfter(at, lastCallAt, call);
      Chained(Some(startedAt), if call.fails then Rejects(startedAt + call.duration) else Resolves(startedAt + call.duration))
  }

  /** `result.catch(() => undefined)` settles with `result`, and always resolves. */
  function Catch(result: Promise): Promise {
    Resolves(result.at)
  }

  /** When each of these calls starts, with the chain's end caught or left as each call settled. */
  function StartsOf(caught: bool, queue: Promise, lastCallAt: int, calls: seq<Call>): (starts: seq<Option<int>>)
    ensures |starts| == |calls|
    decreases |calls|
  {
    if calls == [] then []
    else
      var first := Then(queue, lastCallAt, calls[0]);
      [first.startedAt] + StartsOf(caught, if caught then Catch(first.result) else first.result,
                                   if first.startedAt.Some? then first.startedAt.value else lastCallAt, calls[1..])
  }

  /** With the catch, every call starts, whichever calls before it failed. */
  lemma {:induction false} CaughtCallsAllStart(queue: Promise, lastCallAt: int, calls: seq<Call>, k: nat)
    requires queue.Resolves? && k < |calls|
    ensures StartsOf(true, queue, lastCallAt, calls)[k].Some?
    decreases k
  {
    if k > 0 {
      var first := Then(queue, lastCallAt, calls[0]);
      CaughtCallsAllStart(Catch(first.result), first.startedAt.value, calls[1..], k - 1);
    }
  }

  lemma {:induction false} RejectedChainStartsNothing(queue: Promise, lastCallAt: int, calls: seq<Call>, k: nat)
    requires queue.Rejects? && k < |calls|
    ensures StartsOf(false, queue, lastCallAt, calls)[k].None?
    decreases k
  {
    if k > 0 {
      RejectedChainStartsNothing(Then(queue, lastCallAt, calls[0]).result, lastCallAt, calls[1..], k - 1);
    }
  }

  /** Without it, a call starts exactly when no call before it has failed: one failure stops everything after it. */
  lemma {:induction false} UncaughtFailureStopsTheRest(queue: Promise, lastCallAt: int, calls: seq<Call>, k: nat)
    requires queue.Resolves? && k < |calls|
    ensures StartsOf(false, queue, lastCallAt, calls)[k].Some? <==> forall j :: 0 <= j < k ==> !calls[j].fails
    decreases k
  {
    if k > 0 {
      var first := Then(queue, lastCallAt, calls[0]);
      if calls[0].fails {
        RejectedChainStartsNothing(first.result, first.startedAt.value, calls[1..], k - 1);
      } else {
        UncaughtFailureStopsTheRest(first.result, first.startedAt.value, calls[1..], k - 1);
        assert forall j :: 0 < j < k ==> calls[j] == calls[1..][j - 1];
      }
    }
  }

  class Client {
    var lastCallAt: int
    /** The promise at the end of the chain. */
    var queue: Promise
    ghost var starts: seq<int>

    ghost predicate Valid()
      reads this
    {
      && Spaced(starts)
      && (if starts == [] then lastCallAt == 0 else lastCallAt == starts[|starts| - 1])
      && lastCallAt <= queue.at && queue.Resolves?
    }

    constructor ()
      ensures Valid() && starts == [] && queue == Resolves(0)
    {
      lastCallAt, queue := 0, Resolves(0);
      starts := [];
    }

    /**
     * Chains one call. Its work runs only if the chain it is put on resolves;
     * a failed call rejects, and the chain goes on from its caught end.
     */
    method Enqueue(call: Call) returns (startedAt: Option<int>, result: Promise)
      requires Valid() && call.submittedAt >= 0
      modifies this
      ensures Valid() && startedAt.Some? && starts == old(starts) + [startedAt.value]
      ensures startedAt.value >= call.submittedAt && startedAt.value >= old(queue).at
      ensures startedAt.value <=
              Later(Later(call.submittedAt, old(queue).at), old(lastCallAt) + MIN_REQUEST_INTERVAL_MS) + call.timerLate
      ensures (result.Rejects? <==> call.fails) && result.at == startedAt.value + call.duration
      ensures Chained(startedAt, result) == Then(old(queue), old(lastCallAt), call) && queue == Catch(result)
    {
      match queue {
        case Rejects(at) =>
          startedAt, result := None, Rejects(Later(call.submittedAt, at));
        case Resolves(at) =>
          var ready := Later(call.submittedAt, at);
          var wait := lastCallAt + MIN_REQUEST_INTERVAL_MS - ready;
          var now := if wait > 0 then ready + wait + call.timerLate else ready;
          lastCallAt := now;
          starts := starts + [now];
          startedAt := Some(now);
          result := if call.fails then Rejects(now + call.duration) else Resolves(now + call.duration);
      }
      queue := Resolves(result.at);
    }

    /** Any sequence of calls, failing ones included, is started in full and in order. */
    method EnqueueAll(calls: seq<Call>)
      requires Valid()
      requires forall k :: 0 <= k < |calls| ==> calls[k].submittedAt >= 0
      modifies this
      ensures Valid() && |starts| == |old(starts)| + |calls| && starts[..|old(starts)|] == old(starts)
      ensures forall k :: 0 <= k < |calls| ==> starts[|old(starts)| + k] >= calls[k].submittedAt
      ensures forall k :: 0 <= k < |calls| ==>
                Some(starts[|old(starts)| + k]) == StartsOf(true, old(queue), old(lastCallAt), calls)[k]
    {
      ghost var expected := StartsOf(true, queue, lastCallAt, calls);
      for k := 0 to |calls|
        invariant Valid() && |starts| == |old(starts)| + k && starts[..|old(starts)|] == old(starts)
        invariant forall j :: 0 <= j < k ==> starts[|old(starts)| + j] >= calls[j].submittedAt
        invariant forall j :: 0 <= j < k ==> Some(starts[|old(starts)| + j]) == expected[j]
        invariant StartsOf(true, queue, lastCallAt, calls[k..]) == expected[k..]
      {
        assert calls[k..][1..] == calls[k + 1..] && expected[k..][1..] == expected[k + 1..];
        var _, _ := Enqueue(calls[k]);
      }
    }
  }

  /** Spacing adds up. */
  lemma {:induction false} GapGrows(starts: seq<int>, j: nat, k: nat)
    requires Spaced(starts) && j <= k < |starts|
    ensures starts[j] + (k - j) * MIN_REQUEST_INTERVAL_MS <= starts[k]
  {
    if j < k {
      GapGrows(starts, j, k - 1);
    }
  }

  /** The calls a window of one second sees, counted from the one at `first` on. */
  function StartsIn(starts: seq<int>, from: int, first: nat): nat
    requires first <= |starts|
    decreases |starts| - first
  {
    if first == |starts| then 0
    else StartsIn(starts, from, first + 1) + (if from <= starts[first] < from + 1000 then 1 else 0)
  }

  /** Once a window has passed no later call falls into it. */
  lemma {:induction false} NoneAfter(starts: seq<int>, from: int, first: nat)
    requires Spaced(starts) && first <= |starts|
    requires first < |starts| ==> starts[first] >= from + 1000
    ensures StartsIn(starts, from, first) == 0
    decreases |starts| - first
  {
    if first < |starts| {
      NoneAfter(starts, from, first + 1);
    }
  }

  lemma {:induction false} FewFrom(starts: seq<int>, from: int, first: nat, n: nat)
    requires first + n <= |starts|
    ensures StartsIn(starts, from, first) <= n + StartsIn(starts, from, first + n)
    decreases n
  {
    if n > 0 {
      FewFrom(starts, from, first + 1, n - 1);
    }
  }

  /** No window of one second holds more than four starts, one short of the limit that costs the key. */
  lemma {:induction false} AtMostFourPerSecond(starts: seq<int>, from: int, first: nat)
    requires Spaced(starts) && first <= |starts|
    ensures StartsIn(starts, from, first) <= 4
    decreases |starts| - first
  {
    if first < |starts| && starts[first] < from {
      AtMostFourPerSecond(starts, from, first + 1);
    } else if first + 4 < |starts| {
      GapGrows(starts, first, first + 4);
      NoneAfter(starts, from, first + 4);
      FewFrom(starts, from, first, 4);
    } else {
      FewFrom(starts, from, first, |starts| - first);
    }
  }
}
