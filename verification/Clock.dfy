/** The wall clock: system readings clamped so that no thread ever sees time run backwards. */
module Clock {
  import opened Wrappers

  const U64_MAX: nat := 0xFFFF_FFFF_FFFF_FFFF

  function Max(a: nat, b: nat): nat {
    if a >= b then a else b
  }

  function Min(a: nat, b: nat): nat {
    if a <= b then a else b
  }

  /** `as u64`: the low 64 bits. */
  function Truncated(n: nat): nat {
    n % (U64_MAX + 1)
  }

  /** A reading before the epoch counts as zero, one past 64 bits as the largest. */
  function Clamped(reading: int): nat {
    Truncated(Min(if reading < 0 then 0 else reading, U64_MAX))
  }

  /** The cast behind the clamp drops no bits. */
  lemma ClampLossless(reading: int)
    ensures Clamped(reading) == if reading < 0 then 0 else if reading > U64_MAX then U64_MAX else reading
  {
  }

  class SystemClock {
    var lastNanos: nat

    constructor ()
      ensures lastNanos == 0
    {
      lastNanos := 0;
    }

    /** The atomic `fetch_max`: the old value comes back, the larger one stays. */
    method FetchMax(now: nat) returns (prev: nat)
      modifies this
      ensures prev == old(lastNanos) && lastNanos == Max(prev, now)
    {
      prev := lastNanos;
      lastNanos := Max(prev, now);
    }

    method Now(reading: int) returns (nanos: nat)
      modifies this
      ensures nanos == lastNanos == Max(old(lastNanos), Clamped(reading))
    {
      var now := Clamped(reading);
      var prev := FetchMax(now);
      nanos := Max(prev, now);
    }
  }

  // ── Any number of threads ───────────────────────────────────────────────

  /** Between reading the system clock and the `fetch_max` other threads may run. */
  datatype Step =
    | Read(thread: nat, reading: int)
    | FetchMax(thread: nat)

  datatype Call = Call(now: nat, returned: nat)

  datatype State = State(
    last: nat,              // the shared atomic
    held: map<nat, nat>,    // clamped readings of threads inside `now`
    calls: seq<Call>)       // history: in the order of their `fetch_max`

  const INIT := State(0, map[], [])

  predicate Can(s: State, a: Step) {
    match a
    case Read(t, _) => t !in s.held
    case FetchMax(t) => t in s.held
  }

  function Do(s: State, a: Step): State
    requires Can(s, a)
  {
    match a
    case Read(t, reading) => s.(held := s.held[t := Clamped(reading)])
    case FetchMax(t) =>
      var now := s.held[t];
      State(Max(s.last, now), s.held - {t}, s.calls + [Call(now, Max(s.last, now))])
  }

  function Exec(steps: seq<Step>): Option<State> {
    if steps == [] then Some(INIT)
    else
      var before := Exec(steps[..|steps| - 1]);
      if before.Some? && Can(before.value, steps[|steps| - 1])
      then Some(Do(before.value, steps[|steps| - 1])) else None
  }

  /** The largest of the readings that got in by call `k`. */
  function RunningMax(calls: seq<Call>): nat {
    if calls == [] then 0 else Max(RunningMax(calls[..|calls| - 1]), calls[|calls| - 1].now)
  }

  lemma {:induction false} RunningMaxIs(calls: seq<Call>)
    ensures forall k :: 0 <= k < |calls| ==> calls[k].now <= RunningMax(calls)
    ensures calls != [] ==> exists k :: 0 <= k < |calls| && calls[k].now == RunningMax(calls)
  {
    if calls != [] {
      var last := |calls| - 1;
      RunningMaxIs(calls[..last]);
      assert calls[last].now <= RunningMax(calls);
      if RunningMax(calls) != calls[last].now {
        if last > 0 {
          var k :| 0 <= k < last && calls[..last][k].now == RunningMax(calls[..last]);
          assert calls[k].now == RunningMax(calls);
        }
      }
    }
  }

  lemma {:induction false} ReturnsRunningMax(steps: seq<Step>, k: nat)
    requires Exec(steps).Some? && k < |Exec(steps).value.calls|
    ensures var calls := Exec(steps).value.calls; calls[k].returned == RunningMax(calls[..k + 1])
  {
    var front := steps[..|steps| - 1];
    var s, s' := Exec(front).value, Exec(steps).value;
    LastIsMax(front);
    if k < |s.calls| {
      ReturnsRunningMax(front, k);
      assert s'.calls[..k + 1] == s.calls[..k + 1];
    } else {
      assert s'.calls[..k] == s.calls;
      assert s'.calls[..k + 1][..k] == s.calls;
    }
  }

  lemma {:induction false} LastIsMax(steps: seq<Step>)
    requires Exec(steps).Some?
    ensures Exec(steps).value.last == RunningMax(Exec(steps).value.calls)
  {
    if steps != [] {
      var s, s' := Exec(steps[..|steps| - 1]).value, Exec(steps).value;
      LastIsMax(steps[..|steps| - 1]);
      if steps[|steps| - 1].FetchMax? {
        assert s'.calls[..|s.calls|] == s.calls;
      }
    }
  }

  lemma {:induction false} RunningMaxGrows(calls: seq<Call>, k: nat)
    requires k <= |calls|
    ensures RunningMax(calls[..k]) <= RunningMax(calls)
  {
    if k == |calls| {
      assert calls[..k] == calls;
    } else {
      var last := |calls| - 1;
      RunningMaxGrows(calls[..last], k);
      assert calls[..last][..k] == calls[..k];
    }
  }

  /**
   In the order of their `fetch_max`, calls return exactly the largest clamped reading so far:
   no less than any reading that got in, and one that did get in.
   */
  lemma NowIsTheLargestReading(steps: seq<Step>, k: nat)
    requires Exec(steps).Some? && k < |Exec(steps).value.calls|
    ensures var calls := Exec(steps).value.calls;
            && (forall j :: 0 <= j <= k ==> calls[j].now <= calls[k].returned)
            && (exists j :: 0 <= j <= k && calls[j].now == calls[k].returned)
  {
    var calls := Exec(steps).value.calls;
    ReturnsRunningMax(steps, k);
    RunningMaxIs(calls[..k + 1]);
    assert forall j :: 0 <= j <= k ==> calls[..k + 1][j] == calls[j];
  }

  /** Time never runs backwards, across all threads and whatever the system clock does. */
  lemma NeverBackwards(steps: seq<Step>, j: nat, k: nat)
    requires Exec(steps).Some? && j <= k < |Exec(steps).value.calls|
    ensures var calls := Exec(steps).value.calls; calls[j].returned <= calls[k].returned <= U64_MAX
  {
    var calls := Exec(steps).value.calls;
    ReturnsRunningMax(steps, j);
    ReturnsRunningMax(steps, k);
    RunningMaxGrows(calls[..k + 1], j + 1);
    assert calls[..k + 1][..j + 1] == calls[..j + 1];
    Readings64(steps);
    NowIsTheLargestReading(steps, k);
  }

  lemma {:induction false} Readings64(steps: seq<Step>)
    requires Exec(steps).Some?
    ensures var s := Exec(steps).value;
            && (forall t :: t in s.held ==> s.held[t] <= U64_MAX)
            && (forall k :: 0 <= k < |s.calls| ==> s.calls[k].now <= U64_MAX)
  {
    if steps != [] {
      Readings64(steps[..|steps| - 1]);
    }
  }

  /** The machine's calls are the method's: one `Now` after another, in `fetch_max` order. */
  lemma CallsAreNow(steps: seq<Step>, k: nat)
    requires Exec(steps).Some? && k < |Exec(steps).value.calls|
    ensures var calls := Exec(steps).value.calls;
            calls[k].returned == Max(if k == 0 then 0 else calls[k - 1].returned, calls[k].now)
  {
    var calls := Exec(steps).value.calls;
    ReturnsRunningMax(steps, k);
    assert calls[..k + 1][..k] == calls[..k];
    if k > 0 {
      ReturnsRunningMax(steps, k - 1);
    }
  }

  // ── Where the values come from ──────────────────────────────────────────

  /** What the thread last read from the system clock. */
  function LastRead(steps: seq<Step>, t: nat): Option<int> {
    if steps == [] then None
    else
      var a := steps[|steps| - 1];
      if a.Read? && a.thread == t then Some(a.reading) else LastRead(steps[..|steps| - 1], t)
  }

  /** The readings the calls were made with, in the order of their `fetch_max`. */
  function ReadingsOf(steps: seq<Step>): seq<int> {
    if steps == [] then []
    else
      var front, a := steps[..|steps| - 1], steps[|steps| - 1];
      if a.FetchMax? && LastRead(front, a.thread).Some?
      then ReadingsOf(front) + [LastRead(front, a.thread).value] else ReadingsOf(front)
  }

  lemma {:induction false} HeldIsRead(steps: seq<Step>, t: nat)
    requires Exec(steps).Some? && t in Exec(steps).value.held
    ensures LastRead(steps, t).Some? && Exec(steps).value.held[t] == Clamped(LastRead(steps, t).value)
  {
    var front, a := steps[..|steps| - 1], steps[|steps| - 1];
    if !(a.Read? && a.thread == t) {
      HeldIsRead(front, t);
    }
  }

  /** Each call compares what its own thread last read, clamped to 64 bits, and nothing else. */
  lemma {:induction false} CallsUseTheirReadings(steps: seq<Step>)
    requires Exec(steps).Some?
    ensures var calls, readings := Exec(steps).value.calls, ReadingsOf(steps);
            && |calls| == |readings|
            && forall k :: 0 <= k < |calls| ==>
                 calls[k].now == if readings[k] < 0 then 0 else if readings[k] > U64_MAX then U64_MAX else readings[k]
  {
    if steps != [] {
      var front, a := steps[..|steps| - 1], steps[|steps| - 1];
      CallsUseTheirReadings(front);
      if a.FetchMax? {
        HeldIsRead(front, a.thread);
        ClampLossless(LastRead(front, a.thread).value);
      }
    }
  }
}
