/**
 The inbound pipeline over whole runs: what its history fields hold is what the steps of the run
 did, so a packet that is not routed was lost at one of four places, each with its exact condition.
 */
module PipelineRuns {
  import opened Packets
  import opened Wrappers
  import FanOut
  import Filters = TopicFilter
  import opened Pipeline

  ghost predicate IsRun(run: seq<Step>) {
    Exec(run).Some?
  }

  /** The state before step `k`; for `k == |run|` the state the run ends in. */
  function Before(run: seq<Step>, k: nat): State
    requires k <= |run|
  {
    match Exec(run[..k])
    case Some(s) => s
    case None => INIT
  }

  function Final(run: seq<Step>): State {
    Before(run, |run|)
  }

  lemma RunLast(run: seq<Step>)
    requires IsRun(run) && run != []
    ensures var front, last := run[..|run| - 1], run[|run| - 1];
            IsRun(front) && Can(Final(front), last) && Final(run) == Do(Final(front), last)
  {
    var front := run[..|run| - 1];
    assert run[..|run|] == run && front[..|front|] == front;
  }

  lemma SameBefore(run: seq<Step>, k: nat)
    requires k < |run|
    ensures Before(run[..|run| - 1], k) == Before(run, k)
  {
    assert run[..|run| - 1][..k] == run[..k];
  }

  lemma FinalInv(run: seq<Step>)
    requires IsRun(run)
    ensures Inv(Final(run)) && Reachable(Final(run))
  {
    assert run[..|run|] == run;
    assert Exec(run) == Some(Final(run));
    ReachableInv(Final(run));
  }

  // ── What the steps of a run did ─────────────────────────────────────────

  /** The packets the callback parsed. */
  function Parsed(run: seq<Step>): seq<InboundPacket> {
    if run == [] then []
    else
      var before, a := Parsed(run[..|run| - 1]), run[|run| - 1];
      if a.Event? then before + [a.packet] else before
  }

  /** The changes of the topic filter. */
  function Changes(run: seq<Step>): seq<Filters.Op> {
    if run == [] then []
    else
      var before, a := Changes(run[..|run| - 1]), run[|run| - 1];
      if a.ChangeTopics? then before + [a.op] else before
  }

  predicate Listens(run: seq<Step>) {
    Listen in run
  }

  predicate Subscribed(run: seq<Step>) {
    Bootstrap in run
  }

  lemma StepsBefore(run: seq<Step>, a: Step)
    requires run != []
    ensures a in run <==> a in run[..|run| - 1] || a == run[|run| - 1]
  {
    assert run == run[..|run| - 1] + [run[|run| - 1]];
  }

  /** The packets, the filter's history, and whether anyone listens or has subscribed, are the run's. */
  lemma {:induction false} HistoryIsTheRun(run: seq<Step>)
    requires IsRun(run)
    ensures Final(run).packets == Parsed(run) && Final(run).ops == Changes(run)
    ensures Final(run).listening <==> Listens(run)
    ensures Final(run).since.Some? <==> Subscribed(run)
  {
    if run != [] {
      RunLast(run);
      HistoryIsTheRun(run[..|run| - 1]);
      StepsBefore(run, Listen);
      StepsBefore(run, Bootstrap);
    }
  }

  /** The pipeline subscribed when that many packets had been parsed. */
  lemma {:induction false} SinceBootstrap(run: seq<Step>, k: nat)
    requires IsRun(run) && k < |run| && run[k] == Bootstrap
    ensures Final(run).since == Some(|Before(run, k).packets|)
  {
    RunLast(run);
    SameBefore(run, k);
    if k < |run| - 1 {
      SinceBootstrap(run[..|run| - 1], k);
    }
  }

  /** What was sent on the ring once the forwarder had subscribed to it. */
  function Heard(run: seq<Step>): seq<nat> {
    if run == [] then []
    else
      var front, a := run[..|run| - 1], run[|run| - 1];
      if a.Send? && Listens(front) && Final(front).hand.Some? then Heard(front) + [Final(front).hand.value]
      else Heard(front)
  }

  /** Every send after the forwarder's subscription is on the ring, in order. */
  lemma {:induction false} SentIsHeard(run: seq<Step>)
    requires IsRun(run)
    ensures Final(run).sent == Heard(run)
  {
    if run != [] {
      RunLast(run);
      SentIsHeard(run[..|run| - 1]);
      HistoryIsTheRun(run[..|run| - 1]);
    }
  }

  // ── What becomes of a packet ────────────────────────────────────────────

  /** Where a packet ends; the last two with the number of filter changes its check had seen. */
  datatype Fate = FoundFull | Unheard | Skipped | Rejected(ops: nat) | Routed(ops: nat)

  predicate Reached(s: State, x: nat, f: Fate) {
    match f
    case FoundFull => x in s.full
    case Unheard => x in s.unheard
    case Skipped => x in s.lagged
    case Rejected(ops) => Check(x, ops) in s.filtered
    case Routed(ops) => Check(x, ops) in s.routed
  }

  /** Unread, with more than 512 newer packets behind it. */
  ghost predicate Overwritten(sent: seq<nat>, next: nat, x: nat) {
    exists j: nat :: next <= j && j + RING < |sent| && sent[j] == x
  }

  ghost predicate Wanted(s: State, x: nat) {
    x < |s.packets| && Filters.Holds(s.ops, s.packets[x].conversationId) && s.packets[x].subtopic in SUBTOPICS
  }

  /** The one way to each fate: what the state must be like when that step is made. */
  ghost predicate Meets(s: State, a: Step, x: nat, f: Fate) {
    match f
    // parsed after the subscription, with 256 packets queued
    case FoundFull => a.Event? && x == |s.packets| && s.since.Some? && |s.queue| >= FanOut.CAPACITY
    // sent before the forwarder listened
    case Unheard => a == Send && s.hand == Some(x) && !s.listening
    case Skipped => a == Lag && Overwritten(s.sent, s.next, x)
    // checked when the conversation was not held, or the subtopic is not a known one
    case Rejected(ops) => a == Dispatch && s.received == Some(x) && ops == |s.ops| && !Wanted(s, x)
    case Routed(ops) => a == Dispatch && s.received == Some(x) && ops == |s.ops| && Wanted(s, x)
  }

  lemma FullStep(s: State, a: Step, x: nat)
    requires Can(s, a)
    ensures x in Do(s, a).full <==> x in s.full || Meets(s, a, x, FoundFull)
  {
  }

  lemma UnheardStep(s: State, a: Step, x: nat)
    requires Can(s, a)
    ensures x in Do(s, a).unheard <==> x in s.unheard || Meets(s, a, x, Unheard)
  {
  }

  lemma SkippedStep(s: State, a: Step, x: nat)
    requires Can(s, a) && s.next <= |s.sent|
    ensures x in Do(s, a).lagged <==> x in s.lagged || Meets(s, a, x, Skipped)
  {
    if a.Lag? {
      var later := |s.sent| - RING;
      if Overwritten(s.sent, s.next, x) {
        var j: nat :| s.next <= j && j + RING < |s.sent| && s.sent[j] == x;
        assert s.sent[s.next..later][j - s.next] == x;
      }
      if x in s.sent[s.next..later] {
        var j :| 0 <= j < later - s.next && s.sent[s.next..later][j] == x;
        assert s.sent[s.next + j] == x;
      }
    }
  }

  lemma CheckStep(s: State, a: Step, x: nat, ops: nat)
    requires Can(s, a)
    ensures Check(x, ops) in Do(s, a).filtered <==> Check(x, ops) in s.filtered || Meets(s, a, x, Rejected(ops))
    ensures Check(x, ops) in Do(s, a).routed <==> Check(x, ops) in s.routed || Meets(s, a, x, Routed(ops))
  {
    if a.Dispatch? {
      var p := s.packets[s.received.value];
      Filters.FilterRefines(s.ops, p.conversationId, p.subtopic);
    }
  }

  lemma FateStep(s: State, a: Step, x: nat, f: Fate)
    requires Can(s, a) && s.next <= |s.sent|
    ensures Reached(Do(s, a), x, f) <==> Reached(s, x, f) || Meets(s, a, x, f)
  {
    match f {
      case FoundFull => FullStep(s, a, x);
      case Unheard => UnheardStep(s, a, x);
      case Skipped => SkippedStep(s, a, x);
      case Rejected(ops) => CheckStep(s, a, x, ops);
      case Routed(ops) => CheckStep(s, a, x, ops);
    }
  }

  ghost predicate MeetsAt(run: seq<Step>, k: nat, x: nat, f: Fate)
    requires k < |run|
  {
    Meets(Before(run, k), run[k], x, f)
  }

  ghost predicate Met(run: seq<Step>, x: nat, f: Fate) {
    exists k: nat :: k < |run| && MeetsAt(run, k, x, f)
  }

  lemma MeetsBefore(run: seq<Step>, k: nat, x: nat, f: Fate)
    requires k + 1 < |run|
    ensures MeetsAt(run[..|run| - 1], k, x, f) <==> MeetsAt(run, k, x, f)
  {
    SameBefore(run, k);
  }

  lemma MetSnoc(run: seq<Step>, x: nat, f: Fate)
    requires run != []
    ensures Met(run, x, f) <==> Met(run[..|run| - 1], x, f) || MeetsAt(run, |run| - 1, x, f)
  {
    var front := run[..|run| - 1];
    if Met(front, x, f) {
      var k: nat :| k < |front| && MeetsAt(front, k, x, f);
      MeetsBefore(run, k, x, f);
    }
    if Met(run, x, f) && !MeetsAt(run, |run| - 1, x, f) {
      var k: nat :| k < |run| && MeetsAt(run, k, x, f);
      MeetsBefore(run, k, x, f);
    }
  }

  /**
   In every run a packet meets each fate exactly if some step of the run found it in the one state
   that leads there; `HistoryIsTheRun` says what that state is in terms of the steps before.
   */
  lemma {:induction false} FateExactly(run: seq<Step>, x: nat, f: Fate)
    requires IsRun(run)
    ensures Reached(Final(run), x, f) <==> Met(run, x, f)
  {
    if run != [] {
      var front := run[..|run| - 1];
      RunLast(run);
      SameBefore(run, |run| - 1);
      FinalInv(front);
      FateExactly(front, x, f);
      FateStep(Final(front), run[|run| - 1], x, f);
      MetSnoc(run, x, f);
    }
  }

  /** A packet is checked against all the changes of the filter made before its dispatch. */
  lemma CheckedWhenDispatched(run: seq<Step>, c: Check)
    requires IsRun(run) && (c in Final(run).routed || c in Final(run).filtered)
    ensures exists k: nat :: DispatchesAt(run, k, c)
  {
    var f := if c in Final(run).routed then Routed(c.ops) else Rejected(c.ops);
    FateExactly(run, c.pos, f);
    var k: nat :| k < |run| && MeetsAt(run, k, c.pos, f);
    PrefixIsRun(run, k);
    HistoryIsTheRun(run[..k]);
    assert DispatchesAt(run, k, c);
  }

  ghost predicate DispatchesAt(run: seq<Step>, k: nat, c: Check) {
    && k < |run| && run[k] == Dispatch && Before(run, k).received == Some(c.pos)
    && c.ops == |Changes(run[..k])|
  }

  lemma {:induction false} PrefixIsRun(run: seq<Step>, k: nat)
    requires IsRun(run) && k <= |run|
    ensures IsRun(run[..k]) && Final(run[..k]) == Before(run, k)
    ensures k < |run| ==> Can(Before(run, k), run[k]) && Before(run, k + 1) == Do(Before(run, k), run[k])
  {
    if k == |run| {
      assert run[..k] == run;
    } else if k + 1 == |run| {
      RunLast(run);
      assert run[..k + 1] == run && run[..k][..k] == run[..k];
    } else {
      RunLast(run);
      PrefixIsRun(run[..|run| - 1], k);
      assert run[..|run| - 1][..k] == run[..k] && run[..|run| - 1][..k + 1] == run[..k + 1];
    }
  }

  // ── Once the forwarder listens ──────────────────────────────────────────

  /** Once the forwarder listens, every send reaches the ring. */
  lemma SendsAreHeard(run: seq<Step>, b: nat, k: nat)
    requires IsRun(run) && b < k < |run| && run[b] == Listen && run[k] == Send
    ensures Before(run, k).hand.Some?
    ensures Before(run, k + 1).sent == Before(run, k).sent + [Before(run, k).hand.value]
    ensures Before(run, k + 1).unheard == Before(run, k).unheard
  {
    PrefixIsRun(run, k);
    HistoryIsTheRun(run[..k]);
    assert run[..k][b] == Listen;
  }

  /** And nothing is unheard any more. */
  lemma {:induction false} NothingUnheardAfter(run: seq<Step>, b: nat)
    requires IsRun(run) && b < |run| && run[b] == Listen
    ensures Final(run).unheard == Before(run, b + 1).unheard
  {
    if b + 1 < |run| {
      var front := run[..|run| - 1];
      RunLast(run);
      SameBefore(run, b + 1);
      NothingUnheardAfter(front, b);
      HistoryIsTheRun(front);
      assert front[b] == Listen;
    }
  }

  // ── Every packet's end ──────────────────────────────────────────────────

  predicate OnTheWay(s: State, x: nat)
    requires s.next <= |s.sent|
  {
    x in s.queue || s.hand == Some(x) || x in s.sent[s.next..] || s.received == Some(x)
  }

  lemma RangeOnce(a: nat, b: nat, x: nat)
    requires a <= x < b
    ensures multiset(Range(a, b))[x] == 1
  {
    var r := Range(a, b);
    var k := x - a;
    assert r == r[..k] + [r[k]] + r[k + 1..];
    assert x !in r[..k] && x !in r[k + 1..];
  }

  lemma PositionsHave(checks: seq<Check>, x: nat)
    ensures x in Positions(checks) <==> exists ops: nat :: Check(x, ops) in checks
  {
    if x in Positions(checks) {
      var k :| 0 <= k < |checks| && checks[k].pos == x;
      assert Check(x, checks[k].ops) in checks;
    }
    if ops: nat :| Check(x, ops) in checks {
      var k :| 0 <= k < |checks| && checks[k] == Check(x, ops);
      assert Positions(checks)[k] == x;
    }
  }

  /** The places of `EveryPacketInOnePlace`, in three kinds: routed, on the way, and gone. */
  lemma OneOfThree(s: State, x: nat)
    requires Inv(s) && s.since.Some? && s.since.value <= x < |s.packets|
    ensures var gone := x in Positions(s.filtered) || x in s.full || x in s.unheard || x in s.lagged;
            && (x in Positions(s.routed) <==> !OnTheWay(s, x) && !gone)
            && (OnTheWay(s, x) ==> !gone)
  {
    RangeOnce(s.since.value, |s.packets|, x);
    var rest := s.sent[s.next..] + (Held(s.hand) + s.queue);
    var routed: multiset<nat> := multiset(Positions(s.routed));
    var way: multiset<nat> := multiset(Held(s.received) + rest);
    assert multiset(Trail(s)) == routed + way;
    assert routed[x] + way[x] + Gone(s)[x] == 1;
    WayHas(s, x);
    GoneHas(s, x);
  }

  lemma WayHas(s: State, x: nat)
    requires s.next <= |s.sent|
    ensures x in Held(s.received) + (s.sent[s.next..] + (Held(s.hand) + s.queue)) <==> OnTheWay(s, x)
  {
  }

  lemma GoneHas(s: State, x: nat)
    ensures Gone(s)[x] > 0 <==> x in Positions(s.filtered) || x in s.full || x in s.unheard || x in s.lagged
  {
  }

  /** Lost on the way: to a full queue, before anyone listened, overwritten, or rejected by the filter. */
  ghost predicate LostIn(run: seq<Step>, x: nat) {
    Met(run, x, FoundFull) || Met(run, x, Unheard) || Met(run, x, Skipped) || exists ops: nat :: Met(run, x, Rejected(ops))
  }

  /**
   Of the packets parsed since the pipeline subscribed, those no longer on their way and not routed
   are exactly the ones that met one of the four losses.
   */
  lemma MissingExactly(run: seq<Step>, x: nat)
    requires IsRun(run) && Final(run).since.Some? && Final(run).since.value <= x < |Final(run).packets|
    requires Final(run).next <= |Final(run).sent|
    ensures (exists ops: nat :: Met(run, x, Routed(ops))) <==> !OnTheWay(Final(run), x) && !LostIn(run, x)
    ensures OnTheWay(Final(run), x) ==> !LostIn(run, x)
  {
    var s := Final(run);
    FinalInv(run);
    OneOfThree(s, x);
    PositionsHave(s.routed, x);
    PositionsHave(s.filtered, x);
    FateExactly(run, x, FoundFull);
    FateExactly(run, x, Unheard);
    FateExactly(run, x, Skipped);
    forall ops: nat ensures Check(x, ops) in s.routed <==> Met(run, x, Routed(ops)) {
      FateExactly(run, x, Routed(ops));
    }
    forall ops: nat ensures Check(x, ops) in s.filtered <==> Met(run, x, Rejected(ops)) {
      FateExactly(run, x, Rejected(ops));
    }
  }

  // ── Nothing stays on the way ────────────────────────────────────────────

  predicate Moves(a: Step) {
    a.Take? || a.Send? || a.Receive? || a.Lag? || a.Dispatch?
  }

  /** While the forwarder listens, some step moves on whatever is on the way. */
  lemma NeverStuck(s: State, x: nat) returns (a: Step)
    requires Reachable(s) && s.listening && s.next <= |s.sent| && OnTheWay(s, x)
    ensures Can(s, a) && Moves(a)
  {
    ReachableInv(s);
    if s.received.Some? {
      assert s.received.value in Trail(s);
      a := Dispatch;
    } else if s.hand.Some? {
      a := Send;
    } else if s.queue != [] {
      a := Take;
    } else {
      a := if Unread(s) > RING then Lag else Receive;
    }
  }

  /** What is left to do for the packets on the way. */
  function Work(s: State): int {
    4 * |s.queue| + 3 * |Held(s.hand)| + 2 * Unread(s) + |Held(s.received)|
  }

  /** Every such step leaves strictly less to do, so each packet comes to its end after finitely many. */
  lemma MovingFinishes(s: State, a: Step)
    requires Reachable(s) && Can(s, a) && Moves(a)
    ensures 0 <= Work(Do(s, a)) < Work(s)
  {
    ReachableInv(s);
  }
}
