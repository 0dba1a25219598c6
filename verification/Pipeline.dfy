/**
 The inbound pipeline: the delivery service's bounded queue, the thread that moves packets from it to
 the broadcast ring, the ring with its lagging reader, the topic filter, and routing into `User`.
 Packets are followed by their position among all packets the callback ever parsed.
 */
module Pipeline {
  import opened Packets
  import opened Wrappers
  import FanOut
  import ContentTopic
  import Filters = TopicFilter
  import Protobuf
  import WelcomeEnvelope
  import WakuMessage

  const RING := 512

  // ── Routing ─────────────────────────────────────────────────────────────

  datatype Route<W> = AcceptWelcome(welcome: W) | ReceiveKeyPackage | HandleInbound

  function RouteOf<W>(c: WelcomeEnvelope.Codec<W>, p: InboundPacket): Route<W> {
    if p.subtopic != WELCOME_SUBTOPIC then HandleInbound
    else
      match WelcomeEnvelope.Decode(c, p.payload)
      case Some(welcome) => AcceptWelcome(welcome)
      case None => ReceiveKeyPackage
  }

  /** A published welcome is opened by every peer that gets it, whatever its conversation's clean name. */
  lemma WelcomeArrives<W>(c: WelcomeEnvelope.Codec<W>, w: W, id: string, appId: Bytes, nanos: nat,
                          event: WakuMessage.Json)
    requires WelcomeEnvelope.RoundTrips(c, w) && ContentTopic.Clean(id)
    requires WakuMessage.Get(event, "wakuMessage")
             == Some(WakuMessage.Message(
                       OutboundPacket(WelcomeEnvelope.EncodeWelcome(c, w), WELCOME_SUBTOPIC, id, appId), nanos))
    ensures WakuMessage.ParseEvent(event).Some?
    ensures var p := WakuMessage.ParseEvent(event).value;
            p.conversationId == id && p.appId == appId && RouteOf(c, p) == AcceptWelcome(w)
  {
    var sent := OutboundPacket(WelcomeEnvelope.EncodeWelcome(c, w), WELCOME_SUBTOPIC, id, appId);
    WakuMessage.PacketRoundTrip(sent, nanos, event);
    WelcomeEnvelope.WelcomeRoundTrip(c, w);
  }

  /** A key package, a message without field 2, is never taken for a welcome; conversation traffic is neither. */
  lemma OthersArrive<W>(c: WelcomeEnvelope.Codec<W>, p: OutboundPacket, nanos: nat, event: WakuMessage.Json)
    requires ContentTopic.Clean(p.conversationId) && p.subtopic in SUBTOPICS
    requires p.subtopic == WELCOME_SUBTOPIC ==>
               Protobuf.Read(p.payload).Some?
               && forall f :: f in Protobuf.Read(p.payload).value ==> f.number != WelcomeEnvelope.WELCOME_FIELD
    requires WakuMessage.Get(event, "wakuMessage") == Some(WakuMessage.Message(p, nanos))
    ensures WakuMessage.ParseEvent(event) == Some(WakuMessage.Received(p, nanos))
    ensures RouteOf(c, WakuMessage.Received(p, nanos))
            == if p.subtopic == APP_MSG_SUBTOPIC then HandleInbound else ReceiveKeyPackage
  {
    WakuMessage.PacketRoundTrip(p, nanos, event);
    if p.subtopic == WELCOME_SUBTOPIC {
      WelcomeEnvelope.NoWelcomeField(c, p.payload);
    }
  }

  // ── The machine ─────────────────────────────────────────────────────────

  /** A filter check of packet `pos`, made when the filter had seen `ops` operations. */
  datatype Check = Check(pos: nat, ops: nat)

  datatype State = State(
    packets: seq<InboundPacket>,  // history: everything the callback parsed
    since: Option<nat>,           // the position at which the pipeline subscribed
    queue: seq<nat>,
    hand: Option<nat>,            // taken by the ds-forwarder thread, not yet sent on
    listening: bool,              // the forwarder task has subscribed to the ring
    sent: seq<nat>,               // history: everything sent on the ring since
    next: nat,                    // the reader's place in `sent`
    received: Option<nat>,        // in the forwarder task's hands, before the filter
    ops: seq<Filters.Op>,         // history: every change of the topic filter
    routed: seq<Check>,
    filtered: seq<Check>,
    full: seq<nat>,               // history: found the queue at capacity
    unheard: seq<nat>,            // history: sent on the ring when nobody listened
    lagged: seq<nat>)             // history: overwritten before they were read

  const INIT := State([], None, [], None, false, [], 0, None, [], [], [], [], [], [])

  datatype Step =
    | Event(packet: InboundPacket)
    | Bootstrap
    | Take
    | Send
    | Listen
    | Receive
    | Lag
    | ChangeTopics(op: Filters.Op)
    | Dispatch

  function Unread(s: State): int {
    |s.sent| - s.next
  }

  predicate Can(s: State, a: Step) {
    match a
    case Event(_) => true
    case Bootstrap => s.since.None?
    case Take => s.hand.None? && s.queue != []
    case Send => s.hand.Some?
    case Listen => !s.listening
    case Receive => s.listening && s.received.None? && 0 < Unread(s) <= RING
    case Lag => s.listening && s.received.None? && Unread(s) > RING
    case ChangeTopics(_) => true
    case Dispatch => s.received.Some? && s.received.value < |s.packets|
  }

  /** What the filter lets through after those operations. */
  predicate Allowed(ops: seq<Filters.Op>, p: InboundPacket) {
    Filters.TopicKey(p.conversationId, p.subtopic) in Filters.Contents(ops)
  }

  function Do(s: State, a: Step): State
    requires Can(s, a)
  {
    match a
    case Event(p) =>
      var now := s.(packets := s.packets + [p]);
      if s.since.None? then now
      else if |s.queue| >= FanOut.CAPACITY then now.(full := s.full + [|s.packets|])
      else now.(queue := s.queue + [|s.packets|])
    case Bootstrap => s.(since := Some(|s.packets|))
    case Take => s.(hand := Some(s.queue[0]), queue := s.queue[1..])
    case Send =>
      if s.listening then s.(hand := None, sent := s.sent + [s.hand.value])
      else s.(hand := None, unheard := s.unheard + [s.hand.value])
    case Listen => s.(listening := true)
    case Receive => s.(received := Some(s.sent[s.next]), next := s.next + 1)
    case Lag => s.(next := |s.sent| - RING, lagged := s.lagged + s.sent[s.next..|s.sent| - RING])
    case ChangeTopics(op) => s.(ops := s.ops + [op])
    case Dispatch =>
      var check := Check(s.received.value, |s.ops|);
      if Allowed(s.ops, s.packets[s.received.value]) then s.(received := None, routed := s.routed + [check])
      else s.(received := None, filtered := s.filtered + [check])
  }

  function Exec(steps: seq<Step>): Option<State> {
    if steps == [] then Some(INIT)
    else
      var before := Exec(steps[..|steps| - 1]);
      if before.Some? && Can(before.value, steps[|steps| - 1])
      then Some(Do(before.value, steps[|steps| - 1])) else None
  }

  ghost predicate Reachable(s: State) {
    exists steps :: Exec(steps) == Some(s)
  }

  // ── Where the packets are ───────────────────────────────────────────────

  function Positions(checks: seq<Check>): (r: seq<nat>)
    ensures |r| == |checks| && forall k :: 0 <= k < |r| ==> r[k] == checks[k].pos
  {
    seq(|checks|, k requires 0 <= k < |checks| => checks[k].pos)
  }

  function Held(x: Option<nat>): seq<nat> {
    if x.None? then [] else [x.value]
  }

  function Range(a: nat, b: nat): (r: seq<nat>)
    requires a <= b
    ensures |r| == b - a && forall k :: 0 <= k < |r| ==> r[k] == a + k
  {
    seq(b - a, k requires 0 <= k => a + k)
  }

  /** Routed, then on the way, from the one next to be routed to the last one queued. */
  function Trail(s: State): seq<nat>
    requires s.next <= |s.sent|
  {
    Positions(s.routed) + (Held(s.received) + (s.sent[s.next..] + (Held(s.hand) + s.queue)))
  }

  ghost function Gone(s: State): multiset<nat> {
    multiset(Positions(s.filtered)) + multiset(s.full) + multiset(s.unheard) + multiset(s.lagged)
  }

  // ── Invariant ───────────────────────────────────────────────────────────

  ghost predicate Quiet(s: State) {
    && s.next <= |s.sent| && |s.queue| <= FanOut.CAPACITY
    && (s.since.None? ==> Trail(s) == [] && Gone(s) == multiset{})
    && (!s.listening ==> s.sent == [])
  }

  ghost predicate Ordered(s: State)
    requires s.next <= |s.sent|
  {
    OrderedAt(Trail(s), |s.packets|)
  }

  ghost predicate OrderedAt(trail: seq<nat>, n: nat) {
    FanOut.Increasing(trail) && forall x :: x in trail ==> x < n
  }

  ghost predicate Conserved(s: State)
    requires s.next <= |s.sent|
  {
    s.since.Some? ==>
      s.since.value <= |s.packets| && multiset(Range(s.since.value, |s.packets|)) == multiset(Trail(s)) + Gone(s)
  }

  predicate Verdict(s: State, c: Check, verdict: bool) {
    c.pos < |s.packets| && c.ops <= |s.ops| && Allowed(s.ops[..c.ops], s.packets[c.pos]) == verdict
  }

  ghost predicate Checked(s: State) {
    && (forall c :: c in s.routed ==> Verdict(s, c, true))
    && (forall c :: c in s.filtered ==> Verdict(s, c, false))
  }

  /** A packet is only lost to lag when 512 newer ones have been sent behind it. */
  ghost predicate LagOk(s: State) {
    forall x :: x in s.lagged ==> Overrun(s, x)
  }

  ghost predicate Overrun(s: State, x: nat) {
    exists j :: 0 <= j && j + RING < |s.sent| && s.sent[j] == x
  }

  ghost predicate Inv(s: State) {
    Quiet(s) && Ordered(s) && Conserved(s) && Checked(s) && LagOk(s)
  }

  // ── Steps on the trail ──────────────────────────────────────────────────

  lemma DropMiddle(a: seq<nat>, x: seq<nat>, b: seq<nat>)
    requires FanOut.Increasing(a + (x + b))
    ensures FanOut.Increasing(a + b)
    ensures multiset(a + (x + b)) == multiset(a + b) + multiset(x)
    ensures forall y :: y in a + b ==> y in a + (x + b)
  {
    var all, rest := a + (x + b), a + b;
    forall j, k | 0 <= j < k < |rest| ensures rest[j] < rest[k] {
      var j' := if j < |a| then j else j + |x|;
      var k' := if k < |a| then k else k + |x|;
      assert all[j'] == rest[j] && all[k'] == rest[k];
    }
  }

  lemma RangeSnoc(a: nat, b: nat)
    requires a <= b
    ensures Range(a, b + 1) == Range(a, b) + [b]
  {
  }

  /** A step that keeps the packets and takes `x` out of the trail into the lost ones. */
  lemma TrailStep(s: State, s': State, a: seq<nat>, x: seq<nat>, b: seq<nat>)
    requires s.next <= |s.sent| && Ordered(s) && Conserved(s)
    requires s'.next <= |s'.sent| && s'.packets == s.packets && s'.since == s.since
    requires Trail(s) == a + (x + b) && Trail(s') == a + b && Gone(s') == Gone(s) + multiset(x)
    ensures Ordered(s') && Conserved(s')
  {
    DropMiddle(a, x, b);
  }

  lemma TrailSame(s: State, s': State)
    requires s.next <= |s.sent| && Ordered(s) && Conserved(s)
    requires s'.next <= |s'.sent| && s'.packets == s.packets && s'.since == s.since
    requires Trail(s') == Trail(s) && Gone(s') == Gone(s)
    ensures Ordered(s') && Conserved(s')
  {
  }

  lemma RangeGrows(a: nat, b: nat)
    requires a <= b
    ensures multiset(Range(a, b + 1)) == multiset(Range(a, b)) + multiset{b}
  {
    RangeSnoc(a, b);
    assert multiset(Range(a, b) + [b]) == multiset(Range(a, b)) + multiset{b};
  }

  lemma ConservedGrows(a: nat, n: nat, trail: seq<nat>, gone: multiset<nat>)
    requires a <= n && multiset(Range(a, n)) == multiset(trail) + gone
    ensures multiset(Range(a, n + 1)) == multiset(trail + [n]) + gone
  {
    RangeGrows(a, n);
    assert multiset(trail + [n]) == multiset(trail) + multiset{n};
  }

  lemma TrailGrows(s: State, s': State, p: InboundPacket, n: nat)
    requires n == |s.packets| && s.next <= |s.sent| && Ordered(s) && Conserved(s) && s.since.Some?
    requires s'.next <= |s'.sent| && s'.packets == s.packets + [p] && s'.since == s.since
    requires Trail(s') == Trail(s) + [n] && Gone(s') == Gone(s)
    ensures Ordered(s') && Conserved(s')
  {
    ConservedGrows(s.since.value, n, Trail(s), Gone(s));
    OrderedGrows(Trail(s), n);
  }

  lemma OrderedGrows(trail: seq<nat>, n: nat)
    requires OrderedAt(trail, n)
    ensures OrderedAt(trail + [n], n + 1)
  {
    FanOut.IncreasingSnoc(trail, n);
  }

  lemma TrailMisses(s: State, s': State, p: InboundPacket, n: nat)
    requires n == |s.packets| && s.next <= |s.sent| && Ordered(s) && Conserved(s) && s.since.Some?
    requires s'.next <= |s'.sent| && s'.packets == s.packets + [p] && s'.since == s.since
    requires Trail(s') == Trail(s) && Gone(s') == Gone(s) + multiset{n}
    ensures Ordered(s') && Conserved(s')
  {
    RangeGrows(s.since.value, n);
  }

  lemma QueuedKeeps(s: State, p: InboundPacket)
    requires Quiet(s) && Ordered(s) && Conserved(s) && s.since.Some? && |s.queue| < FanOut.CAPACITY
    ensures Ordered(Do(s, Event(p))) && Conserved(Do(s, Event(p)))
  {
    TrailQueued(s, Do(s, Event(p)), |s.packets|);
    TrailGrows(s, Do(s, Event(p)), p, |s.packets|);
  }

  lemma MissedKeeps(s: State, p: InboundPacket)
    requires Quiet(s) && Ordered(s) && Conserved(s) && s.since.Some? && |s.queue| >= FanOut.CAPACITY
    ensures Ordered(Do(s, Event(p))) && Conserved(Do(s, Event(p)))
  {
    var n: nat := |s.packets|;
    assert multiset(s.full + [n]) == multiset(s.full) + multiset{n};
    TrailMisses(s, Do(s, Event(p)), p, n);
  }

  lemma EventKeeps(s: State, p: InboundPacket)
    requires Quiet(s) && Ordered(s) && Conserved(s)
    ensures var s' := Do(s, Event(p)); Quiet(s') && Ordered(s') && Conserved(s')
  {
    if s.since.Some? {
      if |s.queue| < FanOut.CAPACITY {
        QueuedKeeps(s, p);
      } else {
        MissedKeeps(s, p);
      }
    }
  }

  lemma TrailQueued(s: State, s': State, n: nat)
    requires s.next <= |s.sent|
    requires s'.routed == s.routed && s'.received == s.received && s'.sent == s.sent && s'.next == s.next
    requires s'.hand == s.hand && s'.queue == s.queue + [n]
    ensures Trail(s') == Trail(s) + [n]
  {
    var tail := Held(s.hand) + s.queue;
    var more := s.sent[s.next..] + tail;
    assert Held(s.hand) + (s.queue + [n]) == tail + [n];
    assert s.sent[s.next..] + (tail + [n]) == more + [n];
    assert Held(s.received) + (more + [n]) == (Held(s.received) + more) + [n];
  }

  lemma TakeKeeps(s: State)
    requires Quiet(s) && Ordered(s) && Conserved(s) && Can(s, Take)
    ensures var s' := Do(s, Take); Quiet(s') && Ordered(s') && Conserved(s')
  {
    var s' := Do(s, Take);
    assert Held(s'.hand) + s'.queue == Held(s.hand) + s.queue;
    TrailSame(s, s');
  }

  lemma SendHeardKeeps(s: State)
    requires Quiet(s) && Ordered(s) && Conserved(s) && Can(s, Send) && s.listening
    ensures var s' := Do(s, Send); Quiet(s') && Ordered(s') && Conserved(s')
  {
    var s' := Do(s, Send);
    assert s'.sent[s.next..] == s.sent[s.next..] + [s.hand.value];
    assert s.sent[s.next..] + ([s.hand.value] + s.queue) == s'.sent[s.next..] + ([] + s.queue);
    TrailSame(s, s');
  }

  lemma SendUnheardKeeps(s: State)
    requires Quiet(s) && Ordered(s) && Conserved(s) && Can(s, Send) && !s.listening
    ensures var s' := Do(s, Send); Quiet(s') && Ordered(s') && Conserved(s')
  {
    TrailUnheard(s);
    GoneUnheard(s);
    TrailStep(s, Do(s, Send), Positions(s.routed) + Held(s.received), [s.hand.value], s.queue);
  }

  lemma TrailUnheard(s: State)
    requires Quiet(s) && Can(s, Send) && !s.listening
    ensures var before := Positions(s.routed) + Held(s.received);
            && Trail(s) == before + ([s.hand.value] + s.queue)
            && Do(s, Send).next <= |Do(s, Send).sent|
            && Trail(Do(s, Send)) == before + s.queue
  {
    Regroup(Positions(s.routed), Held(s.received), [s.hand.value] + s.queue);
    Regroup(Positions(s.routed), Held(s.received), s.queue);
    assert s.sent[s.next..] == [];
    assert [] + ([s.hand.value] + s.queue) == [s.hand.value] + s.queue;
    assert [] + ([] + s.queue) == s.queue;
  }

  lemma Regroup(a: seq<nat>, b: seq<nat>, c: seq<nat>)
    ensures (a + b) + c == a + (b + c)
  {
  }

  lemma GoneUnheard(s: State)
    requires Can(s, Send) && !s.listening
    ensures Gone(Do(s, Send)) == Gone(s) + multiset([s.hand.value])
  {
    assert multiset(s.unheard + [s.hand.value]) == multiset(s.unheard) + multiset([s.hand.value]);
  }

  lemma ReceiveKeeps(s: State)
    requires Quiet(s) && Ordered(s) && Conserved(s) && Can(s, Receive)
    ensures var s' := Do(s, Receive); Quiet(s') && Ordered(s') && Conserved(s')
  {
    var s' := Do(s, Receive);
    HeadMoves(s.sent, s.next, Held(s.hand) + s.queue);
    TrailSame(s, s');
  }

  lemma HeadMoves(sent: seq<nat>, next: nat, rest: seq<nat>)
    requires next < |sent|
    ensures [] + (sent[next..] + rest) == [sent[next]] + (sent[next + 1..] + rest)
  {
    assert sent[next..] == [sent[next]] + sent[next + 1..];
  }

  lemma LagKeeps(s: State)
    requires Quiet(s) && Ordered(s) && Conserved(s) && Can(s, Lag)
    ensures var s' := Do(s, Lag); Quiet(s') && Ordered(s') && Conserved(s')
  {
    var later := |s.sent| - RING;
    TrailLagged(s);
    GoneLagged(s);
    TrailStep(s, Do(s, Lag), Positions(s.routed), s.sent[s.next..later], s.sent[later..] + (Held(s.hand) + s.queue));
  }

  lemma TrailLagged(s: State)
    requires Quiet(s) && Can(s, Lag)
    ensures var later, rest := |s.sent| - RING, Held(s.hand) + s.queue;
            && Trail(s) == Positions(s.routed) + (s.sent[s.next..later] + (s.sent[later..] + rest))
            && Trail(Do(s, Lag)) == Positions(s.routed) + (s.sent[later..] + rest)
  {
    var later, rest := |s.sent| - RING, Held(s.hand) + s.queue;
    assert Held(s.received) == [];
    EmptyFirst(s.sent[s.next..] + rest);
    EmptyFirst(s.sent[later..] + rest);
    SkipAhead(s.sent, s.next, later, rest);
  }

  lemma EmptyFirst(a: seq<nat>)
    ensures [] + a == a
  {
  }

  lemma SkipAhead(sent: seq<nat>, next: nat, later: nat, rest: seq<nat>)
    requires next <= later <= |sent|
    ensures sent[next..] + rest == sent[next..later] + (sent[later..] + rest)
  {
    assert sent[next..] == sent[next..later] + sent[later..];
  }

  lemma GoneLagged(s: State)
    requires Can(s, Lag) && s.next <= |s.sent|
    ensures Gone(Do(s, Lag)) == Gone(s) + multiset(s.sent[s.next..|s.sent| - RING])
  {
    assert multiset(s.lagged + s.sent[s.next..|s.sent| - RING])
        == multiset(s.lagged) + multiset(s.sent[s.next..|s.sent| - RING]);
  }

  lemma PositionsSnoc(checks: seq<Check>, c: Check)
    ensures Positions(checks + [c]) == Positions(checks) + [c.pos]
  {
  }

  lemma HandOver(a: seq<nat>, x: nat, rest: seq<nat>)
    ensures (a + [x]) + ([] + rest) == a + ([x] + rest)
  {
  }

  lemma AdmitKeeps(s: State)
    requires Quiet(s) && Ordered(s) && Conserved(s) && Can(s, Dispatch)
    requires Allowed(s.ops, s.packets[s.received.value])
    ensures var s' := Do(s, Dispatch); Quiet(s') && Ordered(s') && Conserved(s')
  {
    var s' := Do(s, Dispatch);
    PositionsSnoc(s.routed, Check(s.received.value, |s.ops|));
    HandOver(Positions(s.routed), s.received.value, s.sent[s.next..] + (Held(s.hand) + s.queue));
    TrailSame(s, s');
  }

  lemma RejectKeeps(s: State)
    requires Quiet(s) && Ordered(s) && Conserved(s) && Can(s, Dispatch)
    requires !Allowed(s.ops, s.packets[s.received.value])
    ensures var s' := Do(s, Dispatch); Quiet(s') && Ordered(s') && Conserved(s')
  {
    var s' := Do(s, Dispatch);
    var x := [s.received.value];
    var rest := s.sent[s.next..] + (Held(s.hand) + s.queue);
    PositionsSnoc(s.filtered, Check(s.received.value, |s.ops|));
    assert multiset(Positions(s'.filtered)) == multiset(Positions(s.filtered)) + multiset(x);
    assert [] + rest == rest;
    TrailStep(s, s', Positions(s.routed), x, rest);
  }

  lemma AsBefore(s: State, s': State, checks: seq<Check>, verdict: bool)
    requires |s.packets| <= |s'.packets| && s'.packets[..|s.packets|] == s.packets
    requires |s.ops| <= |s'.ops| && s'.ops[..|s.ops|] == s.ops
    requires forall c :: c in checks ==> Verdict(s, c, verdict)
    ensures forall c :: c in checks ==> Verdict(s', c, verdict)
  {
    forall c | c in checks ensures Verdict(s', c, verdict) {
      assert Verdict(s, c, verdict);
      assert s'.ops[..c.ops] == s.ops[..c.ops];
    }
  }

  lemma CheckedKeeps(s: State, a: Step)
    requires Checked(s) && Can(s, a)
    ensures Checked(Do(s, a))
  {
    var s' := Do(s, a);
    AsBefore(s, s', s.routed, true);
    AsBefore(s, s', s.filtered, false);
    assert s.ops[..|s.ops|] == s.ops;
  }

  lemma LagOkKeeps(s: State, a: Step)
    requires LagOk(s) && Can(s, a) && s.next <= |s.sent|
    ensures LagOk(Do(s, a))
  {
    var s' := Do(s, a);
    forall x | x in s'.lagged ensures Overrun(s', x) {
      if x in s.lagged {
        assert Overrun(s, x);
        var j :| 0 <= j && j + RING < |s.sent| && s.sent[j] == x;
        assert s'.sent[j] == x;
      } else {
        var j :| s.next <= j < |s.sent| - RING && s.sent[j] == x;
        assert s'.sent[j] == x;
      }
    }
  }

  lemma InvStep(s: State, a: Step)
    requires Inv(s) && Can(s, a)
    ensures Inv(Do(s, a))
  {
    CheckedKeeps(s, a);
    LagOkKeeps(s, a);
    match a {
      case Event(p) => EventKeeps(s, p);
      case Bootstrap => BootstrapKeeps(s);
      case Take => TakeKeeps(s);
      case Send =>
        if s.listening {
          SendHeardKeeps(s);
        } else {
          SendUnheardKeeps(s);
        }
      case Listen => TrailSame(s, Do(s, a));
      case Receive => ReceiveKeeps(s);
      case Lag => LagKeeps(s);
      case ChangeTopics(op) => TrailSame(s, Do(s, a));
      case Dispatch =>
        if Allowed(s.ops, s.packets[s.received.value]) {
          AdmitKeeps(s);
        } else {
          RejectKeeps(s);
        }
    }
  }

  lemma BootstrapKeeps(s: State)
    requires Quiet(s) && Ordered(s) && Conserved(s) && Can(s, Bootstrap)
    ensures var s' := Do(s, Bootstrap); Quiet(s') && Ordered(s') && Conserved(s')
  {
    var s' := Do(s, Bootstrap);
    assert Trail(s') == Trail(s) == [];
    assert Range(|s.packets|, |s.packets|) == [];
  }

  lemma {:induction false} InvRun(steps: seq<Step>)
    requires Exec(steps).Some?
    ensures Inv(Exec(steps).value)
  {
    if steps != [] {
      InvRun(steps[..|steps| - 1]);
      InvStep(Exec(steps[..|steps| - 1]).value, steps[|steps| - 1]);
    }
  }

  lemma ReachableInv(s: State)
    requires Reachable(s)
    ensures Inv(s)
  {
    var steps :| Exec(steps) == Some(s);
    InvRun(steps);
  }

  // ── What holds of every run ─────────────────────────────────────────────

  /**
   Every packet parsed since the pipeline subscribed is in exactly one place: routed, in the
   forwarder task's hands, unread in the ring, in the thread's hands, queued, filtered out, or lost
   to a full queue, to a ring nobody listened on, or to lag.
   */
  lemma EveryPacketInOnePlace(s: State)
    requires Reachable(s) && s.since.Some?
    ensures s.next <= |s.sent| && s.since.value <= |s.packets|
    ensures multiset(Range(s.since.value, |s.packets|))
            == multiset(Positions(s.routed)) + multiset(Held(s.received)) + multiset(s.sent[s.next..])
               + multiset(Held(s.hand)) + multiset(s.queue)
               + multiset(Positions(s.filtered)) + multiset(s.full) + multiset(s.unheard) + multiset(s.lagged)
  {
    ReachableInv(s);
  }

  /** Nothing overtakes: what is routed, and all that is still on the way, is in the order it was parsed. */
  lemma NothingOvertakes(s: State)
    requires Reachable(s)
    ensures s.next <= |s.sent| && FanOut.Increasing(Trail(s)) && FanOut.Increasing(Positions(s.routed))
    ensures forall x :: x in Trail(s) ==> x < |s.packets|
  {
    ReachableInv(s);
    var routed, trail := Positions(s.routed), Trail(s);
    assert forall j :: 0 <= j < |routed| ==> trail[j] == routed[j];
  }

  /** A packet that came out of the ring is routed exactly when the peer then held its conversation. */
  lemma RoutedExactly(s: State, c: Check)
    requires Reachable(s) && (c in s.routed || c in s.filtered)
    ensures c.pos < |s.packets| && c.ops <= |s.ops|
    ensures c in s.routed <==>
              Filters.Holds(s.ops[..c.ops], s.packets[c.pos].conversationId)
              && s.packets[c.pos].subtopic in SUBTOPICS
  {
    ReachableInv(s);
    assert c in s.routed ==> Verdict(s, c, true);
    assert c in s.filtered ==> Verdict(s, c, false);
    Filters.FilterRefines(s.ops[..c.ops], s.packets[c.pos].conversationId, s.packets[c.pos].subtopic);
  }

  /** The packets behind some positions. */
  function At(packets: seq<InboundPacket>, positions: seq<nat>): seq<InboundPacket>
    requires forall k :: 0 <= k < |positions| ==> positions[k] < |packets|
  {
    if positions == [] then []
    else At(packets, positions[..|positions| - 1]) + [packets[positions[|positions| - 1]]]
  }

  lemma {:induction false} AtExtends(packets: seq<InboundPacket>, p: InboundPacket, positions: seq<nat>)
    requires forall k :: 0 <= k < |positions| ==> positions[k] < |packets|
    ensures At(packets + [p], positions) == At(packets, positions) && |At(packets, positions)| == |positions|
  {
    if positions != [] {
      AtExtends(packets, p, positions[..|positions| - 1]);
    }
  }

  /** The queue is one connected receiver of the callback's fan-out. */
  lemma QueueIsAReceiver(s: State, p: InboundPacket)
    requires Reachable(s) && s.since.Some?
    ensures var s' := Do(s, Event(p));
            && (forall k :: 0 <= k < |s.queue| ==> s.queue[k] < |s.packets|)
            && (forall k :: 0 <= k < |s'.queue| ==> s'.queue[k] < |s'.packets|)
            && FanOut.TrySend(FanOut.Queue(At(s.packets, s.queue), true), p).0
               == FanOut.Queue(At(s'.packets, s'.queue), true)
  {
    ReachableInv(s);
    forall k | 0 <= k < |s.queue| ensures s.queue[k] < |s.packets| {
      assert s.queue[k] in Trail(s);
    }
    AtExtends(s.packets, p, s.queue);
    if |s.queue| < FanOut.CAPACITY {
      var n: nat := |s.packets|;
      assert (s.queue + [n])[..|s.queue|] == s.queue;
    }
  }

  /** Lag loses a packet only when at least 512 newer ones were sent on the ring. */
  lemma LagLosesTheOldest(s: State, x: nat)
    requires Reachable(s) && x in s.lagged
    ensures exists j :: 0 <= j && j + RING < |s.sent| && s.sent[j] == x
  {
    ReachableInv(s);
    assert Overrun(s, x);
  }
}
