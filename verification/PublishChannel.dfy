/**
 `publish`: any number of service handles send commands down one bounded queue to the node thread,
 and each waits for the answer on a one-slot channel of its own.
 */
module PublishChannel {
  import opened Packets
  import opened Wrappers

  const CAPACITY := 256

  /** What the relay answered: a message id, or its error. */
  type Answer = Result<string, string>

  datatype Outcome = Published | RelayFailed(error: string) | ChannelClosed

  datatype Phase = Sending | Waiting | Returned(outcome: Outcome)

  /** One call of `publish`: its reply slot, and whether the sending end of it still exists. */
  datatype Call = Call(handle: nat, packet: OutboundPacket, phase: Phase, reply: Option<Answer>, replyOpen: bool)

  datatype Node = Idle | Relaying(call: nat) | Relayed(call: nat) | Stopped

  datatype State = State(
    handles: map<nat, Option<nat>>,  // live handles, each with the call it is in
    calls: seq<Call>,                // every call ever
    queue: seq<nat>,
    node: Node,
    sends: seq<nat>,                 // history: calls in the order their commands entered the queue
    relayed: seq<nat>,               // history: calls in the order the relay answered them
    answers: map<nat, Answer>,       // history: what it answered
    handed: seq<OutboundPacket>,     // history: the packets the relay was handed
    dropped: seq<nat>,               // history: commands that died with the node thread
    panicked: bool,                  // history: the node thread unwound
    spilled: bool)                   // history: an answer found its slot full or its caller gone

  const INIT := State(map[0 := None], [], [], Idle, [], [], map[], [], [], false, false)

  datatype Step =
    | Clone(handle: nat, from: nat)
    | Close(handle: nat)
    | Begin(handle: nat, packet: OutboundPacket)
    | Send(call: nat)
    | Take
    | Relay(answer: Answer)
    | Reply
    | Receive(call: nat)
    | End
    | Panic

  predicate In(s: State, c: nat, phase: Phase) {
    c < |s.calls| && s.calls[c].phase == phase
  }

  predicate Can(s: State, a: Step) {
    match a
    case Clone(h, from) => h !in s.handles && from in s.handles && s.handles[from].None?
    case Close(h) => h in s.handles && s.handles[h].None?
    case Begin(h, _) => h in s.handles && s.handles[h].None?
    // a send blocks while the queue is full, and fails once the receiver is gone
    case Send(c) => In(s, c, Sending) && (s.node.Stopped? || |s.queue| < CAPACITY)
    case Take => s.node.Idle? && s.queue != []
    case Relay(_) => s.node.Relaying? && s.node.call < |s.calls|
    case Reply => s.node.Relayed? && s.node.call < |s.calls| && s.node.call in s.answers
    // a receive blocks while the slot is empty and its sender alive
    case Receive(c) => In(s, c, Waiting) && (s.calls[c].reply.Some? || !s.calls[c].replyOpen)
    // the queue's receive fails only when it is empty and every handle is gone
    case End => s.node.Idle? && s.queue == [] && s.handles == map[]
    case Panic => s.node.Relaying?
  }

  function Return(s: State, c: nat, outcome: Outcome): State
    requires c < |s.calls|
  {
    var call := s.calls[c];
    s.(calls := s.calls[c := call.(phase := Returned(outcome), replyOpen := false)],
       handles := s.handles[call.handle := None])
  }

  function OutcomeOf(reply: Option<Answer>): Outcome {
    match reply
    case None => ChannelClosed
    case Some(Ok(_)) => Published
    case Some(Err(e)) => RelayFailed(e)
  }

  /** The reply senders of these calls are gone. */
  function Orphaned(calls: seq<Call>, gone: seq<nat>): seq<Call> {
    seq(|calls|, c requires 0 <= c < |calls| => if c in gone then calls[c].(replyOpen := false) else calls[c])
  }

  function Do(s: State, a: Step): State
    requires Can(s, a)
  {
    match a
    case Clone(h, _) => s.(handles := s.handles[h := None])
    case Close(h) => s.(handles := s.handles - {h})
    case Begin(h, p) =>
      s.(calls := s.calls + [Call(h, p, Sending, None, true)], handles := s.handles[h := Some(|s.calls|)])
    case Send(c) =>
      if s.node.Stopped? then Return(s, c, ChannelClosed)
      else
        s.(calls := s.calls[c := s.calls[c].(phase := Waiting)], queue := s.queue + [c], sends := s.sends + [c])
    case Take => s.(node := Relaying(s.queue[0]), queue := s.queue[1..])
    case Relay(answer) =>
      var c := s.node.call;
      s.(node := Relayed(c), relayed := s.relayed + [c], answers := s.answers[c := answer],
         handed := s.handed + [s.calls[c].packet])
    case Reply =>
      var c := s.node.call;
      var call := s.calls[c];
      if call.reply.None? && call.phase.Waiting? then
        s.(node := Idle, calls := s.calls[c := call.(reply := Some(s.answers[c]), replyOpen := false)])
      else
        s.(node := Idle, calls := s.calls[c := call.(replyOpen := false)], spilled := true)
    case Receive(c) => Return(s, c, OutcomeOf(s.calls[c].reply))
    case End => s.(node := Stopped)
    case Panic =>
      var gone := [s.node.call] + s.queue;
      s.(node := Stopped, queue := [], dropped := gone, panicked := true, calls := Orphaned(s.calls, gone))
  }

  function Exec(steps: seq<Step>): Option<State> {
    if steps == [] then Some(INIT)
    else
      var before := Exec(steps[..|steps| - 1]);
      if before.Some? && Can(before.value, steps[|steps| - 1])
      then Some(Do(before.value, steps[|steps| - 1])) else None
  }

  ghost predicate Reachable(s: State) {
    exists steps :: Exec(steps) == Some(s)
  }

  // ── Invariant ───────────────────────────────────────────────────────────

  function Current(node: Node): seq<nat> {
    if node.Relaying? then [node.call] else []
  }

  /** Commands the node thread still owes an answer. */
  predicate Owed(s: State, c: nat) {
    c in s.queue || s.node == Relaying(c) || s.node == Relayed(c)
  }

  predicate Distinct(ids: seq<nat>) {
    forall j, k :: 0 <= j < k < |ids| ==> ids[j] != ids[k]
  }

  ghost predicate OrderOk(s: State) {
    && s.sends == s.relayed + (Current(s.node) + (s.queue + s.dropped))
    && Distinct(s.sends)
    && |s.queue| <= CAPACITY
    && (s.dropped != [] ==> s.node.Stopped?)
    && (s.node.Stopped? ==> s.queue == [])
    && (s.node.Relayed? ==> s.node.call in s.relayed)
    && (forall c :: c in s.relayed <==> c in s.answers)
    && (forall c :: c in s.sends ==> c < |s.calls| && !s.calls[c].phase.Sending?)
  }

  ghost predicate CallOk(s: State, c: nat)
    requires c < |s.calls|
  {
    var call := s.calls[c];
    match call.phase
    case Sending => c !in s.sends && call.reply.None? && call.replyOpen
    case Waiting =>
      && c in s.sends
      && (Owed(s, c) <==> call.replyOpen)
      && (Owed(s, c) ==> call.reply.None?)
      && (!Owed(s, c) && c in s.answers ==> call.reply == Some(s.answers[c]))
      && (!Owed(s, c) && c !in s.answers ==> call.reply.None? && s.panicked)
    case Returned(outcome) =>
      && !Owed(s, c)
      && outcome == (if c in s.answers then OutcomeOf(Some(s.answers[c])) else ChannelClosed)
      && (c !in s.answers ==> s.panicked)
  }

  ghost predicate HandlesOk(s: State) {
    && (s.node.Stopped? && !s.panicked ==> s.handles == map[])
    && (s.panicked ==> s.node.Stopped?)
    && (forall c :: 0 <= c < |s.calls| && !s.calls[c].phase.Returned? ==>
          s.calls[c].handle in s.handles && s.handles[s.calls[c].handle] == Some(c))
    && (forall h :: h in s.handles && s.handles[h].Some? ==>
          s.handles[h].value < |s.calls| && s.calls[s.handles[h].value].handle == h)
  }

  ghost predicate Inv(s: State) {
    && OrderOk(s)
    && (forall c :: 0 <= c < |s.calls| ==> CallOk(s, c))
    && HandlesOk(s)
    && !s.spilled
  }

  // ── Every step keeps it ─────────────────────────────────────────────────

  lemma OwedWasSent(s: State, c: nat)
    requires OrderOk(s) && Owed(s, c)
    ensures c in s.sends && c < |s.calls| && !s.calls[c].phase.Sending?
  {
    assert s.node == Relaying(c) ==> c in Current(s.node);
  }

  /** A command is waiting, at the relay, or answered: no two of these. */
  lemma OnePlace(s: State)
    requires OrderOk(s)
    ensures forall c :: c in s.relayed ==> c !in s.queue && c !in s.dropped && s.node != Relaying(c)
    ensures forall c :: c in s.queue ==> s.node != Relaying(c)
    ensures Distinct(s.relayed)
  {
    var rest := Current(s.node) + (s.queue + s.dropped);
    forall j, k | 0 <= j < |s.relayed| && 0 <= k < |rest| ensures s.relayed[j] != rest[k] {
      assert s.sends[j] == s.relayed[j] && s.sends[|s.relayed| + k] == rest[k];
    }
    assert forall j :: 0 <= j < |s.relayed| ==> s.sends[j] == s.relayed[j];
    var n := |s.relayed|;
    var m := |Current(s.node)|;
    assert s.node.Relaying? ==> s.node.call == rest[0] && s.node.call == s.sends[n];
    forall c | c in s.queue ensures c in rest && s.node != Relaying(c) {
      var j :| 0 <= j < |s.queue| && s.queue[j] == c;
      assert rest[m + j] == c && s.sends[n + m + j] == c;
    }
    forall c | c in s.dropped ensures c in rest {
      var k :| 0 <= k < |s.dropped| && s.dropped[k] == c;
      assert rest[m + |s.queue| + k] == c;
    }
  }

  lemma OrderSend(s: State, c: nat)
    requires OrderOk(s) && Can(s, Send(c)) && !s.node.Stopped? && c !in s.sends
    ensures OrderOk(Do(s, Send(c)))
  {
    var s' := Do(s, Send(c));
    var front := Current(s.node) + (s.queue + s.dropped);
    assert s.dropped == [];
    assert Current(s.node) + ((s.queue + [c]) + s.dropped) == front + [c];
    assert s.relayed + (front + [c]) == (s.relayed + front) + [c];
  }

  lemma OrderNode(s: State, a: Step)
    requires OrderOk(s) && Can(s, a) && (a.Take? || a.Relay? || a.Panic?)
    ensures OrderOk(Do(s, a))
  {
    match a {
      case Take =>
        assert s.queue == [s.queue[0]] + s.queue[1..];
        assert [] + (s.queue + s.dropped) == [s.queue[0]] + (s.queue[1..] + s.dropped);
      case Relay(answer) =>
        var c := s.node.call;
        assert s.relayed + ([c] + (s.queue + s.dropped)) == (s.relayed + [c]) + ([] + (s.queue + s.dropped));
      case Panic =>
        var gone := [s.node.call] + s.queue;
        assert [s.node.call] + (s.queue + []) == [] + ([] + gone);
    }
  }

  lemma OrderOther(s: State, a: Step)
    requires OrderOk(s) && Can(s, a) && (a.Clone? || a.Close? || a.Begin? || a.Reply? || a.End?)
    ensures OrderOk(Do(s, a))
  {
    var s' := Do(s, a);
    assert s'.sends == s.sends && s'.relayed == s.relayed && s'.answers == s.answers && s'.queue == s.queue;
    assert s'.dropped == s.dropped && Current(s'.node) == Current(s.node) && |s.calls| <= |s'.calls|;
    if a.Begin? {
      assert s'.calls[..|s.calls|] == s.calls;
    }
  }

  lemma OrderReturn(s: State, c: nat, outcome: Outcome)
    requires OrderOk(s) && c < |s.calls|
    ensures OrderOk(Return(s, c, outcome))
  {
  }

  ghost predicate CallsOk(s: State) {
    forall c :: 0 <= c < |s.calls| ==> CallOk(s, c)
  }

  lemma CallsSend(s: State, c: nat)
    requires OrderOk(s) && CallsOk(s) && Can(s, Send(c)) && !s.node.Stopped?
    ensures CallsOk(Do(s, Send(c)))
  {
    var s' := Do(s, Send(c));
    forall d | 0 <= d < |s'.calls| ensures CallOk(s', d) {
      assert CallOk(s, d);
      assert d != c ==> (d in s'.queue <==> d in s.queue) && (d in s'.sends <==> d in s.sends);
    }
  }

  lemma CallsTake(s: State)
    requires OrderOk(s) && CallsOk(s) && Can(s, Take)
    ensures CallsOk(Do(s, Take))
  {
    var s' := Do(s, Take);
    assert s.queue == [s.queue[0]] + s.queue[1..];
    forall d | 0 <= d < |s'.calls| ensures CallOk(s', d) {
      assert CallOk(s, d);
      assert Owed(s', d) <==> Owed(s, d);
    }
  }

  lemma CallsRelay(s: State, answer: Answer)
    requires OrderOk(s) && CallsOk(s) && Can(s, Relay(answer))
    ensures CallsOk(Do(s, Relay(answer)))
  {
    var s' := Do(s, Relay(answer));
    OwedWasSent(s, s.node.call);
    forall d | 0 <= d < |s'.calls| ensures CallOk(s', d) {
      assert CallOk(s, d);
      assert Owed(s', d) <==> Owed(s, d);
    }
  }

  /** The answer finds its slot empty and its caller waiting. */
  lemma ReplyFits(s: State)
    requires OrderOk(s) && CallsOk(s) && Can(s, Reply)
    ensures s.calls[s.node.call].reply.None? && s.calls[s.node.call].phase.Waiting?
  {
    OwedWasSent(s, s.node.call);
    assert CallOk(s, s.node.call);
  }

  lemma CallsReply(s: State)
    requires OrderOk(s) && CallsOk(s) && Can(s, Reply)
    ensures CallsOk(Do(s, Reply))
  {
    var s' := Do(s, Reply);
    ReplyFits(s);
    OnePlace(s);
    forall d | 0 <= d < |s'.calls| ensures CallOk(s', d) {
      assert CallOk(s, d);
      assert d != s.node.call ==> (Owed(s', d) <==> Owed(s, d));
    }
  }

  lemma CallsReturn(s: State, c: nat, outcome: Outcome)
    requires OrderOk(s) && CallsOk(s) && c < |s.calls| && !Owed(s, c)
    requires outcome == if c in s.answers then OutcomeOf(Some(s.answers[c])) else ChannelClosed
    requires c !in s.answers ==> s.panicked
    ensures CallsOk(Return(s, c, outcome))
  {
    var s' := Return(s, c, outcome);
    forall d | 0 <= d < |s'.calls| ensures CallOk(s', d) {
      assert CallOk(s, d);
      assert Owed(s', d) <==> Owed(s, d);
    }
  }

  lemma CallsPanic(s: State)
    requires OrderOk(s) && CallsOk(s) && Can(s, Panic)
    ensures CallsOk(Do(s, Panic))
  {
    var s' := Do(s, Panic);
    OnePlace(s);
    forall d | 0 <= d < |s'.calls| ensures CallOk(s', d) {
      assert CallOk(s, d);
      assert Owed(s, d) <==> d in s'.dropped;
    }
  }

  lemma CallsOther(s: State, a: Step)
    requires OrderOk(s) && CallsOk(s) && Can(s, a) && (a.Clone? || a.Close? || a.Begin? || a.End?)
    ensures CallsOk(Do(s, a))
  {
    var s' := Do(s, a);
    forall d | 0 <= d < |s'.calls| ensures CallOk(s', d) {
      if d < |s.calls| {
        assert CallOk(s, d);
        assert Owed(s', d) <==> Owed(s, d);
      }
    }
  }

  lemma HandlesReturn(s: State, c: nat, outcome: Outcome)
    requires HandlesOk(s) && c < |s.calls| && !s.calls[c].phase.Returned?
    ensures HandlesOk(Return(s, c, outcome))
  {
  }

  lemma HandlesClient(s: State, a: Step)
    requires HandlesOk(s) && Can(s, a) && (a.Clone? || a.Close? || a.Begin?)
    ensures HandlesOk(Do(s, a))
  {
  }

  lemma HandlesNode(s: State, a: Step)
    requires HandlesOk(s) && Can(s, a) && !a.Clone? && !a.Close? && !a.Begin? && !a.Receive?
    requires a.Send? ==> !s.node.Stopped?
    ensures HandlesOk(Do(s, a))
  {
    var s' := Do(s, a);
    assert s'.handles == s.handles && |s'.calls| == |s.calls|;
    SameCallers(s, a);
    SameHandles(s, s');
  }

  /** Steps of the node, and a send that enters the queue, keep who calls and who is done. */
  lemma SameCallers(s: State, a: Step)
    requires Can(s, a) && !a.Clone? && !a.Close? && !a.Begin? && !a.Receive? && (a.Send? ==> !s.node.Stopped?)
    ensures |Do(s, a).calls| == |s.calls|
    ensures forall c :: 0 <= c < |s.calls| ==>
              Do(s, a).calls[c].handle == s.calls[c].handle
              && (Do(s, a).calls[c].phase.Returned? <==> s.calls[c].phase.Returned?)
  {
  }

  lemma SameHandles(s: State, s': State)
    requires HandlesOk(s) && s'.handles == s.handles && |s'.calls| == |s.calls|
    requires s'.node.Stopped? && !s'.panicked ==> s.handles == map[]
    requires s'.panicked ==> s'.node.Stopped?
    requires forall c :: 0 <= c < |s.calls| ==>
               s'.calls[c].handle == s.calls[c].handle
               && (s'.calls[c].phase.Returned? <==> s.calls[c].phase.Returned?)
    ensures HandlesOk(s')
  {
  }

  lemma StepSend(s: State, c: nat)
    requires Inv(s) && Can(s, Send(c))
    ensures Inv(Do(s, Send(c)))
  {
    assert CallOk(s, c);
    if s.node.Stopped? {
      HandlesReturn(s, c, ChannelClosed);
      OrderReturn(s, c, ChannelClosed);
      if Owed(s, c) {
        OwedWasSent(s, c);
      }
      CallsReturn(s, c, ChannelClosed);
    } else {
      HandlesNode(s, Send(c));
      OrderSend(s, c);
      CallsSend(s, c);
    }
  }

  lemma StepNode(s: State, a: Step)
    requires Inv(s) && Can(s, a) && (a.Take? || a.Relay? || a.Reply? || a.Panic?)
    ensures Inv(Do(s, a))
  {
    HandlesNode(s, a);
    match a {
      case Take => OrderNode(s, a); CallsTake(s);
      case Relay(answer) => OrderNode(s, a); CallsRelay(s, answer);
      case Reply => OrderOther(s, a); CallsReply(s); ReplyFits(s);
      case Panic => OrderNode(s, a); CallsPanic(s);
    }
  }

  lemma StepReceive(s: State, c: nat)
    requires Inv(s) && Can(s, Receive(c))
    ensures Inv(Do(s, Receive(c)))
  {
    assert CallOk(s, c);
    HandlesReturn(s, c, OutcomeOf(s.calls[c].reply));
    OrderReturn(s, c, OutcomeOf(s.calls[c].reply));
    CallsReturn(s, c, OutcomeOf(s.calls[c].reply));
  }

  lemma InvStep(s: State, a: Step)
    requires Inv(s) && Can(s, a)
    ensures Inv(Do(s, a))
  {
    match a {
      case Send(c) => StepSend(s, c);
      case Receive(c) => StepReceive(s, c);
      case Take => StepNode(s, a);
      case Relay(_) => StepNode(s, a);
      case Reply => StepNode(s, a);
      case Panic => StepNode(s, a);
      case End => OrderOther(s, a); CallsOther(s, a); HandlesNode(s, a);
      case _ => OrderOther(s, a); CallsOther(s, a); HandlesClient(s, a);
    }
  }

  lemma {:induction false} InvRun(steps: seq<Step>)
    requires Exec(steps).Some?
    ensures Inv(Exec(steps).value)
  {
    if steps != [] {
      InvRun(steps[..|steps| - 1]);
      InvStep(Exec(steps[..|steps| - 1]).value, steps[|steps| - 1]);
    }
  }

  lemma ReachableInv(s: State)
    requires Reachable(s)
    ensures Inv(s)
  {
    var steps :| Exec(steps) == Some(s);
    InvRun(steps);
  }

  // ── What holds of every run ─────────────────────────────────────────────

  /**
   The relay answers commands in the order they entered the queue, each at most once; then come the
   one it is working on and those queued. Only a panic of the node thread drops any.
   */
  lemma RelayedInQueueOrder(s: State)
    requires Reachable(s)
    ensures s.sends == s.relayed + (Current(s.node) + (s.queue + s.dropped))
    ensures Distinct(s.sends) && |s.queue| <= CAPACITY
    ensures s.dropped != [] ==> s.node.Stopped? && s.panicked
  {
    ReachableInv(s);
    DroppedByPanic(s);
  }

  lemma {:induction false} DroppedByPanicRun(steps: seq<Step>)
    requires Exec(steps).Some?
    ensures Exec(steps).value.dropped != [] ==> Exec(steps).value.panicked
  {
    if steps != [] {
      DroppedByPanicRun(steps[..|steps| - 1]);
      var s, a := Exec(steps[..|steps| - 1]).value, steps[|steps| - 1];
      assert !a.Panic? ==> Do(s, a).dropped == s.dropped && Do(s, a).panicked == s.panicked;
    }
  }

  lemma DroppedByPanic(s: State)
    requires Reachable(s)
    ensures s.dropped != [] ==> s.panicked
  {
    var steps :| Exec(steps) == Some(s);
    DroppedByPanicRun(steps);
  }

  /** A caller gets the relay's answer to its own command, and `Ok` only if the relay took that packet. */
  lemma OwnAnswer(s: State, c: nat)
    requires Reachable(s) && c < |s.calls| && s.calls[c].phase.Returned?
    ensures var outcome := s.calls[c].phase.outcome;
            && (outcome == Published <==> c in s.answers && s.answers[c].Ok?)
            && (forall e :: outcome == RelayFailed(e) <==> c in s.answers && s.answers[c] == Err(e))
            && (outcome == ChannelClosed <==> c !in s.answers)
            && (c in s.answers <==> c in s.relayed)
  {
    ReachableInv(s);
    assert CallOk(s, c);
  }

  /** No answer ever finds its one slot full or its caller gone. */
  lemma SlotAlwaysFree(s: State)
    requires Reachable(s)
    ensures !s.spilled
    ensures Can(s, Reply) ==> s.calls[s.node.call].reply.None? && s.calls[s.node.call].phase.Waiting?
  {
    ReachableInv(s);
    if Can(s, Reply) {
      ReplyFits(s);
    }
  }

  /** A closed channel is seen only after the node thread panicked: dropping handles never causes it. */
  lemma ClosedOnlyByPanic(s: State, c: nat)
    requires Reachable(s) && c < |s.calls| && s.calls[c].phase == Returned(ChannelClosed)
    ensures s.panicked && c !in s.relayed
  {
    ReachableInv(s);
    assert CallOk(s, c);
  }

  /** While a call is unfinished, some thread can always go on: publishing never deadlocks. */
  lemma NeverStuck(s: State, c: nat) returns (a: Step)
    requires Reachable(s) && c < |s.calls| && !s.calls[c].phase.Returned?
    ensures Can(s, a) && (a == Send(c) || a == Receive(c) || a.Take? || a.Relay? || a.Reply?)
  {
    ReachableInv(s);
    assert CallOk(s, c);
    match s.node {
      case Relaying(d) => OwedWasSent(s, d); a := Relay(Err(""));
      case Relayed(d) => OwedWasSent(s, d); a := Reply;
      case Idle =>
        if s.queue != [] {
          a := Take;
        } else if s.calls[c].phase.Sending? {
          a := Send(c);
        } else {
          a := Receive(c);
        }
      case Stopped => a := if s.calls[c].phase.Sending? then Send(c) else Receive(c);
    }
  }

  // ── Every call ends ─────────────────────────────────────────────────────

  function PhaseWork(phase: Phase): nat {
    match phase case Sending => 5 case Waiting => 1 case Returned(_) => 0
  }

  function CallWork(calls: seq<Call>): nat {
    if calls == [] then 0 else CallWork(calls[..|calls| - 1]) + PhaseWork(calls[|calls| - 1].phase)
  }

  /** What is left to do for the calls begun so far. */
  function Work(s: State): nat {
    CallWork(s.calls) + 3 * |s.queue| + (match s.node case Relaying(_) => 2 case Relayed(_) => 1 case _ => 0)
  }

  lemma {:induction false} CallWorkUpdate(calls: seq<Call>, c: nat, call: Call)
    requires c < |calls|
    ensures CallWork(calls[c := call]) == CallWork(calls) - PhaseWork(calls[c].phase) + PhaseWork(call.phase)
  {
    var last := |calls| - 1;
    if c == last {
      assert calls[c := call][..last] == calls[..last];
    } else {
      assert calls[c := call][..last] == calls[..last][c := call];
      CallWorkUpdate(calls[..last], c, call);
    }
  }

  /**
   Every step that serves a call leaves strictly less to do, so with `NeverStuck` each call returns
   after finitely many of them.
   */
  lemma ServingFinishes(s: State, a: Step)
    requires Reachable(s) && Can(s, a) && (a.Send? || a.Take? || a.Relay? || a.Reply? || a.Receive?)
    ensures Work(Do(s, a)) < Work(s)
  {
    ReachableInv(s);
    match a {
      case Send(c) => CallWorkUpdate(s.calls, c, Do(s, a).calls[c]);
      case Receive(c) => CallWorkUpdate(s.calls, c, Do(s, a).calls[c]);
      case Reply => CallWorkUpdate(s.calls, s.node.call, Do(s, a).calls[s.node.call]);
      case _ =>
    }
  }

  // ── Whose packet, and whose answer ──────────────────────────────────────

  /** The calls a run begins, by handle and packet. */
  function Begun(run: seq<Step>): seq<(nat, OutboundPacket)> {
    if run == [] then []
    else
      var before, a := Begun(run[..|run| - 1]), run[|run| - 1];
      if a.Begin? then before + [(a.handle, a.packet)] else before
  }

  /** What the relay answered, in order. */
  function RelayAnswers(run: seq<Step>): seq<Answer> {
    if run == [] then []
    else
      var before, a := RelayAnswers(run[..|run| - 1]), run[|run| - 1];
      if a.Relay? then before + [a.answer] else before
  }

  /** The handles cloned and not closed since, from the first one on. */
  function Handles(run: seq<Step>): set<nat> {
    if run == [] then {0}
    else
      var before, a := Handles(run[..|run| - 1]), run[|run| - 1];
      match a
      case Clone(h, _) => before + {h}
      case Close(h) => before - {h}
      case _ => before
  }

  lemma CallsKept(s: State, a: Step)
    requires Can(s, a) && !a.Begin?
    ensures |Do(s, a).calls| == |s.calls|
    ensures forall c :: 0 <= c < |s.calls| ==>
              Do(s, a).calls[c].packet == s.calls[c].packet && Do(s, a).calls[c].handle == s.calls[c].handle
  {
    match a {
      case Send(c) => CallerKeepsCalls(s, a);
      case Receive(c) => CallerKeepsCalls(s, a);
      case Reply => NodeKeepsCalls(s, a);
      case Panic => NodeKeepsCalls(s, a);
      case _ =>
    }
  }

  lemma CallerKeepsCalls(s: State, a: Step)
    requires Can(s, a) && (a.Send? || a.Receive?)
    ensures |Do(s, a).calls| == |s.calls|
    ensures forall c :: 0 <= c < |s.calls| ==>
              Do(s, a).calls[c].packet == s.calls[c].packet && Do(s, a).calls[c].handle == s.calls[c].handle
  {
  }

  lemma NodeKeepsCalls(s: State, a: Step)
    requires Can(s, a) && (a.Reply? || a.Panic?)
    ensures |Do(s, a).calls| == |s.calls|
    ensures forall c :: 0 <= c < |s.calls| ==>
              Do(s, a).calls[c].packet == s.calls[c].packet && Do(s, a).calls[c].handle == s.calls[c].handle
  {
  }

  lemma SameRelay(s: State, a: Step)
    requires Can(s, a) && !a.Relay?
    ensures Do(s, a).relayed == s.relayed && Do(s, a).answers == s.answers && Do(s, a).handed == s.handed
  {
  }

  lemma CallBegun(s: State, h: nat, p: OutboundPacket)
    requires Can(s, Begin(h, p))
    ensures Do(s, Begin(h, p)).calls == s.calls + [Call(h, p, Sending, None, true)]
  {
  }

  ghost predicate AreBegun(calls: seq<Call>, begun: seq<(nat, OutboundPacket)>) {
    |calls| == |begun| && forall c :: 0 <= c < |calls| ==> calls[c].handle == begun[c].0 && calls[c].packet == begun[c].1
  }

  lemma {:induction false} CallsAreBegun(run: seq<Step>)
    requires Exec(run).Some?
    ensures AreBegun(Exec(run).value.calls, Begun(run))
  {
    if run != [] {
      CallsAreBegun(run[..|run| - 1]);
      var s, a := Exec(run[..|run| - 1]).value, run[|run| - 1];
      if a.Begin? {
        CallBegun(s, a.handle, a.packet);
      } else {
        CallsKept(s, a);
      }
    }
  }

  /** The answers kept are the relay's, call by call, and it was handed each call's own packet. */
  ghost predicate Answered(s: State, answers: seq<Answer>) {
    && |s.relayed| == |answers| == |s.handed|
    && forall k :: 0 <= k < |answers| ==>
         && s.relayed[k] in s.answers && s.answers[s.relayed[k]] == answers[k]
         && s.relayed[k] < |s.calls| && s.handed[k] == s.calls[s.relayed[k]].packet
  }

  lemma AnsweredStep(s: State, a: Step, answers: seq<Answer>)
    requires OrderOk(s) && Can(s, a) && Answered(s, answers)
    ensures Answered(Do(s, a), if a.Relay? then answers + [a.answer] else answers)
  {
    if a.Relay? {
      AnsweredRelay(s, a.answer, answers);
    } else {
      SameRelay(s, a);
      if a.Begin? {
        CallBegun(s, a.handle, a.packet);
      } else {
        CallsKept(s, a);
      }
      StillAnswered(s, Do(s, a), answers);
    }
  }

  lemma StillAnswered(s: State, s': State, answers: seq<Answer>)
    requires Answered(s, answers)
    requires s'.relayed == s.relayed && s'.answers == s.answers && s'.handed == s.handed && |s.calls| <= |s'.calls|
    requires forall c :: 0 <= c < |s.calls| ==> s'.calls[c].packet == s.calls[c].packet
    ensures Answered(s', answers)
  {
  }

  lemma AnsweredRelay(s: State, answer: Answer, answers: seq<Answer>)
    requires OrderOk(s) && Can(s, Relay(answer)) && Answered(s, answers)
    ensures Answered(Do(s, Relay(answer)), answers + [answer])
  {
    OnePlace(s);
    assert forall k :: 0 <= k < |s.relayed| ==> s.relayed[k] in s.relayed;
  }

  lemma {:induction false} AnsweredInRun(run: seq<Step>)
    requires Exec(run).Some?
    ensures Answered(Exec(run).value, RelayAnswers(run))
  {
    if run != [] {
      InvRun(run[..|run| - 1]);
      AnsweredInRun(run[..|run| - 1]);
      AnsweredStep(Exec(run[..|run| - 1]).value, run[|run| - 1], RelayAnswers(run[..|run| - 1]));
    }
  }

  /** The relay's `k`-th answer is to call `c`, and is about the packet that call was begun with. */
  ghost predicate AnswerTo(run: seq<Step>, s: State, c: nat, k: nat) {
    && k < |s.relayed| && s.relayed[k] == c && k < |s.handed| && c < |Begun(run)|
    && s.handed[k] == Begun(run)[c].1
  }

  /**
   A call returns `Ok` exactly if the relay answered so to the packet that call was begun with, and
   an error exactly if it gave that one.
   */
  lemma OwnPacket(run: seq<Step>, c: nat)
    requires Exec(run).Some? && c < |Exec(run).value.calls| && Exec(run).value.calls[c].phase.Returned?
    ensures var s, outcome := Exec(run).value, Exec(run).value.calls[c].phase.outcome;
            var answers := RelayAnswers(run);
            && |answers| == |s.relayed|
            && (outcome == Published <==> exists k: nat :: AnswerTo(run, s, c, k) && answers[k].Ok?)
            && (forall e :: outcome == RelayFailed(e) <==> exists k: nat :: AnswerTo(run, s, c, k) && answers[k] == Err(e))
            && (outcome == ChannelClosed <==> forall k: nat :: !AnswerTo(run, s, c, k))
  {
    var s := Exec(run).value;
    OwnAnswer(s, c);
    AnsweredInRun(run);
    CallsAreBegun(run);
    forall k: nat | k < |s.relayed| && s.relayed[k] == c ensures AnswerTo(run, s, c, k) {
    }
    if c in s.relayed {
      var k: nat :| k < |s.relayed| && s.relayed[k] == c;
      assert AnswerTo(run, s, c, k);
    }
  }

  lemma {:induction false} HandlesAreOpen(run: seq<Step>)
    requires Exec(run).Some?
    ensures Exec(run).value.handles.Keys == Handles(run)
  {
    if run != [] {
      var s, a := Exec(run[..|run| - 1]).value, run[|run| - 1];
      InvRun(run[..|run| - 1]);
      HandlesAreOpen(run[..|run| - 1]);
      HandlesStep(s, a);
    }
  }

  lemma HandlesStep(s: State, a: Step)
    requires Inv(s) && Can(s, a)
    ensures Do(s, a).handles.Keys
            == match a
               case Clone(h, _) => s.handles.Keys + {h}
               case Close(h) => s.handles.Keys - {h}
               case _ => s.handles.Keys
  {
  }

  /** The node thread has stopped exactly if it ended or unwound. */
  lemma {:induction false} StoppedExactly(run: seq<Step>)
    requires Exec(run).Some?
    ensures Exec(run).value.node.Stopped? <==> End in run || Panic in run
    ensures Exec(run).value.panicked <==> Panic in run
  {
    if run != [] {
      var front, a := run[..|run| - 1], run[|run| - 1];
      StoppedExactly(front);
      OneStepMore(run);
      StopStep(Exec(front).value, a);
    }
  }

  /** Unless it unwound, it stopped because every handle was closed. */
  lemma AllClosed(run: seq<Step>)
    requires Exec(run).Some? && Exec(run).value.node.Stopped? && !Exec(run).value.panicked
    ensures Handles(run) == {}
  {
    InvRun(run);
    HandlesAreOpen(run);
  }

  lemma OneStepMore(run: seq<Step>)
    requires run != []
    ensures forall a: Step :: a in run <==> a in run[..|run| - 1] || a == run[|run| - 1]
  {
    assert run == run[..|run| - 1] + [run[|run| - 1]];
  }

  lemma StopStep(s: State, a: Step)
    requires Can(s, a)
    ensures Do(s, a).node.Stopped? <==> s.node.Stopped? || a.End? || a.Panic?
    ensures Do(s, a).panicked <==> s.panicked || a.Panic?
  {
  }
}
