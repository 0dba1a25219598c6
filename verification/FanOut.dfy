/**
 The Waku callback's fan-out of parsed packets to bounded subscriber queues: the callback's `retain`
 loop over live channels, and the protocol of subscribers that come, read and go.
 */
module FanOut {
  import opened Packets
  import opened Wrappers

  const CAPACITY := 256

  /** A bounded channel. Dropping the receiver discards what is queued. */
  datatype Queue = Queue(items: seq<InboundPacket>, connected: bool)

  datatype Sent = Delivered | Full | Disconnected

  function TrySend(q: Queue, p: InboundPacket): (Queue, Sent) {
    if !q.connected then (q, Disconnected)
    else if |q.items| >= CAPACITY then (q, Full)
    else (q.(items := q.items + [p]), Delivered)
  }

  // ── The callback ────────────────────────────────────────────────────────

  class Channel {
    var queue: Queue

    constructor ()
      ensures queue == Queue([], true)
    {
      queue := Queue([], true);
    }

    method Offer(p: InboundPacket) returns (sent: Sent)
      modifies this
      ensures (queue, sent) == TrySend(old(queue), p)
      ensures sent.Disconnected? <==> !old(queue).connected
      ensures sent.Full? <==> old(queue).connected && |old(queue).items| >= CAPACITY
      ensures sent.Delivered? ==> queue == Queue(old(queue).items + [p], true)
      ensures !sent.Delivered? ==> queue == old(queue)
    {
      var outcome := TrySend(queue, p);
      queue := outcome.0;
      sent := outcome.1;
    }
  }

  /** The channels whose receiver is still there, in their order. */
  ghost function Connected(channels: seq<Channel>): seq<Channel>
    reads channels
  {
    if channels == [] then []
    else
      var last := |channels| - 1;
      Connected(channels[..last]) + if channels[last].queue.connected then [channels[last]] else []
  }

  /** The channels' queues, one by one. */
  ghost predicate Mirrors(channels: seq<Channel>, queues: seq<Queue>)
    reads channels
  {
    |channels| == |queues| && forall k :: 0 <= k < |channels| ==> channels[k].queue == queues[k]
  }

  /** The queues of the list after one packet, from those before it. */
  function Fanned(queues: seq<Queue>, p: InboundPacket): seq<Queue> {
    if queues == [] then []
    else
      var last := |queues| - 1;
      Fanned(queues[..last], p) + if queues[last].connected then [TrySend(queues[last], p).0] else []
  }

  ghost predicate NoDuplicates(channels: seq<Channel>) {
    forall j, k :: 0 <= j < k < |channels| ==> channels[j] != channels[k]
  }

  class Subscribers {
    var list: seq<Channel>

    constructor ()
      ensures list == []
    {
      list := [];
    }

    method InboundReceiver() returns (receiver: Channel)
      modifies this
      ensures fresh(receiver) && receiver.queue == Queue([], true)
      ensures list == old(list) + [receiver]
    {
      receiver := new Channel();
      list := list + [receiver];
    }

    /** `retain` with `try_send`: every listed channel is offered the packet, and only the gone ones go. */
    method FanOut(p: InboundPacket)
      requires NoDuplicates(list)
      modifies this, list
      ensures NoDuplicates(list)
      ensures list == old(Connected(list)) == Connected(old(list))
      ensures forall c :: c in old(list) ==> c.queue == TrySend(old(c.queue), p).0
    {
      var kept: seq<Channel> := [];
      var k := 0;
      while k < |list|
        invariant 0 <= k <= |list| && list == old(list)
        invariant kept == old(Connected(list[..k]))
        invariant forall j :: 0 <= j < k ==> list[j].queue == TrySend(old(list[j].queue), p).0
        invariant forall j :: k <= j < |list| ==> list[j].queue == old(list[j].queue)
      {
        assert list[..k + 1][..k] == list[..k];
        var sent := list[k].Offer(p);
        if !sent.Disconnected? {
          kept := kept + [list[k]];
        }
        k := k + 1;
      }
      assert list[..k] == list;
      ConnectedDistinct(list);
      SameConnected(list);
      list := kept;
    }
  }

  twostate lemma {:induction false} ConnectedDistinct(channels: seq<Channel>)
    requires NoDuplicates(channels) && forall c :: c in channels ==> !fresh(c)
    ensures NoDuplicates(old(Connected(channels)))
    ensures forall c :: c in old(Connected(channels)) ==> c in channels && old(c.queue.connected)
    ensures forall c :: c in channels && old(c.queue.connected) ==> c in old(Connected(channels))
  {
    if channels != [] {
      ConnectedDistinct(channels[..|channels| - 1]);
    }
  }

  /** An offer connects and disconnects nobody. */
  twostate lemma {:induction false} SameConnected(channels: seq<Channel>)
    requires forall c :: c in channels ==> !fresh(c) && c.queue.connected == old(c.queue.connected)
    ensures Connected(channels) == old(Connected(channels))
  {
    if channels != [] {
      SameConnected(channels[..|channels| - 1]);
    }
  }

  /** What the callback leaves in the listed queues, in terms of the queues alone. */
  lemma {:induction false} ConnectedFanned(channels: seq<Channel>, queues: seq<Queue>, p: InboundPacket)
    requires |channels| == |queues|
    requires forall k :: 0 <= k < |channels| ==> channels[k].queue == TrySend(queues[k], p).0
    ensures Mirrors(Connected(channels), Fanned(queues, p))
  {
    if channels != [] {
      var last := |channels| - 1;
      ConnectedFanned(channels[..last], queues[..last], p);
    }
  }

  // ── Subscribers over a whole run ────────────────────────────────────────

  /** One receiver ever handed out, with what happened to it. */
  datatype Receiver = Receiver(
    queue: Queue,
    since: nat,                    // packets fanned out before it subscribed
    consumed: seq<InboundPacket>,
    depths: seq<nat>,              // history: the queue's length at each packet since then
    goneAt: Option<nat>)           // history: packets fanned out before it was dropped

  datatype State = State(
    packets: seq<InboundPacket>,   // history: every parsed packet
    receivers: seq<Receiver>,
    list: seq<nat>)                // the subscriber list

  const INIT := State([], [], [])

  datatype Step =
    | Subscribe
    | Event(packet: InboundPacket)
    | Receive(r: nat)
    | Drop(r: nat)

  predicate Can(s: State, a: Step) {
    match a
    case Subscribe => true
    case Event(_) => true
    case Receive(r) => r < |s.receivers| && s.receivers[r].queue.connected && s.receivers[r].queue.items != []
    case Drop(r) => r < |s.receivers| && s.receivers[r].queue.connected
  }

  function Offered(x: Receiver, p: InboundPacket): Receiver {
    x.(queue := TrySend(x.queue, p).0, depths := x.depths + [|x.queue.items|])
  }

  function Retained(receivers: seq<Receiver>, list: seq<nat>): seq<nat> {
    if list == [] then []
    else
      var r := list[|list| - 1];
      Retained(receivers, list[..|list| - 1]) +
      if r < |receivers| && receivers[r].queue.connected then [r] else []
  }

  function Do(s: State, a: Step): State
    requires Can(s, a)
  {
    match a
    case Subscribe =>
      s.(receivers := s.receivers + [Receiver(Queue([], true), |s.packets|, [], [], None)],
         list := s.list + [|s.receivers|])
    case Event(p) =>
      State(s.packets + [p],
            seq(|s.receivers|, r requires 0 <= r < |s.receivers| =>
                  if r in s.list then Offered(s.receivers[r], p) else s.receivers[r]),
            Retained(s.receivers, s.list))
    case Receive(r) =>
      var x := s.receivers[r];
      s.(receivers := s.receivers[r := x.(queue := x.queue.(items := x.queue.items[1..]),
                                          consumed := x.consumed + [x.queue.items[0]])])
    case Drop(r) =>
      s.(receivers := s.receivers[r := s.receivers[r].(queue := Queue([], false), goneAt := Some(|s.packets|))])
  }

  function Exec(steps: seq<Step>): Option<State> {
    if steps == [] then Some(INIT)
    else
      var before := Exec(steps[..|steps| - 1]);
      if before.Some? && Can(before.value, steps[|steps| - 1])
      then Some(Do(before.value, steps[|steps| - 1])) else None
  }

  ghost predicate Reachable(s: State) {
    exists steps :: Exec(steps) == Some(s)
  }

  // ── What the receivers got ──────────────────────────────────────────────

  /** The packets that found room. */
  function Kept(packets: seq<InboundPacket>, depths: seq<nat>): seq<InboundPacket>
    requires |packets| == |depths|
  {
    if packets == [] then []
    else
      var last := |packets| - 1;
      Kept(packets[..last], depths[..last]) + if depths[last] < CAPACITY then [packets[last]] else []
  }

  ghost predicate ReceiverOk(packets: seq<InboundPacket>, x: Receiver) {
    && x.since <= |packets|
    && (x.queue.connected ==>
          && |x.queue.items| <= CAPACITY
          && |x.depths| == |packets| - x.since
          && (forall k :: 0 <= k < |x.depths| ==> x.depths[k] <= CAPACITY)
          && x.consumed + x.queue.items == Kept(packets[x.since..], x.depths))
    && (x.queue.connected <==> x.goneAt.None?)
    && (x.goneAt.Some? ==> x.goneAt.value <= |packets|)
  }

  /** Still connected, or dropped since the last packet. */
  predicate Stays(packets: seq<InboundPacket>, x: Receiver) {
    x.queue.connected || x.goneAt == Some(|packets|)
  }

  predicate Increasing(list: seq<nat>) {
    forall j, k :: 0 <= j < k < |list| ==> list[j] < list[k]
  }

  ghost predicate Inv(s: State) {
    && (forall r :: 0 <= r < |s.receivers| ==> ReceiverOk(s.packets, s.receivers[r]))
    && (forall r :: r in s.list <==> 0 <= r < |s.receivers| && Stays(s.packets, s.receivers[r]))
    && Increasing(s.list)
  }

  lemma IncreasingSnoc(list: seq<nat>, r: nat)
    requires Increasing(list) && forall x :: x in list ==> x < r
    ensures Increasing(list + [r])
  {
    var more := list + [r];
    forall j, k | 0 <= j < k < |more| ensures more[j] < more[k] {
      assert more[j] in list;
    }
  }

  lemma {:induction false} RetainedIs(receivers: seq<Receiver>, list: seq<nat>)
    requires Increasing(list)
    ensures forall r :: r in Retained(receivers, list) <==>
              r in list && 0 <= r < |receivers| && receivers[r].queue.connected
    ensures Increasing(Retained(receivers, list))
  {
    if list != [] {
      var front, last := list[..|list| - 1], list[|list| - 1];
      RetainedIs(receivers, front);
      assert forall r :: r in front ==> r < last;
      IncreasingSnoc(Retained(receivers, front), last);
    }
  }

  lemma OfferedOk(packets: seq<InboundPacket>, x: Receiver, p: InboundPacket)
    requires ReceiverOk(packets, x) && x.queue.connected
    ensures ReceiverOk(packets + [p], Offered(x, p))
  {
    var y := Offered(x, p);
    assert (packets + [p])[x.since..] == packets[x.since..] + [p];
    assert y.depths[..|x.depths|] == x.depths;
    assert (packets[x.since..] + [p])[..|x.depths|] == packets[x.since..];
    if |x.queue.items| < CAPACITY {
      assert y.consumed + y.queue.items == (x.consumed + x.queue.items) + [p];
    }
  }

  lemma InvEvent(s: State, p: InboundPacket)
    requires Inv(s)
    ensures Inv(Do(s, Event(p)))
  {
    var s' := Do(s, Event(p));
    RetainedIs(s.receivers, s.list);
    forall r | 0 <= r < |s.receivers| ensures ReceiverOk(s'.packets, s'.receivers[r]) {
      assert ReceiverOk(s.packets, s.receivers[r]);
      if s.receivers[r].queue.connected {
        OfferedOk(s.packets, s.receivers[r], p);
      }
    }
  }

  lemma InvReceive(s: State, r: nat)
    requires Inv(s) && Can(s, Receive(r))
    ensures Inv(Do(s, Receive(r)))
  {
    var x, y := s.receivers[r], Do(s, Receive(r)).receivers[r];
    assert ReceiverOk(s.packets, x);
    assert y.consumed + y.queue.items == x.consumed + x.queue.items;
  }

  lemma InvSubscribe(s: State)
    requires Inv(s)
    ensures Inv(Do(s, Subscribe))
  {
    assert s.packets[|s.packets|..] == [];
    IncreasingSnoc(s.list, |s.receivers|);
  }

  lemma {:induction false} InvRun(steps: seq<Step>)
    requires Exec(steps).Some?
    ensures Inv(Exec(steps).value)
  {
    if steps != [] {
      var s := Exec(steps[..|steps| - 1]).value;
      InvRun(steps[..|steps| - 1]);
      match steps[|steps| - 1] {
        case Subscribe => InvSubscribe(s);
        case Event(p) => InvEvent(s, p);
        case Receive(r) => InvReceive(s, r);
        case Drop(r) => assert ReceiverOk(s.packets, s.receivers[r]);
      }
    }
  }

  lemma ReachableInv(s: State)
    requires Reachable(s)
    ensures Inv(s)
  {
    var steps :| Exec(steps) == Some(s);
    InvRun(steps);
  }

  /**
   What a connected receiver has consumed and still has queued is, in order, exactly the packets
   since it subscribed that did not find its queue at capacity.
   */
  lemma MissesOnlyWhenFull(s: State, r: nat)
    requires Reachable(s) && r < |s.receivers| && s.receivers[r].queue.connected
    ensures var x := s.receivers[r];
            && x.since <= |s.packets|
            && |x.depths| == |s.packets| - x.since
            && (forall k :: 0 <= k < |x.depths| ==> x.depths[k] <= CAPACITY)
            && x.consumed + x.queue.items == Kept(s.packets[x.since..], x.depths)
  {
    ReachableInv(s);
    assert ReceiverOk(s.packets, s.receivers[r]);
  }

  lemma {:induction false} KeptAll(packets: seq<InboundPacket>, depths: seq<nat>)
    requires |packets| == |depths| && forall k :: 0 <= k < |depths| ==> depths[k] <= CAPACITY
    ensures |Kept(packets, depths)| <= |packets|
    ensures Kept(packets, depths) == packets <==> forall k :: 0 <= k < |depths| ==> depths[k] != CAPACITY
  {
    if packets != [] {
      var last := |packets| - 1;
      KeptAll(packets[..last], depths[..last]);
      assert packets == packets[..last] + [packets[last]];
      assert forall k :: 0 <= k < last ==> depths[..last][k] == depths[k];
    }
  }

  /** It has missed nothing exactly when its queue was never at capacity at a packet. */
  lemma MissesNothingExactly(s: State, r: nat)
    requires Reachable(s) && r < |s.receivers| && s.receivers[r].queue.connected
    ensures var x := s.receivers[r];
            && x.since <= |s.packets|
            && (x.consumed + x.queue.items == s.packets[x.since..] <==> CAPACITY !in x.depths)
  {
    MissesOnlyWhenFull(s, r);
    var x := s.receivers[r];
    KeptAll(s.packets[x.since..], x.depths);
  }

  /**
   The list holds, in the order they subscribed, exactly the connected receivers and those dropped
   since the last packet. So a full receiver is never pruned, and a dropped one is at the next packet.
   */
  lemma ListIsTheConnected(s: State, r: nat)
    requires Reachable(s)
    ensures Increasing(s.list)
    ensures r in s.list <==>
              r < |s.receivers| && (s.receivers[r].queue.connected || s.receivers[r].goneAt == Some(|s.packets|))
  {
    ReachableInv(s);
  }

  // ── The machine's packet step is the callback's loop ────────────────────

  function ListQueues(receivers: seq<Receiver>, list: seq<nat>): (r: seq<Queue>)
    requires forall k :: 0 <= k < |list| ==> list[k] < |receivers|
    ensures |r| == |list|
  {
    if list == [] then []
    else
      var last := |list| - 1;
      ListQueues(receivers, list[..last]) + [receivers[list[last]].queue]
  }

  lemma {:induction false} RetainedFanned(receivers: seq<Receiver>, after: seq<Receiver>, list: seq<nat>,
                                          p: InboundPacket)
    requires |after| == |receivers|
    requires forall k :: 0 <= k < |list| ==>
               list[k] < |receivers| && after[list[k]].queue == TrySend(receivers[list[k]].queue, p).0
    ensures forall k :: 0 <= k < |Retained(receivers, list)| ==> Retained(receivers, list)[k] < |after|
    ensures ListQueues(after, Retained(receivers, list)) == Fanned(ListQueues(receivers, list), p)
  {
    if list != [] {
      var last := |list| - 1;
      RetainedFanned(receivers, after, list[..last], p);
      var front := Retained(receivers, list[..last]);
      assert ListQueues(receivers, list)[..last] == ListQueues(receivers, list[..last]);
      assert (front + [list[last]])[..|front|] == front;
      assert front + [] == front;
    }
  }

  /** Both make of the listed queues the same, as `Fanned` says. */
  lemma EventIsFanOut(s: State, p: InboundPacket)
    requires Reachable(s)
    ensures var s' := Do(s, Event(p));
            && (forall k :: 0 <= k < |s.list| ==> s.list[k] < |s.receivers|)
            && (forall k :: 0 <= k < |s'.list| ==> s'.list[k] < |s'.receivers|)
            && ListQueues(s'.receivers, s'.list) == Fanned(ListQueues(s.receivers, s.list), p)
  {
    ReachableInv(s);
    forall k | 0 <= k < |s.list| ensures s.list[k] < |s.receivers| {
      assert s.list[k] in s.list;
    }
    RetainedFanned(s.receivers, Do(s, Event(p)).receivers, s.list, p);
  }

  /** So channels that mirror the machine's list, once the callback has run over them, mirror it again. */
  lemma CallbackIsEvent(channels: seq<Channel>, s: State, p: InboundPacket)
    requires Reachable(s) && |channels| == |s.list| && forall k :: 0 <= k < |s.list| ==> s.list[k] < |s.receivers|
    requires forall k :: 0 <= k < |channels| ==>
               channels[k].queue == TrySend(ListQueues(s.receivers, s.list)[k], p).0
    ensures var s' := Do(s, Event(p));
            && (forall k :: 0 <= k < |s'.list| ==> s'.list[k] < |s'.receivers|)
            && Mirrors(Connected(channels), ListQueues(s'.receivers, s'.list))
  {
    ConnectedFanned(channels, ListQueues(s.receivers, s.list), p);
    EventIsFanOut(s, p);
  }

  // ── What the steps of a run did ─────────────────────────────────────────

  /** The packets the callback parsed. */
  function Parsed(run: seq<Step>): seq<InboundPacket> {
    if run == [] then []
    else
      var before, a := Parsed(run[..|run| - 1]), run[|run| - 1];
      if a.Event? then before + [a.packet] else before
  }

  /** How often step `a` was made. */
  function Times(run: seq<Step>, a: Step): nat {
    if run == [] then 0 else Times(run[..|run| - 1], a) + if run[|run| - 1] == a then 1 else 0
  }

  lemma ReceiverStep(s: State, a: Step, r: nat)
    requires Can(s, a) && r < |s.receivers|
    ensures r < |Do(s, a).receivers|
    ensures var x, y := s.receivers[r], Do(s, a).receivers[r];
            && (y.queue.connected <==> x.queue.connected && a != Drop(r))
            && |y.consumed| == |x.consumed| + if a == Receive(r) then 1 else 0
  {
  }

  lemma {:induction false} NoneYet(run: seq<Step>, r: nat)
    requires Exec(run).Some? && r >= |Exec(run).value.receivers|
    ensures Times(run, Drop(r)) == 0 && Times(run, Receive(r)) == 0
  {
    if run != [] {
      NoneYet(run[..|run| - 1], r);
    }
  }

  lemma {:induction false} PacketsAreParsed(run: seq<Step>)
    requires Exec(run).Some?
    ensures Exec(run).value.packets == Parsed(run) && |Exec(run).value.receivers| == Times(run, Subscribe)
  {
    if run != [] {
      PacketsAreParsed(run[..|run| - 1]);
    }
  }

  /** A receiver is connected until it is dropped, and has consumed one packet for each of its receives. */
  lemma {:induction false} ReceiversDidThat(run: seq<Step>, r: nat)
    requires Exec(run).Some? && r < |Exec(run).value.receivers|
    ensures var x := Exec(run).value.receivers[r];
            (x.queue.connected <==> Times(run, Drop(r)) == 0) && |x.consumed| == Times(run, Receive(r))
  {
    if run != [] {
      var front := run[..|run| - 1];
      var s, a := Exec(front).value, run[|run| - 1];
      if r < |s.receivers| {
        ReceiversDidThat(front, r);
        ReceiverStep(s, a, r);
      } else {
        NoneYet(front, r);
      }
    }
  }
}
