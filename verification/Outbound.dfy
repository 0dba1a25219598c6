/**
 Outbound packets. A conversation buffers what it wants sent; `User::flush` and the pump both
 drain that buffer and publish what they drained on the one transport. The two publishing loops
 come first, then the protocol of any number of drainers.
 */
module Outbound {
  import opened Wrappers

  datatype Packet = Packet(conversation: string, payload: seq<nat>)

  // ── The two publishing loops ────────────────────────────────────────────

  /** The items whose publish succeeded. */
  function Chosen(items: seq<Packet>, results: seq<bool>): seq<Packet>
    requires |results| <= |items|
  {
    if results == [] then []
    else
      var last := |results| - 1;
      Chosen(items, results[..last]) + if results[last] then [items[last]] else []
  }

  class Transport {
    var sent: seq<Packet>

    constructor ()
      ensures sent == []
    {
      sent := [];
    }

    /** `relayed` is what the relay answers. */
    method Publish(packet: Packet, relayed: bool) returns (ok: bool)
      modifies this
      ensures ok == relayed
      ensures sent == old(sent) + if relayed then [packet] else []
    {
      if relayed {
        sent := sent + [packet];
      }
      ok := relayed;
    }
  }

  class Outbox {
    var buffer: seq<Packet>

    constructor ()
      ensures buffer == []
    {
      buffer := [];
    }

    method DrainOutbound() returns (batch: seq<Packet>)
      modifies this
      ensures batch == old(buffer) && buffer == []
    {
      batch := buffer;
      buffer := [];
    }
  }

  /** `User::flush`: in order until the first failure, which is reported; the rest is lost. */
  method Flush(outbox: Outbox, transport: Transport, relay: nat -> bool) returns (r: Result<nat, nat>)
    modifies outbox, transport
    ensures outbox.buffer == []
    ensures r.Ok? ==> transport.sent == old(transport.sent) + old(outbox.buffer)
                      && forall k :: 0 <= k < |old(outbox.buffer)| ==> relay(k)
    ensures r.Err? ==> r.error < |old(outbox.buffer)| && !relay(r.error)
                       && (forall k :: 0 <= k < r.error ==> relay(k))
                       && transport.sent == old(transport.sent) + old(outbox.buffer)[..r.error]
  {
    var outbound := outbox.DrainOutbound();
    var k := 0;
    while k < |outbound|
      invariant 0 <= k <= |outbound|
      invariant outbox.buffer == [] && outbound == old(outbox.buffer)
      invariant forall j :: 0 <= j < k ==> relay(j)
      invariant transport.sent == old(transport.sent) + outbound[..k]
    {
      var ok := transport.Publish(outbound[k], relay(k));
      if !ok {
        return Err(k);
      }
      assert outbound[..k + 1] == outbound[..k] + [outbound[k]];
      k := k + 1;
    }
    assert outbound[..k] == outbound;
    r := Ok(k);
  }

  /** The pump's loop: a failure is logged, and the loop goes on. */
  method PumpOutbound(outbox: Outbox, transport: Transport, relay: nat -> bool)
    modifies outbox, transport
    ensures outbox.buffer == []
    ensures transport.sent ==
            old(transport.sent) + Chosen(old(outbox.buffer), seq(|old(outbox.buffer)|, k requires 0 <= k => relay(k)))
  {
    var outbound := outbox.DrainOutbound();
    ghost var results := seq(|outbound|, k requires 0 <= k => relay(k));
    var k := 0;
    assert results[..0] == [];
    while k < |outbound|
      invariant 0 <= k <= |outbound|
      invariant outbox.buffer == [] && outbound == old(outbox.buffer)
      invariant transport.sent == old(transport.sent) + Chosen(outbound, results[..k])
    {
      assert results[..k + 1][..k] == results[..k];
      var _ := transport.Publish(outbound[k], relay(k));
      k := k + 1;
    }
    assert results[..k] == results;
  }

  // ── Any number of drainers ──────────────────────────────────────────────

  /**
   `Flushing` is `User::flush`, `Ticking` the pump. `Direct` is a packet published outside every
   buffer: a key-package announcement or a welcome.
   */
  datatype Kind = Flushing | Ticking | Direct

  datatype Stage = Held | Sending | Done

  /** One drained batch. `results` are the answers of its publishes so far. */
  datatype Batch = Batch(source: nat, kind: Kind, items: seq<Packet>, stage: Stage, results: seq<bool>)

  /** A packet on the transport: item `pos` of batch `batch`. */
  datatype Stamp = Stamp(batch: nat, pos: nat)

  datatype State = State(
    produced: seq<seq<Packet>>,  // history: per conversation, everything it ever buffered
    buffers: seq<seq<Packet>>,
    batches: seq<Batch>,         // every batch ever drained
    transport: Option<nat>,      // the batch whose task holds the transport mutex
    order: seq<nat>,             // history: the batches in the order they got the mutex
    log: seq<Stamp>)             // what the transport accepted

  const INIT := State([], [], [], None, [], [])

  datatype Step =
    | NewConversation
    | Produce(source: nat, packet: Packet)
    | Drain(source: nat, kind: Kind)
    | Announce(packet: Packet)
    | Lock(b: nat)
    | Publish(b: nat, ok: bool)

  predicate Finished(kind: Kind, items: seq<Packet>, results: seq<bool>) {
    |results| >= |items| || (kind.Flushing? && results != [] && !results[|results| - 1])
  }

  predicate Can(s: State, a: Step) {
    match a
    case NewConversation => true
    case Produce(i, _) => i < |s.buffers| && i < |s.produced|
    // an empty drain returns at once and takes no lock
    case Drain(i, kind) => i < |s.buffers| && s.buffers[i] != [] && !kind.Direct?
    case Announce(_) => true
    case Lock(b) => b < |s.batches| && s.batches[b].stage.Held? && s.transport.None?
    case Publish(b, _) => b < |s.batches| && s.transport == Some(b) && |s.batches[b].results| < |s.batches[b].items|
  }

  function Do(s: State, a: Step): State
    requires Can(s, a)
  {
    match a
    case NewConversation => s.(produced := s.produced + [[]], buffers := s.buffers + [[]])
    case Produce(i, p) =>
      s.(produced := s.produced[i := s.produced[i] + [p]], buffers := s.buffers[i := s.buffers[i] + [p]])
    case Drain(i, kind) =>
      s.(buffers := s.buffers[i := []], batches := s.batches + [Batch(i, kind, s.buffers[i], Held, [])])
    case Announce(p) => s.(batches := s.batches + [Batch(0, Direct, [p], Held, [])])
    case Lock(b) =>
      s.(transport := Some(b), order := s.order + [b], batches := s.batches[b := s.batches[b].(stage := Sending)])
    case Publish(b, ok) =>
      var batch := s.batches[b];
      var results := batch.results + [ok];
      var done := Finished(batch.kind, batch.items, results);
      s.(batches := s.batches[b := batch.(results := results, stage := if done then Done else Sending)],
         transport := if done then None else Some(b),
         log := if ok then s.log + [Stamp(b, |batch.results|)] else s.log)
  }

  function Exec(steps: seq<Step>): Option<State> {
    if steps == [] then Some(INIT)
    else
      var before := Exec(steps[..|steps| - 1]);
      if before.Some? && Can(before.value, steps[|steps| - 1])
      then Some(Do(before.value, steps[|steps| - 1])) else None
  }

  ghost predicate Reachable(s: State) {
    exists steps :: Exec(steps) == Some(s)
  }

  // ── Where a packet is ───────────────────────────────────────────────────

  /** The items drained from conversation `i`, batch after batch. */
  function Taken(batches: seq<Batch>, i: nat): seq<Packet> {
    if batches == [] then []
    else
      var b := batches[|batches| - 1];
      Taken(batches[..|batches| - 1], i) + if b.source == i && !b.kind.Direct? then b.items else []
  }

  /** What batch `b` put on the transport. */
  function Stamps(b: nat, results: seq<bool>): seq<Stamp> {
    if results == [] then []
    else
      var last := |results| - 1;
      Stamps(b, results[..last]) + if results[last] then [Stamp(b, last)] else []
  }

  function Flat(batches: seq<Batch>, order: seq<nat>): seq<Stamp>
    requires forall k :: 0 <= k < |order| ==> order[k] < |batches|
  {
    if order == [] then []
    else
      var b := order[|order| - 1];
      Flat(batches, order[..|order| - 1]) + Stamps(b, batches[b].results)
  }

  predicate Published(b: Batch, k: nat) {
    k < |b.results| && b.results[k]
  }

  predicate InHand(b: Batch, k: nat) {
    !b.stage.Done? && |b.results| <= k < |b.items|
  }

  predicate Lost(b: Batch, k: nat) {
    k < |b.items| && ((k < |b.results| && !b.results[k]) || (b.stage.Done? && |b.results| <= k))
  }

  // ── Invariant ───────────────────────────────────────────────────────────

  ghost predicate BatchOk(b: Batch) {
    && |b.results| <= |b.items|
    && (b.stage.Held? ==> b.results == [])
    && (b.kind.Flushing? ==> forall k :: 0 <= k < |b.results| - 1 ==> b.results[k])
    && (b.stage.Sending? ==> !Finished(b.kind, b.items, b.results))
    && (b.stage.Done? ==> Finished(b.kind, b.items, b.results))
    && b.items != []
  }

  ghost predicate OrderOk(s: State) {
    && (forall k :: 0 <= k < |s.order| ==> s.order[k] < |s.batches| && !s.batches[s.order[k]].stage.Held?)
    && (forall k, l :: 0 <= k < l < |s.order| ==> s.order[k] != s.order[l])
    && (forall b :: 0 <= b < |s.batches| && !s.batches[b].stage.Held? ==> b in s.order)
    && (forall b :: 0 <= b < |s.batches| ==> (s.batches[b].stage.Sending? <==> s.transport == Some(b)))
    && (s.transport.Some? ==>
          s.transport.value < |s.batches| && s.order != [] && s.order[|s.order| - 1] == s.transport.value)
  }

  ghost predicate Conserved(s: State) {
    && |s.produced| == |s.buffers|
    && forall i :: 0 <= i < |s.buffers| ==> s.produced[i] == Taken(s.batches, i) + s.buffers[i]
  }

  ghost predicate BatchesOk(s: State) {
    && (forall b :: 0 <= b < |s.batches| ==> BatchOk(s.batches[b]))
    && (forall b :: 0 <= b < |s.batches| && !s.batches[b].kind.Direct? ==> s.batches[b].source < |s.buffers|)
  }

  ghost predicate Inv(s: State) {
    && Conserved(s)
    && BatchesOk(s)
    && OrderOk(s)
    && s.log == Flat(s.batches, s.order)
  }

  lemma {:induction false} TakenNone(batches: seq<Batch>, i: nat)
    requires forall b :: 0 <= b < |batches| && !batches[b].kind.Direct? ==> batches[b].source != i
    ensures Taken(batches, i) == []
  {
    if batches != [] {
      TakenNone(batches[..|batches| - 1], i);
    }
  }

  /** Progress of a batch does not change what it holds. */
  lemma {:induction false} TakenSame(batches: seq<Batch>, b: nat, x: Batch, i: nat)
    requires b < |batches| && x.source == batches[b].source && x.kind == batches[b].kind && x.items == batches[b].items
    ensures Taken(batches[b := x], i) == Taken(batches, i)
  {
    var last := |batches| - 1;
    if b == last {
      assert batches[b := x][..last] == batches[..last];
    } else {
      assert batches[b := x][..last] == batches[..last][b := x];
      TakenSame(batches[..last], b, x, i);
    }
  }

  /** A batch that is not in the order does not show on the transport. */
  lemma {:induction false} FlatElsewhere(batches: seq<Batch>, more: seq<Batch>, order: seq<nat>)
    requires |batches| <= |more|
    requires forall k :: 0 <= k < |order| ==>
               order[k] < |batches| && more[order[k]].results == batches[order[k]].results
    ensures Flat(more, order) == Flat(batches, order)
  {
    if order != [] {
      FlatElsewhere(batches, more, order[..|order| - 1]);
    }
  }

  lemma OrderDrain(s: State, b: Batch)
    requires OrderOk(s) && b.stage.Held?
    ensures OrderOk(s.(batches := s.batches + [b]))
  {
  }

  /** A drained buffer is the batch's items, and nothing else moves. */
  ghost predicate Drained(s: State, b: Batch, buffers: seq<seq<Packet>>) {
    && |buffers| == |s.buffers| && (!b.kind.Direct? ==> b.source < |buffers|)
    && forall i :: 0 <= i < |buffers| ==>
         s.buffers[i] == (if b.source == i && !b.kind.Direct? then b.items else []) + buffers[i]
  }

  lemma ConservedDrain(s: State, b: Batch, buffers: seq<seq<Packet>>)
    requires Conserved(s) && Drained(s, b, buffers)
    ensures Conserved(s.(batches := s.batches + [b], buffers := buffers))
  {
    var more := s.batches + [b];
    assert more[..|more| - 1] == s.batches;
    forall i | 0 <= i < |buffers| ensures s.produced[i] == Taken(more, i) + buffers[i] {
      assert s.produced[i] == Taken(s.batches, i) + s.buffers[i];
    }
  }

  lemma BatchesDrain(s: State, b: Batch, buffers: seq<seq<Packet>>)
    requires BatchesOk(s) && Drained(s, b, buffers) && b.stage.Held? && b.results == [] && b.items != []
    ensures BatchesOk(s.(batches := s.batches + [b], buffers := buffers))
  {
  }

  lemma InvDrain(s: State, b: Batch, buffers: seq<seq<Packet>>)
    requires Inv(s) && Drained(s, b, buffers) && b.stage.Held? && b.results == [] && b.items != []
    ensures Inv(s.(batches := s.batches + [b], buffers := buffers))
  {
    OrderDrain(s, b);
    ConservedDrain(s, b, buffers);
    BatchesDrain(s, b, buffers);
    FlatElsewhere(s.batches, s.batches + [b], s.order);
  }

  lemma OrderLock(s: State, b: nat)
    requires OrderOk(s) && Can(s, Lock(b))
    ensures OrderOk(Do(s, Lock(b)))
  {
    var s' := Do(s, Lock(b));
    assert s'.order[..|s.order|] == s.order;
  }

  /** Progress of a batch leaves what was produced where it was. */
  lemma ConservedProgress(s: State, s': State, b: nat)
    requires Conserved(s) && b < |s.batches| == |s'.batches|
    requires s'.produced == s.produced && s'.buffers == s.buffers && s'.batches == s.batches[b := s'.batches[b]]
    requires s'.batches[b].source == s.batches[b].source && s'.batches[b].kind == s.batches[b].kind
    requires s'.batches[b].items == s.batches[b].items
    ensures Conserved(s')
  {
    forall i | 0 <= i < |s.buffers| ensures s'.produced[i] == Taken(s'.batches, i) + s'.buffers[i] {
      TakenSame(s.batches, b, s'.batches[b], i);
    }
  }

  lemma BatchesLock(s: State, b: nat)
    requires BatchesOk(s) && Can(s, Lock(b))
    ensures BatchesOk(Do(s, Lock(b)))
  {
    assert BatchOk(s.batches[b]);
  }

  /** The batch that takes the mutex has put nothing on the transport yet. */
  lemma LogLock(s: State, b: nat)
    requires BatchesOk(s) && OrderOk(s) && s.log == Flat(s.batches, s.order) && Can(s, Lock(b))
    ensures var s' := Do(s, Lock(b));
            (forall k :: 0 <= k < |s'.order| ==> s'.order[k] < |s'.batches|) && s'.log == Flat(s'.batches, s'.order)
  {
    var s' := Do(s, Lock(b));
    assert BatchOk(s.batches[b]);
    FlatElsewhere(s.batches, s'.batches, s.order);
    assert s'.order[..|s'.order| - 1] == s.order;
    assert Stamps(b, s'.batches[b].results) == [];
  }

  lemma InvLock(s: State, b: nat)
    requires Inv(s) && Can(s, Lock(b))
    ensures Inv(Do(s, Lock(b)))
  {
    OrderLock(s, b);
    ConservedProgress(s, Do(s, Lock(b)), b);
    BatchesLock(s, b);
    LogLock(s, b);
  }

  lemma LogPublish(s: State, b: nat, ok: bool)
    requires OrderOk(s) && s.log == Flat(s.batches, s.order) && Can(s, Publish(b, ok))
    requires |s.batches[b].results| <= |s.batches[b].items|
    ensures var s' := Do(s, Publish(b, ok));
            (forall k :: 0 <= k < |s'.order| ==> s'.order[k] < |s'.batches|) && s'.log == Flat(s'.batches, s'.order)
  {
    var s' := Do(s, Publish(b, ok));
    var results := s.batches[b].results;
    FlatElsewhere(s.batches, s'.batches, s.order[..|s.order| - 1]);
    assert (results + [ok])[..|results|] == results;
  }

  lemma BatchPublish(batch: Batch, ok: bool)
    requires BatchOk(batch) && batch.stage.Sending? && |batch.results| < |batch.items|
    ensures var results := batch.results + [ok];
            BatchOk(batch.(results := results,
                           stage := if Finished(batch.kind, batch.items, results) then Done else Sending))
  {
  }

  lemma BatchesPublish(s: State, b: nat, ok: bool)
    requires BatchesOk(s) && OrderOk(s) && Can(s, Publish(b, ok))
    ensures BatchesOk(Do(s, Publish(b, ok)))
  {
    assert s.batches[b].stage.Sending?;
    BatchPublish(s.batches[b], ok);
  }

  lemma OrderPublish(s: State, b: nat, ok: bool)
    requires OrderOk(s) && Can(s, Publish(b, ok))
    ensures OrderOk(Do(s, Publish(b, ok)))
  {
    assert s.batches[b].stage.Sending?;
  }

  lemma InvPublish(s: State, b: nat, ok: bool)
    requires Inv(s) && Can(s, Publish(b, ok))
    ensures Inv(Do(s, Publish(b, ok)))
  {
    LogPublish(s, b, ok);
    ConservedProgress(s, Do(s, Publish(b, ok)), b);
    BatchesPublish(s, b, ok);
    OrderPublish(s, b, ok);
  }

  lemma ConservedNew(s: State)
    requires Conserved(s) && BatchesOk(s)
    ensures Conserved(Do(s, NewConversation))
  {
    TakenNone(s.batches, |s.buffers|);
  }

  lemma ConservedProduce(s: State, i: nat, p: Packet)
    requires Conserved(s) && Can(s, Produce(i, p))
    ensures Conserved(Do(s, Produce(i, p)))
  {
    assert Taken(s.batches, i) + s.buffers[i] + [p] == Taken(s.batches, i) + (s.buffers[i] + [p]);
  }

  lemma InvBuffers(s: State, a: Step)
    requires Inv(s) && Can(s, a) && (a.NewConversation? || a.Produce?)
    ensures Inv(Do(s, a))
  {
    if a.NewConversation? {
      ConservedNew(s);
    } else {
      ConservedProduce(s, a.source, a.packet);
    }
    assert Do(s, a).batches == s.batches && Do(s, a).order == s.order && Do(s, a).transport == s.transport;
  }

  lemma InvStep(s: State, a: Step)
    requires Inv(s) && Can(s, a)
    ensures Inv(Do(s, a))
  {
    match a {
      case NewConversation => InvBuffers(s, a);
      case Produce(i, p) => InvBuffers(s, a);
      case Drain(i, kind) => InvDrain(s, Batch(i, kind, s.buffers[i], Held, []), s.buffers[i := []]);
      case Announce(p) => InvDrain(s, Batch(0, Direct, [p], Held, []), s.buffers);
      case Lock(b) => InvLock(s, b);
      case Publish(b, ok) => InvPublish(s, b, ok);
    }
  }

  lemma {:induction false} InvRun(steps: seq<Step>)
    requires Exec(steps).Some?
    ensures Inv(Exec(steps).value)
  {
    if steps != [] {
      InvRun(steps[..|steps| - 1]);
      InvStep(Exec(steps[..|steps| - 1]).value, steps[|steps| - 1]);
    }
  }

  lemma ReachableInv(s: State)
    requires Reachable(s)
    ensures Inv(s)
  {
    var steps :| Exec(steps) == Some(s);
    InvRun(steps);
  }

  // ── What holds of every run ─────────────────────────────────────────────

  /**
   Draining neither loses, copies nor reorders: what a conversation produced is what its batches
   hold, in the order they were drained, and then its buffer.
   */
  lemma DrainConserves(s: State, i: nat)
    requires Reachable(s) && i < |s.produced|
    ensures i < |s.buffers| && s.produced[i] == Taken(s.batches, i) + s.buffers[i]
  {
    ReachableInv(s);
  }

  lemma {:induction false} StampsAre(b: nat, results: seq<bool>, x: Stamp)
    ensures x in Stamps(b, results) <==> x.batch == b && x.pos < |results| && results[x.pos]
  {
    if results != [] {
      StampsAre(b, results[..|results| - 1], x);
    }
  }

  lemma {:induction false} FlatHas(batches: seq<Batch>, order: seq<nat>, x: Stamp)
    requires forall k :: 0 <= k < |order| ==> order[k] < |batches|
    ensures x in Flat(batches, order) <==>
              x.batch in order && x.pos < |batches[x.batch].results| && batches[x.batch].results[x.pos]
  {
    if order != [] {
      var last := |order| - 1;
      assert order == order[..last] + [order[last]];
      FlatHas(batches, order[..last], x);
      StampsAre(order[last], batches[order[last]].results, x);
    }
  }

  ghost predicate Distinct(log: seq<Stamp>) {
    forall x, y :: 0 <= x < y < |log| ==> log[x] != log[y]
  }

  lemma {:induction false} StampsDistinct(b: nat, results: seq<bool>)
    ensures Distinct(Stamps(b, results))
  {
    if results != [] {
      var last := |results| - 1;
      StampsDistinct(b, results[..last]);
      StampsAre(b, results[..last], Stamp(b, last));
    }
  }

  lemma DistinctConcat(a: seq<Stamp>, b: seq<Stamp>)
    requires Distinct(a) && Distinct(b) && forall x :: x in a ==> x !in b
    ensures Distinct(a + b)
  {
    var c := a + b;
    forall x, y | 0 <= x < y < |c| ensures c[x] != c[y] {
      assert x < |a| ==> c[x] in a;
      assert |a| <= y ==> c[y] in b;
    }
  }

  lemma {:induction false} FlatDistinct(batches: seq<Batch>, order: seq<nat>)
    requires forall k :: 0 <= k < |order| ==> order[k] < |batches|
    requires forall k, l :: 0 <= k < l < |order| ==> order[k] != order[l]
    ensures Distinct(Flat(batches, order))
  {
    if order != [] {
      var last := |order| - 1;
      var b := order[last];
      FlatDistinct(batches, order[..last]);
      StampsDistinct(b, batches[b].results);
      forall x | x in Flat(batches, order[..last]) ensures x !in Stamps(b, batches[b].results) {
        FlatHas(batches, order[..last], x);
        StampsAre(b, batches[b].results, x);
      }
      DistinctConcat(Flat(batches, order[..last]), Stamps(b, batches[b].results));
    }
  }

  /** No packet is accepted twice, and the transport shows exactly what the batches published. */
  lemma PublishedOnce(s: State, x: Stamp)
    requires Reachable(s)
    ensures Distinct(s.log)
    ensures x in s.log <==> x.batch < |s.batches| && Published(s.batches[x.batch], x.pos)
  {
    ReachableInv(s);
    FlatDistinct(s.batches, s.order);
    FlatHas(s.batches, s.order, x);
    if x.batch < |s.batches| {
      assert BatchOk(s.batches[x.batch]);
    }
  }

  /** A drained packet is in exactly one place: on the transport, in its drainer's hands, or lost. */
  lemma OnePlace(s: State, b: nat, k: nat)
    requires Reachable(s) && b < |s.batches| && k < |s.batches[b].items|
    ensures var batch := s.batches[b];
            && (Stamp(b, k) in s.log || InHand(batch, k) || Lost(batch, k))
            && !(Stamp(b, k) in s.log && InHand(batch, k))
            && !(Stamp(b, k) in s.log && Lost(batch, k))
            && !(InHand(batch, k) && Lost(batch, k))
  {
    PublishedOnce(s, Stamp(b, k));
  }

  /** Each batch is one contiguous run on the transport, in the order the mutex was taken. */
  lemma BatchesContiguous(s: State, k: nat)
    requires Reachable(s) && k < |s.order|
    ensures var b := s.order[k];
            && b < |s.batches|
            && exists before: seq<Stamp>, after: seq<Stamp> ::
                 s.log == before + Stamps(b, s.batches[b].results) + after
                 && (forall x :: x in before || x in after ==> x.batch != b)
  {
    ReachableInv(s);
    var b := s.order[k];
    var after := FlatSplit(s.batches, s.order, k);
    var before := Flat(s.batches, s.order[..k]);
    forall x | x in before || x in after ensures x.batch != b {
      if x in before {
        FlatHas(s.batches, s.order[..k], x);
      }
    }
  }

  lemma {:induction false} FlatSplit(batches: seq<Batch>, order: seq<nat>, k: nat) returns (after: seq<Stamp>)
    requires k < |order| && forall l :: 0 <= l < |order| ==> order[l] < |batches|
    requires forall l, m :: 0 <= l < m < |order| ==> order[l] != order[m]
    ensures Flat(batches, order) == Flat(batches, order[..k]) + Stamps(order[k], batches[order[k]].results) + after
    ensures forall x :: x in after ==> x.batch != order[k]
    decreases |order|
  {
    var last := |order| - 1;
    if k == last {
      after := [];
    } else {
      var b := order[last];
      var rest := FlatSplit(batches, order[..last], k);
      assert order[..last][..k] == order[..k];
      after := rest + Stamps(b, batches[b].results);
      forall x | x in after ensures x.batch != order[k] {
        if x !in rest {
          StampsAre(b, batches[b].results, x);
        }
      }
    }
  }

  /**
   A finished flush lost exactly the packet that failed and everything after it; a finished tick
   of the pump lost exactly the packets that failed.
   */
  lemma WhatABatchLoses(s: State, b: nat, k: nat)
    requires Reachable(s) && b < |s.batches| && s.batches[b].stage.Done? && k < |s.batches[b].items|
    ensures var batch := s.batches[b];
            if batch.kind.Flushing? then
              Lost(batch, k) <==> exists j :: 0 <= j <= k && j < |batch.results| && !batch.results[j]
            else
              k < |batch.results| && (Lost(batch, k) <==> !batch.results[k])
  {
    ReachableInv(s);
    BatchLoses(s.batches[b], k);
  }

  lemma BatchLoses(batch: Batch, k: nat)
    requires BatchOk(batch) && batch.stage.Done? && k < |batch.items|
    ensures if batch.kind.Flushing? then
              Lost(batch, k) <==> exists j :: 0 <= j <= k && j < |batch.results| && !batch.results[j]
            else
              k < |batch.results| && (Lost(batch, k) <==> !batch.results[k])
  {
    var last := |batch.results| - 1;
    if batch.kind.Flushing? {
      if Lost(batch, k) {
        assert !batch.results[if last < k then last else k];
      }
    }
  }

  /** The packets behind one batch's stamps. */
  function Shown(items: seq<Packet>, stamps: seq<Stamp>): seq<Packet>
    requires forall x :: x in stamps ==> x.pos < |items|
  {
    if stamps == [] then [] else Shown(items, stamps[..|stamps| - 1]) + [items[stamps[|stamps| - 1].pos]]
  }

  lemma {:induction false} StampsShowChosen(b: nat, items: seq<Packet>, results: seq<bool>)
    requires |results| <= |items|
    ensures forall x :: x in Stamps(b, results) ==> x.pos < |items|
    ensures Shown(items, Stamps(b, results)) == Chosen(items, results)
  {
    if results != [] {
      var last := |results| - 1;
      StampsShowChosen(b, items, results[..last]);
      if results[last] {
        var stamps := Stamps(b, results);
        assert stamps[..|stamps| - 1] == Stamps(b, results[..last]);
        assert stamps[|stamps| - 1] == Stamp(b, last);
      } else {
        assert Stamps(b, results) == Stamps(b, results[..last]);
        assert Chosen(items, results) == Chosen(items, results[..last]);
      }
    }
  }

  lemma {:induction false} AllButLast(items: seq<Packet>, results: seq<bool>)
    requires 0 < |results| <= |items| && forall k :: 0 <= k < |results| - 1 ==> results[k]
    ensures Chosen(items, results) == items[..if results[|results| - 1] then |results| else |results| - 1]
  {
    var last := |results| - 1;
    if last > 0 {
      assert forall k :: 0 <= k < last ==> results[..last][k];
      AllButLast(items, results[..last]);
    }
  }

  /**
   A finished batch left on the transport what its loop alone would have: the items `PumpOutbound`
   chooses, and for a flush the prefix `Flush` got through.
   */
  lemma BatchIsItsLoop(s: State, b: nat)
    requires Reachable(s) && b < |s.batches| && s.batches[b].stage.Done?
    ensures var batch := s.batches[b];
            && |batch.results| <= |batch.items|
            && (forall x :: x in Stamps(b, batch.results) ==> x.pos < |batch.items|)
            && Shown(batch.items, Stamps(b, batch.results)) == Chosen(batch.items, batch.results)
            && (batch.kind.Flushing? ==>
                  && batch.results != []
                  && Chosen(batch.items, batch.results)
                     == batch.items[..if batch.results[|batch.results| - 1] then |batch.items|
                                      else |batch.results| - 1])
  {
    ReachableInv(s);
    assert BatchOk(s.batches[b]);
    LoopOf(s.batches[b], b);
  }

  lemma LoopOf(batch: Batch, b: nat)
    requires BatchOk(batch) && batch.stage.Done?
    ensures |batch.results| <= |batch.items|
    ensures forall x :: x in Stamps(b, batch.results) ==> x.pos < |batch.items|
    ensures Shown(batch.items, Stamps(b, batch.results)) == Chosen(batch.items, batch.results)
    ensures batch.kind.Flushing? ==>
              && batch.results != []
              && Chosen(batch.items, batch.results)
                 == batch.items[..if batch.results[|batch.results| - 1] then |batch.items| else |batch.results| - 1]
  {
    StampsShowChosen(b, batch.items, batch.results);
    if batch.kind.Flushing? {
      AllButLast(batch.items, batch.results);
    }
  }

  // ── Order across batches ────────────────────────────────────────────────

  /** Two batches drained from one conversation. */
  predicate Siblings(batches: seq<Batch>, a: nat, b: nat) {
    && a < |batches| && b < |batches| && batches[a].source == batches[b].source
    && !batches[a].kind.Direct? && !batches[b].kind.Direct?
  }

  predicate PublishedSome(batches: seq<Batch>, b: nat) {
    b < |batches| && exists k :: 0 <= k < |batches[b].results| && batches[b].results[k]
  }

  predicate Rivals(batches: seq<Batch>, a: nat, b: nat) {
    Siblings(batches, a, b) && PublishedSome(batches, a) && PublishedSome(batches, b)
  }

  /** The packets of each conversation are on the transport in the order they were drained. */
  ghost predicate DrainOrderKept(batches: seq<Batch>, log: seq<Stamp>) {
    forall x, y :: 0 <= x < y < |log| && Siblings(batches, log[x].batch, log[y].batch) ==> log[x].batch <= log[y].batch
  }

  /** Batches of one conversation that published anything got the mutex in the order drained. */
  ghost predicate MutexInDrainOrder(batches: seq<Batch>, order: seq<nat>) {
    forall k, l :: 0 <= k < l < |order| && Rivals(batches, order[k], order[l]) ==> order[k] <= order[l]
  }

  lemma StampsSome(batches: seq<Batch>, b: nat)
    requires b < |batches|
    ensures Stamps(b, batches[b].results) != [] <==> PublishedSome(batches, b)
    ensures forall y :: y in Stamps(b, batches[b].results) ==> y.batch == b
  {
    var stamps := Stamps(b, batches[b].results);
    if PublishedSome(batches, b) {
      var k :| 0 <= k < |batches[b].results| && batches[b].results[k];
      StampsAre(b, batches[b].results, Stamp(b, k));
    }
    if stamps != [] {
      StampsAre(b, batches[b].results, stamps[0]);
    }
    forall y | y in stamps ensures y.batch == b {
      StampsAre(b, batches[b].results, y);
    }
  }

  /** What is on the transport of `b`'s conversation was drained no later than `b`. */
  ghost predicate NoneLater(batches: seq<Batch>, log: seq<Stamp>, b: nat) {
    forall x :: x in log && Siblings(batches, x.batch, b) ==> x.batch <= b
  }

  ghost predicate NoRivalLater(batches: seq<Batch>, order: seq<nat>, b: nat) {
    forall k :: 0 <= k < |order| && Rivals(batches, order[k], b) ==> order[k] <= b
  }

  lemma KeptSplit(batches: seq<Batch>, before: seq<Stamp>, b: nat, stamps: seq<Stamp>)
    requires forall y :: y in stamps ==> y.batch == b
    ensures DrainOrderKept(batches, before + stamps) <==>
              && DrainOrderKept(batches, before)
              && (stamps != [] ==> NoneLater(batches, before, b))
  {
    var log := before + stamps;
    assert forall k :: 0 <= k < |before| ==> log[k] == before[k] && log[k] in before;
    assert forall k :: |before| <= k < |log| ==> log[k] in stamps;
    if DrainOrderKept(batches, log) && stamps != [] {
      assert log[|before|] == stamps[0] && stamps[0] in stamps;
      forall x | x in before && Siblings(batches, x.batch, b) ensures x.batch <= b {
        var k :| 0 <= k < |before| && before[k] == x;
        assert log[k] == x;
      }
    }
  }

  lemma MutexSplit(batches: seq<Batch>, order: seq<nat>)
    requires order != []
    ensures var last := |order| - 1;
            MutexInDrainOrder(batches, order) <==>
              && MutexInDrainOrder(batches, order[..last])
              && NoRivalLater(batches, order[..last], order[last])
  {
    var last := |order| - 1;
    assert forall k :: 0 <= k < last ==> order[..last][k] == order[k];
    if MutexInDrainOrder(batches, order[..last]) && NoRivalLater(batches, order[..last], order[last]) {
      forall k, l | 0 <= k < l < |order| && Rivals(batches, order[k], order[l]) ensures order[k] <= order[l] {
        assert order[..last][k] == order[k];
      }
    }
  }

  /** What is on the transport comes from the batches that published something. */
  lemma FlatBatches(batches: seq<Batch>, order: seq<nat>)
    requires forall k :: 0 <= k < |order| ==> order[k] < |batches|
    ensures forall k :: 0 <= k < |order| && PublishedSome(batches, order[k]) ==>
              exists x :: x in Flat(batches, order) && x.batch == order[k]
    ensures forall x :: x in Flat(batches, order) ==> x.batch in order && PublishedSome(batches, x.batch)
  {
    forall k | 0 <= k < |order| && PublishedSome(batches, order[k])
      ensures exists x :: x in Flat(batches, order) && x.batch == order[k]
    {
      var pos :| 0 <= pos < |batches[order[k]].results| && batches[order[k]].results[pos];
      FlatHas(batches, order, Stamp(order[k], pos));
    }
    forall x | x in Flat(batches, order) ensures x.batch in order && PublishedSome(batches, x.batch) {
      FlatHas(batches, order, x);
    }
  }

  lemma KeptStep(batches: seq<Batch>, order: seq<nat>, before: seq<Stamp>)
    requires order != [] && forall k :: 0 <= k < |order| ==> order[k] < |batches|
    requires before == Flat(batches, order[..|order| - 1])
    requires DrainOrderKept(batches, before) <==> MutexInDrainOrder(batches, order[..|order| - 1])
    ensures var b := order[|order| - 1];
            DrainOrderKept(batches, before + Stamps(b, batches[b].results)) <==> MutexInDrainOrder(batches, order)
  {
    var b := order[|order| - 1];
    StampsSome(batches, b);
    KeptSplit(batches, before, b, Stamps(b, batches[b].results));
    MutexSplit(batches, order);
    ComparedAlike(batches, order[..|order| - 1], b);
  }

  lemma ComparedAlike(batches: seq<Batch>, order: seq<nat>, b: nat)
    requires forall k :: 0 <= k < |order| ==> order[k] < |batches|
    ensures (PublishedSome(batches, b) ==> NoneLater(batches, Flat(batches, order), b))
            <==> NoRivalLater(batches, order, b)
  {
    FlatBatches(batches, order);
    SameComparisons(batches, order, b, Flat(batches, order));
  }

  /** The drain order survives on the transport exactly when the mutex was taken in that order. */
  lemma {:induction false} KeptExactly(batches: seq<Batch>, order: seq<nat>)
    requires forall k :: 0 <= k < |order| ==> order[k] < |batches|
    ensures DrainOrderKept(batches, Flat(batches, order)) <==> MutexInDrainOrder(batches, order)
  {
    if order != [] {
      KeptExactly(batches, order[..|order| - 1]);
      KeptStep(batches, order, Flat(batches, order[..|order| - 1]));
    }
  }

  lemma SameComparisons(batches: seq<Batch>, order: seq<nat>, b: nat, before: seq<Stamp>)
    requires forall k :: 0 <= k < |order| && PublishedSome(batches, order[k]) ==>
               exists x :: x in before && x.batch == order[k]
    requires forall x :: x in before ==> x.batch in order && PublishedSome(batches, x.batch)
    ensures (PublishedSome(batches, b) ==> NoneLater(batches, before, b)) <==> NoRivalLater(batches, order, b)
  {
    if PublishedSome(batches, b) && NoRivalLater(batches, order, b) {
      forall x | x in before && Siblings(batches, x.batch, b) ensures x.batch <= b {
        var k :| 0 <= k < |order| && order[k] == x.batch;
        assert Rivals(batches, order[k], b);
      }
    }
  }

  lemma OrderKeptExactly(s: State)
    requires Reachable(s)
    ensures DrainOrderKept(s.batches, s.log) <==> MutexInDrainOrder(s.batches, s.order)
  {
    ReachableInv(s);
    KeptExactly(s.batches, s.order);
  }

  lemma ReachStep(s: State, a: Step) returns (s': State)
    requires Reachable(s) && Can(s, a)
    ensures Reachable(s') && s' == Do(s, a)
  {
    var steps :| Exec(steps) == Some(s);
    assert (steps + [a])[..|steps|] == steps;
    assert Exec(steps + [a]) == Some(Do(s, a));
    s' := Do(s, a);
  }

  /** With two drainers it need not be: the batch drained later may be published first. */
  lemma DrainersCanReorder(p: Packet, q: Packet) returns (s: State)
    ensures Reachable(s) && s.produced == [[p, q]] && s.log == [Stamp(1, 0), Stamp(0, 0)]
    ensures !DrainOrderKept(s.batches, s.log)
  {
    var s3 := FirstDrain(p);
    var s5 := SecondDrain(s3, p, q);
    s := LaterFirst(s5, [p], [q]);
    assert s.log[0].batch == 1 && s.log[1].batch == 0;
  }

  lemma OneEmpty() returns (s: State)
    ensures Reachable(s) && s.transport.None? && s.log == [] && s.batches == []
    ensures s.buffers == [[]] && s.produced == [[]]
  {
    assert Exec([]) == Some(INIT);
    s := ReachStep(INIT, NewConversation);
  }

  lemma OneProduced(s: State, p: Packet) returns (s': State)
    requires Reachable(s) && s.buffers == [[]] && s.produced == [[]]
    ensures Reachable(s') && s'.transport == s.transport && s'.log == s.log && s'.batches == s.batches
    ensures s'.buffers == [[p]] && s'.produced == [[p]]
  {
    s' := ReachStep(s, Produce(0, p));
    assert s.buffers[0] + [p] == [p] && s.produced[0] + [p] == [p];
  }

  lemma FirstDrain(p: Packet) returns (s: State)
    ensures Reachable(s) && s.transport.None? && s.log == [] && s.buffers == [[]] && s.produced == [[p]]
    ensures s.batches == [Batch(0, Flushing, [p], Held, [])]
  {
    var s1 := OneEmpty();
    var s2 := OneProduced(s1, p);
    s := ReachStep(s2, Drain(0, Flushing));
    assert s.batches[0] == Batch(0, Flushing, [p], Held, []);
  }

  lemma SecondDrain(s: State, p: Packet, q: Packet) returns (s': State)
    requires Reachable(s) && s.transport.None? && s.log == [] && s.buffers == [[]] && s.produced == [[p]]
    requires s.batches == [Batch(0, Flushing, [p], Held, [])]
    ensures Reachable(s') && s'.transport.None? && s'.log == [] && s'.produced == [[p, q]]
    ensures s'.batches == [Batch(0, Flushing, [p], Held, []), Batch(0, Ticking, [q], Held, [])]
  {
    var s1 := ReachStep(s, Produce(0, q));
    assert s1.buffers[0] == [q];
    assert s1.produced == [[p, q]] by {
      assert [p] + [q] == [p, q];
    }
    s' := ReachStep(s1, Drain(0, Ticking));
  }

  lemma LaterFirst(s: State, first: seq<Packet>, second: seq<Packet>) returns (s': State)
    requires Reachable(s) && s.transport.None? && s.log == [] && |first| == |second| == 1
    requires s.batches == [Batch(0, Flushing, first, Held, []), Batch(0, Ticking, second, Held, [])]
    ensures Reachable(s') && s'.produced == s.produced && s'.log == [Stamp(1, 0), Stamp(0, 0)]
    ensures Siblings(s'.batches, 1, 0)
  {
    var s1 := ReachStep(s, Lock(1));
    var s2 := ReachStep(s1, Publish(1, true));
    var s3 := ReachStep(s2, Lock(0));
    s' := ReachStep(s3, Publish(0, true));
  }
}
