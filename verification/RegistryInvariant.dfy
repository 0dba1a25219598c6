/** The inductive invariant of the registry protocol. */
module RegistryInvariant {
  import opened Wrappers
  import opened Registry
  import opened RegistryProtocol

  // ── The log of created and removed conversations ────────────────────────

  /** The ids whose last entry in the log is `Created`: what applying the log to no fanouts gives. */
  function LoggedLive(log: seq<Lifecycle>): set<Id> {
    if log == [] then {} else ApplyLifecycle(LoggedLive(log[..|log| - 1]), log[|log| - 1])
  }

  /** Every `Created` finds its id absent and every `Removed` finds it present. */
  ghost predicate Alternates(log: seq<Lifecycle>) {
    forall k :: 0 <= k < |log| ==> (log[k].Created? <==> log[k].id !in LoggedLive(log[..k]))
  }

  /** Everything ever emitted, drained or not. */
  function FullLog(s: State): seq<Lifecycle> {
    s.drained + s.reg.sh.lifecycle
  }

  /** What the pump took from the log and has not applied yet. */
  function Unapplied(p: Pump): seq<Lifecycle> {
    if p.Replaying? then p.rest else []
  }

  // ── Locks ───────────────────────────────────────────────────────────────

  /** Who holds which lock; a writer is alone. */
  ghost predicate Locks(s: State) {
    && (s.writer.Some? ==> s.readers == {})
    && (forall t: Task :: HoldsWrite(At(s, t)) <==> s.writer == Some(t))
    && (forall t: Task :: HoldsRead(At(s, t)) <==> t in s.readers)
    && (forall t: Task :: HoldsRegistry(At(s, t)) <==> s.registryLock == Some(t))
  }

  // ── Cells and conversations ─────────────────────────────────────────────

  ghost predicate Registered(r: Reg, e: Entry) {
    e < |r.sh.cells| && Lookup(r.sh, r.sh.cells[e].key) == Some(e)
  }

  /** Conversation `i` sits in entry `e`. */
  ghost predicate Holds(r: Reg, e: Entry, i: Instance) {
    e < |r.sh.cells| && r.sh.cells[e].slot == Live(i)
  }

  ghost predicate Installed(r: Reg, i: Instance, id: Id) {
    i < |r.convs| && r.convs[i].id == id && !r.convs[i].phase.Building?
  }

  /**
   A live cell and its conversation know each other, and the map lists a live cell exactly until
   its conversation is evicted. The listed conversation is the newest installed under its id.
   */
  ghost predicate Cells(r: Reg) {
    && Valid(r.sh)
    && |r.owner| == |r.sh.cells|
    && (forall e: Entry, i: Instance :: Holds(r, e, i) ==>
          Installed(r, i, r.sh.cells[e].key) && r.convs[i].home == e)
    && (forall i: Instance, id: Id :: Installed(r, i, id) ==>
          Holds(r, r.convs[i].home, i) && (Registered(r, r.convs[i].home) <==> !r.convs[i].phase.Evicted?))
    && (forall i: Instance, id: Id :: Installed(r, i, id) && ListedConv(r, id).Some? ==>
          i <= ListedConv(r, id).value)
  }

  // ── Tasks ───────────────────────────────────────────────────────────────

  /** A task of `join_group` that has not finished, and the slot it inserted. */
  predicate Joining(p: Pc, e: Entry) {
    || (p.JoinSetup? && p.mine == e) || (p.JoinWait? && p.mine == e) || (p.JoinRead? && p.mine == e)
    || (p.JoinLooked? && p.mine == e) || (p.AbandonRead? && p.mine == e)
    || (p.AbandonHas? && p.mine == e) || (p.AbandonRemove? && p.mine == e)
  }

  /** The task was told that `i` wants to leave and has not evicted it yet. */
  predicate Carries(p: Pc, i: Instance) {
    || (p.PollOut? && p.leave == Some(i)) || (p.FinWait? && p.i == i) || (p.FinRead? && p.i == i)
  }

  ghost predicate Keyed(r: Reg, e: Entry, id: Id) {
    e < |r.sh.cells| && r.sh.cells[e].key == id
  }

  ghost predicate Leaver(r: Reg, t: Task, id: Id, e: Entry, i: Instance) {
    Holds(r, e, i) && Keyed(r, e, id) && i < |r.convs| && r.convs[i].phase == Signalled(t)
  }

  /** The conversation being installed is the last one built. */
  ghost predicate Newest(r: Reg, i: Instance, id: Id) {
    i + 1 == |r.convs| && r.convs[i].id == id && r.convs[i].phase.Building?
  }

  /** What task `t` knows at program counter `p`. */
  ghost predicate Knows(r: Reg, t: Task, p: Pc) {
    match p
    case Idle => true
    case WriteHeld(_, _) => true
    case Built(id, i) => Newest(r, i, id)
    case Entered(id, i, e) => Newest(r, i, id) && Lookup(r.sh, id) == Some(e)
    case Filled(id, i) => ListedConv(r, id) == Some(i)
    case WriteDone => true
    case JoinBegin(_) => true
    case JoinSetup(id, mine) => Keyed(r, mine, id)
    case JoinWait(id, mine, round) => Keyed(r, mine, id) && round <= MAX_JOIN_ROUNDS
    case JoinRead(id, mine, round) => Keyed(r, mine, id) && round < MAX_JOIN_ROUNDS
    case JoinLooked(id, mine, round, seen) =>
      && Keyed(r, mine, id) && round < MAX_JOIN_ROUNDS
      && (seen.Some? ==> Keyed(r, seen.value, id))
      && (Registered(r, mine) ==> seen == Some(mine))
    case AbandonRead(id, mine) => Keyed(r, mine, id)
    case AbandonHas(id, mine, e) => Keyed(r, mine, id) && Lookup(r.sh, id) == Some(e)
    case AbandonRemove(id, mine, e) =>
      Keyed(r, mine, id) && Lookup(r.sh, id) == Some(e) && Keyed(r, e, id) && r.sh.cells[e].slot.Pending?
    case PollIdle(_) => true
    case CallRead(_, _) => true
    case CallHas(id, e, _) => Keyed(r, e, id)
    case PollOut(id, e, leave) => leave.Some? ==> Leaver(r, t, id, e, leave.value)
    case FinWait(id, e, i) => Leaver(r, t, id, e, i)
    case FinRead(id, e, i) => Leaver(r, t, id, e, i)
    case FinEmit(id, e, i) => Installed(r, i, id) && r.convs[i].phase.Evicted? && ListedConv(r, id).None?
  }

  ghost predicate Tasks(s: State) {
    forall t: Task :: Knows(s.reg, t, At(s, t))
  }

  /** Every listed pending slot is in a writer's hands, awaited by its join, or left by a failed one. */
  ghost predicate PendingOwned(s: State) {
    forall e: Entry :: Registered(s.reg, e) && e < |s.reg.owner| && s.reg.sh.cells[e].slot.Pending? ==>
      || e in s.failed
      || Joining(At(s, s.reg.owner[e]), e)
      || (At(s, s.reg.owner[e]).Entered? && At(s, s.reg.owner[e]).e == e)
  }

  /** A leave signal that was neither lost nor acted on is with the task that received it. */
  ghost predicate SignalsHeld(s: State) {
    forall i :: 0 <= i < |s.reg.convs| && s.reg.convs[i].phase.Signalled? ==>
      Carries(At(s, s.reg.convs[i].phase.task), i)
  }

  // ── The log against the registry ────────────────────────────────────────

  /** Where the log is a step behind the registry. */
  predicate Behind(p: Pc) {
    p.Filled? || p.FinEmit?
  }

  ghost predicate FillUnlogged(s: State, id: Id) {
    s.writer.Some? && At(s, s.writer.value).Filled? && At(s, s.writer.value).id == id
  }

  ghost predicate EvictUnlogged(s: State, id: Id) {
    exists t: Task :: At(s, t).FinEmit? && At(s, t).id == id
  }

  /** The log says which ids are live, up to the two places where it is a step behind. */
  ghost predicate Logged(s: State) {
    && Alternates(FullLog(s))
    && (forall t: Task :: At(s, t).FinEmit? ==> At(s, t).id in LoggedLive(FullLog(s)))
    && (forall t: Task, u: Task :: At(s, t).FinEmit? && At(s, u).FinEmit? && At(s, t).id == At(s, u).id ==> t == u)
    && (forall id :: ListedConv(s.reg, id).Some? ==> (id in LoggedLive(FullLog(s)) <==> !FillUnlogged(s, id)))
    && (forall id :: id in LoggedLive(FullLog(s)) && ListedConv(s.reg, id).None? ==> EvictUnlogged(s, id))
  }

  /** The pump has applied exactly the part of the log it took and finished with. */
  ghost predicate Replayed(s: State) {
    var done := |s.drained| - |Unapplied(s.pump)|;
    && 0 <= done
    && s.drained[done..] == Unapplied(s.pump)
    && s.fanouts == LoggedLive(s.drained[..done])
  }

  // ── Events handed to the fanouts ────────────────────────────────────────

  function DeliveredOf(d: seq<Delivery>, i: Instance): seq<Event> {
    if d == [] then []
    else
      var rest := DeliveredOf(d[..|d| - 1], i);
      if d[|d| - 1].i == i then rest + [d[|d| - 1].ev] else rest
  }

  function InHand(p: Pump, i: Instance): seq<Event> {
    if p.Handing? && p.i == i then p.batch else []
  }

  /** What reached the fanout and what is about to is what was taken, in order. */
  ghost predicate DeliveredPrefix(c: Conv, d: seq<Delivery>, p: Pump, i: Instance) {
    c.taken <= |c.events| && DeliveredOf(d, i) + InHand(p, i) == c.events[..c.taken]
  }

  /** Nothing delivered under `id` comes from a conversation installed after `i`. */
  ghost predicate NoneNewer(d: seq<Delivery>, id: Id, i: Instance) {
    forall k :: 0 <= k < |d| && d[k].id == id ==> d[k].i <= i
  }

  /** Deliveries under one id come from ever newer conversations. */
  ghost predicate InInstanceOrder(d: seq<Delivery>) {
    forall k, l :: 0 <= k < l < |d| && d[k].id == d[l].id ==> d[k].i <= d[l].i
  }

  ghost predicate Handed(s: State) {
    && (forall i :: 0 <= i < |s.reg.convs| ==> DeliveredPrefix(s.reg.convs[i], s.delivered, s.pump, i))
    && (forall k :: 0 <= k < |s.delivered| ==> Installed(s.reg, s.delivered[k].i, s.delivered[k].id))
    && InInstanceOrder(s.delivered)
    && (s.pump.Looked? ==> Keyed(s.reg, s.pump.e, s.pump.id)
                           && (s.reg.sh.cells[s.pump.e].slot.Live? ==>
                                 NoneNewer(s.delivered, s.pump.id, s.reg.sh.cells[s.pump.e].slot.instance)))
    && (s.pump.Handing? ==> Installed(s.reg, s.pump.i, s.pump.id) && NoneNewer(s.delivered, s.pump.id, s.pump.i))
  }

  ghost predicate Inv(s: State) {
    Locks(s) && Cells(s.reg) && Tasks(s) && PendingOwned(s) && SignalsHeld(s) && Logged(s) && Replayed(s) && Handed(s)
  }
}
