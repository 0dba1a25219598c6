/**
 The registry as a concurrent protocol. Every task has a program counter, and a step is one
 acquisition of a lock or one operation under an inner lock. A guard is released together with
 the last step of the call that took it.

 The outer lock is the tokio `RwLock<User>`: `accept_welcome` and `start_conversation` run
 under its write guard, everything else under a read guard. Which lock is free is explicit
 state, so a guard excludes other tasks only because the acquiring steps test it.
 `Policy.InnerLocksOnly` drops that test: the same program without the outer lock.
 */
module RegistryProtocol {
  import opened Wrappers
  import opened Registry

  type Task = nat

  /** Polling rounds a join waits for its welcome. */
  const MAX_JOIN_ROUNDS: nat := 24

  datatype Event = Leaving | Other(tag: nat)

  /**
   How far one conversation value has come. `Signalled(t)`: it asked to leave, and task `t`
   was told. `Lost`: task `t` dropped that answer because its flush failed.
   */
  datatype Phase = Building | Working | Signalled(task: Task) | Lost | Evicted

  /** `events` is everything the conversation ever emitted; the first `taken` were drained. */
  datatype Conv = Conv(id: Id, phase: Phase, home: Entry, events: seq<Event>, taken: nat)

  datatype Kind = Create | Welcome

  datatype Pc =
    | Idle
    // under user.write()
    | WriteHeld(id: Id, kind: Kind)
    | Built(id: Id, i: Instance)
    | Entered(id: Id, i: Instance, e: Entry)
    | Filled(id: Id, i: Instance)
    | WriteDone
    // join_group and its waiter; `mine` is the slot its begin_pending_join inserted
    | JoinBegin(id: Id)
    | JoinSetup(id: Id, mine: Entry)
    | JoinWait(id: Id, mine: Entry, round: nat)
    | JoinRead(id: Id, mine: Entry, round: nat)
    | JoinLooked(id: Id, mine: Entry, round: nat, seen: Option<Entry>)
    | AbandonRead(id: Id, mine: Entry)
    | AbandonHas(id: Id, mine: Entry, e: Entry)
    | AbandonRemove(id: Id, mine: Entry, e: Entry)
    // poll_conversation and handle_inbound
    | PollIdle(id: Id)
    | CallRead(id: Id, poll: bool)
    | CallHas(id: Id, e: Entry, poll: bool)
    | PollOut(id: Id, e: Entry, leave: Option<Instance>)
    // finalize_self_leave
    | FinWait(id: Id, e: Entry, i: Instance)
    | FinRead(id: Id, e: Entry, i: Instance)
    | FinEmit(id: Id, e: Entry, i: Instance)

  /** The event pump: one tick is a replay of the drained log, then a scan of the fanouts. */
  datatype Pump =
    | Sleeping
    | Replaying(rest: seq<Lifecycle>)
    | Scanning(todo: set<Id>)
    | Looked(id: Id, e: Entry, todo: set<Id>)
    | Handing(id: Id, i: Instance, batch: seq<Event>, todo: set<Id>)

  datatype Delivery = Delivery(id: Id, i: Instance, ev: Event)

  /**
   Everything behind the inner locks. `owner` is history: the task that allocated each cell.
   */
  datatype Reg = Reg(sh: Shared, convs: seq<Conv>, owner: seq<Task>)

  datatype State = State(
    writer: Option<Task>,
    readers: set<Task>,
    registryLock: Option<Task>,
    reg: Reg,
    pc: map<Task, Pc>,
    pump: Pump,
    fanouts: set<Id>,
    // history
    failed: set<Entry>,         // slots whose join_group returned an error after inserting them
    drained: seq<Lifecycle>,    // lifecycle events the pump took
    delivered: seq<Delivery>)   // events the pump handed to a fanout

  const INIT := State(None, {}, None, Reg(Shared(map[], [], []), [], []), map[], Sleeping, {}, {}, [], [])

  function At(s: State, t: Task): Pc {
    if t in s.pc then s.pc[t] else Idle
  }

  predicate HoldsWrite(p: Pc) {
    p.WriteHeld? || p.Built? || p.Entered? || p.Filled? || p.WriteDone?
  }

  predicate HoldsRead(p: Pc) {
    || p.JoinBegin? || p.JoinRead? || p.JoinLooked?
    || p.AbandonRead? || p.AbandonHas? || p.AbandonRemove?
    || p.CallRead? || p.CallHas? || p.PollOut? || p.FinRead? || p.FinEmit?
  }

  /** Only `abandon_pending_join` keeps the registry lock over more than one step. */
  predicate HoldsRegistry(p: Pc) {
    p.AbandonHas? || p.AbandonRemove?
  }

  // ── Steps ───────────────────────────────────────────────────────────────

  datatype WriteStep =
    | WriteAcquire(target: Id, kind: Kind)
    | Refuse
    | Build
    | Enter
    | Fill
    | EmitCreated
    | WriteRelease

  datatype JoinStep =
    | JoinAcquire(target: Id)
    | Begin
    | SetupDone(ok: bool)
    | WaitAcquire
    | WaitLookup
    | WaitSee

  datatype AbandonStep = AbandonAcquire | AbandonLock | AbandonCheck | AbandonDrop

  datatype CallStep =
    | StartPolling(target: Id)
    | CallAcquire(target: Id, poll: bool)
    | CallLookup
    | CallSlot(leave: bool)
    | PollFlush(ok: bool)

  datatype LeaveStep = LeaveAcquire | LeaveRemove | LeaveEmit

  datatype PumpStep = Drain | Replay | Scan | Look(name: Id) | Take | Hand | Next | Sleep

  datatype Action =
    // any call into a conversation may make it emit events, whoever makes the call
    | Event(i: Instance, ev: Event)
    // start_conversation and accept_welcome
    | Write(t: Task, w: WriteStep)
    // join_group and the rounds of its waiter
    | Join(t: Task, j: JoinStep)
    // abandon_pending_join
    | Abandon(t: Task, b: AbandonStep)
    // poll_conversation and handle_inbound
    | Call(t: Task, c: CallStep)
    // finalize_self_leave
    | Leave(t: Task, l: LeaveStep)
    // one tick of the pump
    | Pump(p: PumpStep)

  /** Entering or leaving a program counter takes or drops the guards held there. */
  function Move(s: State, t: Task, p: Pc): State {
    s.(pc := s.pc[t := p],
       writer := if HoldsWrite(p) then Some(t) else if s.writer == Some(t) then None else s.writer,
       readers := if HoldsRead(p) then s.readers + {t} else s.readers - {t},
       registryLock := if HoldsRegistry(p) then Some(t)
                       else if s.registryLock == Some(t) then None else s.registryLock)
  }

  // ── Effects on the registry ─────────────────────────────────────────────

  predicate Lists(r: Reg, id: Id) {
    id in r.sh.conversations
  }

  /** `or_insert_with` or `insert` under the registry lock; the allocating task is recorded. */
  function AddPending(r: Reg, t: Task, id: Id): Reg {
    r.(sh := GetOrInsert(r.sh, id), owner := if Lists(r, id) then r.owner else r.owner + [t])
  }

  function BuildConv(r: Reg, id: Id): Reg {
    r.(convs := r.convs + [Conv(id, Building, 0, [], 0)])
  }

  function FillCell(r: Reg, e: Entry, i: Instance): Reg
    requires e < |r.sh.cells| && i < |r.convs|
  {
    r.(sh := FillSlot(r.sh, e, i), convs := r.convs[i := r.convs[i].(phase := Working, home := e)])
  }

  function SetPhase(r: Reg, i: Instance, p: Phase): Reg
    requires i < |r.convs|
  {
    r.(convs := r.convs[i := r.convs[i].(phase := p)])
  }

  /** The live conversation the map lists under `id`. */
  function ListedConv(r: Reg, id: Id): Option<Instance> {
    if Lists(r, id) && r.sh.conversations[id] < |r.sh.cells| && r.sh.cells[r.sh.conversations[id]].slot.Live?
       && r.sh.cells[r.sh.conversations[id]].slot.instance < |r.convs|
    then Some(r.sh.cells[r.sh.conversations[id]].slot.instance) else None
  }

  /** Whatever the map holds under the id goes; a conversation lost that way is marked. */
  function Evict(r: Reg, id: Id): Reg {
    var found := ListedConv(r, id);
    (if found.Some? then SetPhase(r, found.value, Evicted) else r).(sh := RemoveKey(r.sh, id))
  }

  function Log(r: Reg, ev: Lifecycle): Reg {
    r.(sh := Emit(r.sh, ev))
  }

  function AddEvent(r: Reg, i: Instance, ev: Event): Reg
    requires i < |r.convs|
  {
    r.(convs := r.convs[i := r.convs[i].(events := r.convs[i].events + [ev])])
  }

  function TakeEvents(r: Reg, i: Instance): Reg
    requires i < |r.convs|
  {
    r.(convs := r.convs[i := r.convs[i].(taken := |r.convs[i].events|)])
  }

  // ── Steps of a task ─────────────────────────────────────────────────────

  predicate CanWrite(s: State, t: Task, w: WriteStep) {
    var p := At(s, t);
    match w
    case WriteAcquire(_, _) => p.Idle?
    // start_conversation on a listed id, or whose constructor fails; a welcome that fails or is not for us
    case Refuse => p.WriteHeld? && (p.kind.Create? ==> s.registryLock.None?)
    case Build => p.WriteHeld? && (p.kind.Create? ==> s.registryLock.None? && p.id !in s.reg.sh.conversations)
    case Enter => p.Built? && s.registryLock.None?
    case Fill => p.Entered? && p.e < |s.reg.sh.cells| && p.i < |s.reg.convs|
    case EmitCreated => p.Filled?
    case WriteRelease => p.WriteDone?
  }

  function DoWrite(s: State, t: Task, w: WriteStep): State
    requires CanWrite(s, t, w)
  {
    var p := At(s, t);
    match w
    case WriteAcquire(id, kind) => Move(s, t, WriteHeld(id, kind))
    case Refuse => Move(s, t, WriteDone)
    case Build => Move(s, t, Built(p.id, |s.reg.convs|)).(reg := BuildConv(s.reg, p.id))
    case Enter =>
      var reg := AddPending(s.reg, t, p.id);
      Move(s, t, Entered(p.id, p.i, reg.sh.conversations[p.id])).(reg := reg)
    case Fill =>
      if s.reg.sh.cells[p.e].slot.Pending? then
        Move(s, t, Filled(p.id, p.i)).(reg := FillCell(s.reg, p.e, p.i))
      else Move(s, t, WriteDone)
    case EmitCreated => Move(s, t, WriteDone).(reg := Log(s.reg, Created(p.id)))
    case WriteRelease => Move(s, t, Idle)
  }

  predicate CanJoin(s: State, t: Task, j: JoinStep) {
    var p := At(s, t);
    match j
    case JoinAcquire(_) => p.Idle?
    case Begin => p.JoinBegin? && s.registryLock.None?
    case SetupDone(_) => p.JoinSetup?
    case WaitAcquire => p.JoinWait? && p.round < MAX_JOIN_ROUNDS
    case WaitLookup => p.JoinRead? && s.registryLock.None?
    case WaitSee => p.JoinLooked? && (p.seen.Some? ==> p.seen.value < |s.reg.sh.cells|)
  }

  function DoJoin(s: State, t: Task, j: JoinStep): State
    requires CanJoin(s, t, j)
  {
    var p := At(s, t);
    match j
    case JoinAcquire(id) => Move(s, t, JoinBegin(id))
    case Begin =>
      if p.id in s.reg.sh.conversations then Move(s, t, Idle)
      else Move(s, t, JoinSetup(p.id, |s.reg.sh.cells|)).(reg := AddPending(s.reg, t, p.id))
    // topics, key package, announcement: any of them may fail, and then join_group returns
    case SetupDone(ok) =>
      if ok then Move(s, t, JoinWait(p.id, p.mine, 0)) else Move(s, t, Idle).(failed := s.failed + {p.mine})
    case WaitAcquire => Move(s, t, JoinRead(p.id, p.mine, p.round))
    case WaitLookup => Move(s, t, JoinLooked(p.id, p.mine, p.round, Lookup(s.reg.sh, p.id)))
    case WaitSee =>
      if p.seen.Some? && s.reg.sh.cells[p.seen.value].slot.Live? then Move(s, t, PollIdle(p.id))
      else Move(s, t, JoinWait(p.id, p.mine, p.round + 1))
  }

  predicate CanAbandon(s: State, t: Task, b: AbandonStep) {
    var p := At(s, t);
    match b
    case AbandonAcquire => p.JoinWait? && p.round == MAX_JOIN_ROUNDS
    case AbandonLock => p.AbandonRead? && s.registryLock.None?
    case AbandonCheck => p.AbandonHas? && p.e < |s.reg.sh.cells|
    case AbandonDrop => p.AbandonRemove?
  }

  function DoAbandon(s: State, t: Task, b: AbandonStep): State
    requires CanAbandon(s, t, b)
  {
    var p := At(s, t);
    match b
    case AbandonAcquire => Move(s, t, AbandonRead(p.id, p.mine))
    case AbandonLock =>
      if p.id in s.reg.sh.conversations
      then Move(s, t, AbandonHas(p.id, p.mine, s.reg.sh.conversations[p.id]))
      else Move(s, t, Idle)
    // the slot's read guard is gone again before the removal
    case AbandonCheck =>
      if s.reg.sh.cells[p.e].slot.Pending? then Move(s, t, AbandonRemove(p.id, p.mine, p.e))
      else Move(s, t, Idle)
    case AbandonDrop => Move(s, t, Idle).(reg := Evict(s.reg, p.id))
  }

  predicate CanCall(s: State, t: Task, c: CallStep) {
    var p := At(s, t);
    match c
    case StartPolling(_) => p.Idle?
    case CallAcquire(id, poll) => p == if poll then PollIdle(id) else Idle
    case CallLookup => p.CallRead? && s.registryLock.None?
    case CallSlot(leave) =>
      && p.CallHas? && p.e < |s.reg.sh.cells|
      && var slot := s.reg.sh.cells[p.e].slot;
         if slot.Pending? then !leave
         // a conversation asks to leave at most once
         else slot.instance < |s.reg.convs| && (leave ==> s.reg.convs[slot.instance].phase.Working?)
    case PollFlush(_) => p.PollOut? && (p.leave.Some? ==> p.leave.value < |s.reg.convs|)
  }

  function DoCall(s: State, t: Task, c: CallStep): State
    requires CanCall(s, t, c)
  {
    var p := At(s, t);
    match c
    case StartPolling(id) => Move(s, t, PollIdle(id))
    case CallAcquire(id, poll) => Move(s, t, CallRead(id, poll))
    case CallLookup =>
      if p.id in s.reg.sh.conversations then Move(s, t, CallHas(p.id, s.reg.sh.conversations[p.id], p.poll))
      else Move(s, t, Idle)
    case CallSlot(leave) =>
      var slot := s.reg.sh.cells[p.e].slot;
      if slot.Pending? then Move(s, t, Idle)
      else if leave then
        Move(s, t, if p.poll then PollOut(p.id, p.e, Some(slot.instance)) else FinRead(p.id, p.e, slot.instance))
          .(reg := SetPhase(s.reg, slot.instance, Signalled(t)))
      else if p.poll then Move(s, t, PollOut(p.id, p.e, None))
      else Move(s, t, Idle)
    case PollFlush(ok) =>
      if p.leave.None? then Move(s, t, PollIdle(p.id))
      else if ok then Move(s, t, FinWait(p.id, p.e, p.leave.value))
      // `flush(..)?` returns the transport error in place of the outcome
      else Move(s, t, PollIdle(p.id)).(reg := SetPhase(s.reg, p.leave.value, Lost))
  }

  predicate CanLeave(s: State, t: Task, l: LeaveStep) {
    var p := At(s, t);
    match l
    case LeaveAcquire => p.FinWait?
    case LeaveRemove => p.FinRead? && s.registryLock.None?
    case LeaveEmit => p.FinEmit?
  }

  function DoLeave(s: State, t: Task, l: LeaveStep): State
    requires CanLeave(s, t, l)
  {
    var p := At(s, t);
    match l
    case LeaveAcquire => Move(s, t, FinRead(p.id, p.e, p.i))
    case LeaveRemove => Move(s, t, FinEmit(p.id, p.e, p.i)).(reg := Evict(s.reg, p.id))
    case LeaveEmit => Move(s, t, Idle).(reg := Log(s.reg, Removed(p.id)))
  }

  predicate CanPump(s: State, p: PumpStep) {
    match p
    case Drain => s.pump.Sleeping?
    case Replay => s.pump.Replaying? && s.pump.rest != []
    case Scan => s.pump.Replaying? && s.pump.rest == []
    case Look(id) => s.pump.Scanning? && id in s.pump.todo && s.registryLock.None?
    case Take =>
      && s.pump.Looked? && s.pump.e < |s.reg.sh.cells|
      && var slot := s.reg.sh.cells[s.pump.e].slot;
         slot.Live? ==> slot.instance < |s.reg.convs|
                        && s.reg.convs[slot.instance].taken <= |s.reg.convs[slot.instance].events|
    case Hand => s.pump.Handing? && s.pump.batch != []
    case Next => s.pump.Handing? && s.pump.batch == []
    case Sleep => s.pump.Scanning? && s.pump.todo == {}
  }

  function ApplyLifecycle(active: set<Id>, ev: Lifecycle): set<Id> {
    match ev
    case Created(id) => active + {id}
    case Removed(id) => active - {id}
  }

  function DoPump(s: State, p: PumpStep): State
    requires CanPump(s, p)
  {
    match p
    case Drain =>
      s.(pump := Replaying(s.reg.sh.lifecycle), drained := s.drained + s.reg.sh.lifecycle,
         reg := s.reg.(sh := s.reg.sh.(lifecycle := [])))
    case Replay =>
      s.(pump := Replaying(s.pump.rest[1..]), fanouts := ApplyLifecycle(s.fanouts, s.pump.rest[0]))
    case Scan => s.(pump := Scanning(s.fanouts))
    case Look(id) =>
      var todo := s.pump.todo - {id};
      s.(pump := if id in s.reg.sh.conversations then Looked(id, s.reg.sh.conversations[id], todo) else Scanning(todo))
    // the entry is used without the outer lock: it may be detached by now
    case Take =>
      var slot := s.reg.sh.cells[s.pump.e].slot;
      if slot.Pending? then s.(pump := Scanning(s.pump.todo))
      else
        var conv := s.reg.convs[slot.instance];
        s.(pump := Handing(s.pump.id, slot.instance, conv.events[conv.taken..], s.pump.todo),
           reg := TakeEvents(s.reg, slot.instance))
    case Hand =>
      s.(pump := s.pump.(batch := s.pump.batch[1..]),
         delivered := s.delivered + [Delivery(s.pump.id, s.pump.i, s.pump.batch[0])])
    case Next => s.(pump := Scanning(s.pump.todo))
    case Sleep => s.(pump := Sleeping)
  }

  // ── Runs ────────────────────────────────────────────────────────────────

  datatype Policy = OuterLock | InnerLocksOnly

  predicate AcquiresRead(a: Action) {
    || (a.Join? && (a.j.JoinAcquire? || a.j.WaitAcquire?))
    || (a.Abandon? && a.b.AbandonAcquire?)
    || (a.Call? && a.c.CallAcquire?)
    || (a.Leave? && a.l.LeaveAcquire?)
    // the pump takes and drops a read guard around one inner step
    || (a.Pump? && (a.p.Drain? || a.p.Look?))
  }

  predicate AcquiresWrite(a: Action) {
    a.Write? && a.w.WriteAcquire?
  }

  predicate Ready(s: State, a: Action) {
    match a
    case Event(i, _) => i < |s.reg.convs|
    case Write(t, w) => CanWrite(s, t, w)
    case Join(t, j) => CanJoin(s, t, j)
    case Abandon(t, b) => CanAbandon(s, t, b)
    case Call(t, c) => CanCall(s, t, c)
    case Leave(t, l) => CanLeave(s, t, l)
    case Pump(p) => CanPump(s, p)
  }

  predicate Enabled(g: Policy, s: State, a: Action) {
    && Ready(s, a)
    && (g.OuterLock? && AcquiresRead(a) ==> s.writer.None?)
    && (g.OuterLock? && AcquiresWrite(a) ==> s.writer.None? && s.readers == {})
  }

  function Apply(s: State, a: Action): State
    requires Ready(s, a)
  {
    match a
    case Event(i, ev) => s.(reg := AddEvent(s.reg, i, ev))
    case Write(t, w) => DoWrite(s, t, w)
    case Join(t, j) => DoJoin(s, t, j)
    case Abandon(t, b) => DoAbandon(s, t, b)
    case Call(t, c) => DoCall(s, t, c)
    case Leave(t, l) => DoLeave(s, t, l)
    case Pump(p) => DoPump(s, p)
  }

  /** Where a sequence of steps leads, or `None` if one of them is not possible. */
  function Exec(g: Policy, from: State, actions: seq<Action>): Option<State> {
    if actions == [] then Some(from)
    else
      var last := |actions| - 1;
      var before := Exec(g, from, actions[..last]);
      if before.Some? && Enabled(g, before.value, actions[last])
      then Some(Apply(before.value, actions[last]))
      else None
  }

  /** Some run of the program is in state `s`. */
  ghost predicate Reachable(g: Policy, s: State) {
    exists actions :: Exec(g, INIT, actions) == Some(s)
  }
}
