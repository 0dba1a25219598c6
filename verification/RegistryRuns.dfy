/** Preservation of the rest of the invariant, and of all of it along every run. */
module RegistryRuns {
  import opened Wrappers
  import opened Registry
  import opened RegistryProtocol
  import opened RegistryInvariant
  import opened RegistrySteps

  // ── Pending slots ───────────────────────────────────────────────────────

  ghost predicate Outside(p: Pc) {
    forall e: Entry :: !Joining(p, e) && !(p.Entered? && p.e == e)
  }

  lemma PendingOutside(s: State, s': State, t: Task)
    requires PendingOwned(s) && Outside(At(s, t)) && s'.failed == s.failed && s'.reg.owner == s.reg.owner
    requires forall u: Task :: u != t ==> At(s', u) == At(s, u)
    requires forall e: Entry :: Registered(s'.reg, e) && s'.reg.sh.cells[e].slot.Pending? ==>
               Registered(s.reg, e) && s.reg.sh.cells[e].slot.Pending?
    ensures PendingOwned(s')
  {
    forall e: Entry | Registered(s'.reg, e) && e < |s.reg.owner| && s'.reg.sh.cells[e].slot.Pending?
      ensures e in s.failed || Joining(At(s', s.reg.owner[e]), e)
              || (At(s', s.reg.owner[e]).Entered? && At(s', s.reg.owner[e]).e == e)
    {
      assert Registered(s.reg, e);
      assert !Joining(At(s, t), e) && !(At(s, t).Entered? && At(s, t).e == e);
    }
  }

  lemma BeginPending(s: State, t: Task)
    requires Cells(s.reg) && PendingOwned(s) && CanJoin(s, t, Begin)
    ensures PendingOwned(DoJoin(s, t, Begin))
  {
    var s' := DoJoin(s, t, Begin);
    forall e: Entry | Registered(s'.reg, e) && e < |s.reg.owner| ensures Registered(s.reg, e) {
    }
  }

  /** The writer that inserted a slot goes on to hold it, and one that fills its slot ends its pending. */
  lemma EnterPending(s: State, t: Task)
    requires Cells(s.reg) && PendingOwned(s) && CanWrite(s, t, Enter)
    ensures PendingOwned(DoWrite(s, t, Enter))
  {
    var s' := DoWrite(s, t, Enter);
    forall e: Entry | Registered(s'.reg, e) && e < |s.reg.owner| ensures Registered(s.reg, e) {
    }
  }

  lemma FillPending(s: State, t: Task)
    requires Cells(s.reg) && Knows(s.reg, t, At(s, t)) && PendingOwned(s) && CanWrite(s, t, Fill)
    ensures PendingOwned(DoWrite(s, t, Fill))
  {
    var s' := DoWrite(s, t, Fill);
    assert s'.reg.owner == s.reg.owner && s'.failed == s.failed;
    forall e: Entry | Registered(s'.reg, e) && s'.reg.sh.cells[e].slot.Pending?
      ensures Registered(s.reg, e) && s.reg.sh.cells[e].slot.Pending? && e != At(s, t).e
    {
    }
  }

  lemma WritePending(s: State, t: Task, w: WriteStep)
    requires Cells(s.reg) && Knows(s.reg, t, At(s, t)) && PendingOwned(s) && CanWrite(s, t, w)
    ensures PendingOwned(DoWrite(s, t, w))
  {
    match w {
      case Enter => EnterPending(s, t);
      case Fill => FillPending(s, t);
      case _ => WriteElsewhere(s, t, w); PendingOutside(s, DoWrite(s, t, w), t);
    }
  }

  lemma WriteElsewhere(s: State, t: Task, w: WriteStep)
    requires CanWrite(s, t, w) && !w.Enter? && !w.Fill?
    ensures var s' := DoWrite(s, t, w);
            && Outside(At(s, t)) && s'.failed == s.failed && s'.reg.owner == s.reg.owner
            && s'.reg.sh.conversations == s.reg.sh.conversations && s'.reg.sh.cells == s.reg.sh.cells
    ensures forall u: Task :: u != t ==> At(DoWrite(s, t, w), u) == At(s, u)
  {
  }

  /** A joining task that goes on joining, or whose slot is excused, keeps the pending slots owned. */
  lemma MovedPending(s: State, s': State, t: Task, mine: Entry)
    requires PendingOwned(s) && s'.reg == s.reg && s.failed <= s'.failed
    requires !At(s, t).Entered? && forall e: Entry :: Joining(At(s, t), e) ==> e == mine
    requires forall u: Task :: u != t ==> At(s', u) == At(s, u)
    requires Joining(At(s', t), mine) || mine in s'.failed
             || !(Registered(s.reg, mine) && s.reg.sh.cells[mine].slot.Pending?)
    ensures PendingOwned(s')
  {
  }

  lemma JoinPending(s: State, t: Task, j: JoinStep)
    requires Cells(s.reg) && Knows(s.reg, t, At(s, t)) && PendingOwned(s) && CanJoin(s, t, j)
    ensures PendingOwned(DoJoin(s, t, j))
  {
    if j.Begin? {
      BeginPending(s, t);
    } else if j.JoinAcquire? {
      PendingOutside(s, DoJoin(s, t, j), t);
    } else {
      MovedPending(s, DoJoin(s, t, j), t, At(s, t).mine);
    }
  }

  lemma DropPending(s: State, t: Task)
    requires Cells(s.reg) && Knows(s.reg, t, At(s, t)) && PendingOwned(s) && CanAbandon(s, t, AbandonDrop)
    ensures PendingOwned(DoAbandon(s, t, AbandonDrop))
  {
    var s' := DoAbandon(s, t, AbandonDrop);
    forall e: Entry | Registered(s'.reg, e) && s'.reg.sh.cells[e].slot.Pending?
      ensures Registered(s.reg, e) && s.reg.sh.cells[e].slot.Pending? && !Joining(At(s, t), e)
    {
    }
  }

  lemma AbandonPending(s: State, t: Task, b: AbandonStep)
    requires Cells(s.reg) && Knows(s.reg, t, At(s, t)) && PendingOwned(s) && CanAbandon(s, t, b)
    ensures PendingOwned(DoAbandon(s, t, b))
  {
    if b.AbandonDrop? {
      DropPending(s, t);
    } else {
      MovedPending(s, DoAbandon(s, t, b), t, At(s, t).mine);
    }
  }

  lemma CallPending(s: State, t: Task, c: CallStep)
    requires Cells(s.reg) && Knows(s.reg, t, At(s, t)) && PendingOwned(s) && CanCall(s, t, c)
    ensures PendingOwned(DoCall(s, t, c))
  {
    PendingOutside(s, DoCall(s, t, c), t);
  }

  lemma LeavePending(s: State, t: Task, l: LeaveStep)
    requires Cells(s.reg) && Knows(s.reg, t, At(s, t)) && PendingOwned(s) && CanLeave(s, t, l)
    ensures PendingOwned(DoLeave(s, t, l))
  {
    PendingOutside(s, DoLeave(s, t, l), t);
  }

  // ── Leave signals ───────────────────────────────────────────────────────

  lemma WriteSignals(s: State, t: Task, w: WriteStep)
    requires Cells(s.reg) && Knows(s.reg, t, At(s, t)) && SignalsHeld(s) && CanWrite(s, t, w)
    ensures SignalsHeld(DoWrite(s, t, w))
  {
  }

  lemma JoinSignals(s: State, t: Task, j: JoinStep)
    requires Cells(s.reg) && Knows(s.reg, t, At(s, t)) && SignalsHeld(s) && CanJoin(s, t, j)
    ensures SignalsHeld(DoJoin(s, t, j))
  {
    JoinRest(s, t, j);
    SameSignals(s, DoJoin(s, t, j), t);
  }

  /** A step of a join changes nothing but the map, the cells and its own place. */
  lemma JoinRest(s: State, t: Task, j: JoinStep)
    requires CanJoin(s, t, j)
    ensures var s' := DoJoin(s, t, j);
            && s'.reg.convs == s.reg.convs && s'.reg.sh.lifecycle == s.reg.sh.lifecycle && s'.drained == s.drained
            && s'.delivered == s.delivered && s'.pump == s.pump && s'.fanouts == s.fanouts
            && !Behind(At(s, t)) && !Behind(At(s', t))
            && |s.reg.sh.cells| <= |s'.reg.sh.cells| && s'.reg.sh.cells[..|s.reg.sh.cells|] == s.reg.sh.cells
    ensures forall u: Task :: u != t ==> At(DoJoin(s, t, j), u) == At(s, u)
    ensures forall i: Instance :: !Carries(At(s, t), i)
  {
  }

  lemma SameSignals(s: State, s': State, t: Task)
    requires SignalsHeld(s) && s'.reg.convs == s.reg.convs && forall i: Instance :: !Carries(At(s, t), i)
    requires forall u: Task :: u != t ==> At(s', u) == At(s, u)
    ensures SignalsHeld(s')
  {
  }

  lemma AbandonSignals(s: State, t: Task, b: AbandonStep)
    requires Cells(s.reg) && Knows(s.reg, t, At(s, t)) && SignalsHeld(s) && CanAbandon(s, t, b)
    ensures SignalsHeld(DoAbandon(s, t, b))
  {
  }

  lemma CallSignals(s: State, t: Task, c: CallStep)
    requires Cells(s.reg) && Knows(s.reg, t, At(s, t)) && SignalsHeld(s) && CanCall(s, t, c)
    ensures SignalsHeld(DoCall(s, t, c))
  {
    if c.CallSlot? {
      SlotSignals(s, t, c.leave);
    } else if c.PollFlush? {
      FlushSignals(s, t, c.ok);
    } else {
      assert DoCall(s, t, c).reg == s.reg;
      SameSignals(s, DoCall(s, t, c), t);
    }
  }

  lemma SlotSignals(s: State, t: Task, leave: bool)
    requires SignalsHeld(s) && CanCall(s, t, CallSlot(leave))
    ensures SignalsHeld(DoCall(s, t, CallSlot(leave)))
  {
  }

  lemma FlushSignals(s: State, t: Task, ok: bool)
    requires Knows(s.reg, t, At(s, t)) && SignalsHeld(s) && CanCall(s, t, PollFlush(ok))
    ensures SignalsHeld(DoCall(s, t, PollFlush(ok)))
  {
  }

  lemma LeaveSignals(s: State, t: Task, l: LeaveStep)
    requires Cells(s.reg) && Knows(s.reg, t, At(s, t)) && SignalsHeld(s) && CanLeave(s, t, l)
    ensures SignalsHeld(DoLeave(s, t, l))
  {
    if l.LeaveRemove? {
      LeaveFindsIt(s.reg, t, At(s, t));
    }
  }

  // ── The log ─────────────────────────────────────────────────────────────

  lemma LoggedLiveOne(log: seq<Lifecycle>, ev: Lifecycle)
    ensures LoggedLive(log + [ev]) == ApplyLifecycle(LoggedLive(log), ev)
  {
    assert (log + [ev])[..|log|] == log;
  }

  lemma AlternatesOne(log: seq<Lifecycle>, ev: Lifecycle)
    requires Alternates(log)
    requires ev.Created? <==> ev.id !in LoggedLive(log)
    ensures Alternates(log + [ev])
  {
    var longer := log + [ev];
    forall k | 0 <= k < |longer| ensures longer[k].Created? <==> longer[k].id !in LoggedLive(longer[..k]) {
      assert longer[..k] == log[..k];
      assert log[..|log|] == log;
    }
  }

  lemma LoggedFrame(s: State, s': State, t: Task)
    requires Locks(s) && Logged(s) && FullLog(s') == FullLog(s)
    requires forall id: Id :: ListedConv(s'.reg, id) == ListedConv(s.reg, id)
    requires !Behind(At(s, t)) && !Behind(At(s', t)) && Locks(s')
    requires forall u: Task :: u != t ==> At(s', u) == At(s, u)
    ensures Logged(s')
  {
    forall id: Id ensures FillUnlogged(s', id) == FillUnlogged(s, id) {
      assert s.writer.Some? ==> HoldsWrite(At(s, s.writer.value));
      assert s'.writer.Some? ==> HoldsWrite(At(s', s'.writer.value));
      assert s.writer.Some? && s.writer.value != t ==> HoldsWrite(At(s', s.writer.value));
    }
    forall id: Id | EvictUnlogged(s, id) ensures EvictUnlogged(s', id) {
      var u: Task :| At(s, u).FinEmit? && At(s, u).id == id;
      assert At(s', u).FinEmit?;
    }
  }

  /** The task that stood behind the log catches up, and nobody else moves. */
  ghost predicate CatchesUp(s: State, s': State, t: Task, ev: Lifecycle) {
    && Behind(At(s, t)) && At(s, t).id == ev.id && !Behind(At(s', t))
    && (At(s, t).Filled? <==> ev.Created?)
    && (ev.Created? <==> ev.id !in LoggedLive(FullLog(s)))
    && (forall u: Task :: u != t ==> At(s', u) == At(s, u))
    && (ev.Created? ==> forall u: Task :: !At(s, u).FinEmit?)
  }

  lemma AppendLeavers(s: State, s': State, t: Task, ev: Lifecycle)
    requires Logged(s) && CatchesUp(s, s', t, ev)
    requires LoggedLive(FullLog(s')) == ApplyLifecycle(LoggedLive(FullLog(s)), ev)
    ensures forall u: Task :: At(s', u).FinEmit? ==> At(s', u).id in LoggedLive(FullLog(s'))
  {
    forall u: Task | At(s', u).FinEmit? ensures At(s', u).id in LoggedLive(FullLog(s')) {
      assert u != t && At(s, u).FinEmit? && At(s, t).FinEmit?;
      assert At(s, u).id != ev.id;
    }
  }

  lemma AppendEvicted(s: State, s': State, t: Task, ev: Lifecycle, id: Id)
    requires CatchesUp(s, s', t, ev) && id != ev.id && EvictUnlogged(s, id)
    ensures EvictUnlogged(s', id)
  {
    var u: Task :| At(s, u).FinEmit? && At(s, u).id == id;
    assert At(s', u).FinEmit?;
  }

  lemma AppendListed(s: State, s': State, t: Task, ev: Lifecycle, id: Id)
    requires Logged(s) && CatchesUp(s, s', t, ev)
    requires ListedConv(s.reg, ev.id).Some? <==> ev.Created?
    requires ListedConv(s'.reg, id) == ListedConv(s.reg, id)
    requires FillUnlogged(s', id) <==> FillUnlogged(s, id) && id != ev.id
    requires LoggedLive(FullLog(s')) == ApplyLifecycle(LoggedLive(FullLog(s)), ev)
    ensures ListedConv(s'.reg, id).Some? ==> (id in LoggedLive(FullLog(s')) <==> !FillUnlogged(s', id))
    ensures id in LoggedLive(FullLog(s')) && ListedConv(s'.reg, id).None? ==> EvictUnlogged(s', id)
  {
    if id != ev.id && EvictUnlogged(s, id) {
      AppendEvicted(s, s', t, ev, id);
    }
  }

  lemma LoggedAppend(s: State, s': State, t: Task, ev: Lifecycle)
    requires Logged(s) && CatchesUp(s, s', t, ev)
    requires ListedConv(s.reg, ev.id).Some? <==> ev.Created?
    requires FullLog(s') == FullLog(s) + [ev]
    requires forall id: Id :: ListedConv(s'.reg, id) == ListedConv(s.reg, id)
    requires forall id: Id :: FillUnlogged(s', id) <==> FillUnlogged(s, id) && id != ev.id
    ensures Logged(s')
  {
    LoggedLiveOne(FullLog(s), ev);
    AlternatesOne(FullLog(s), ev);
    AppendLeavers(s, s', t, ev);
    forall id: Id
      ensures ListedConv(s'.reg, id).Some? ==> (id in LoggedLive(FullLog(s')) <==> !FillUnlogged(s', id))
      ensures id in LoggedLive(FullLog(s')) && ListedConv(s'.reg, id).None? ==> EvictUnlogged(s', id)
    {
      AppendListed(s, s', t, ev, id);
    }
  }

  lemma LoggedEvicted(s: State, s': State, t: Task, id: Id)
    requires Logged(s) && FullLog(s') == FullLog(s) && s.writer.None? && s'.writer.None?
    requires ListedConv(s.reg, id).Some? && ListedConv(s'.reg, id).None?
    requires At(s', t).FinEmit? && At(s', t).id == id && !At(s, t).FinEmit?
    requires forall u: Task :: u != t ==> At(s', u) == At(s, u)
    requires forall u: Task :: At(s, u).FinEmit? ==> At(s, u).id != id
    requires forall other: Id :: other != id ==> ListedConv(s'.reg, other) == ListedConv(s.reg, other)
    ensures Logged(s')
  {
    forall other: Id | EvictUnlogged(s, other) ensures EvictUnlogged(s', other) {
      var u: Task :| At(s, u).FinEmit? && At(s, u).id == other;
      assert At(s', u).FinEmit?;
    }
    assert EvictUnlogged(s', id);
  }

  lemma FillLogged(s: State, t: Task)
    requires Locks(s) && Cells(s.reg) && Tasks(s) && Logged(s) && CanWrite(s, t, Fill) && Locks(DoWrite(s, t, Fill))
    ensures Logged(DoWrite(s, t, Fill))
  {
    var p := At(s, t);
    var s' := DoWrite(s, t, Fill);
    assert Knows(s.reg, t, p);
    if s.reg.sh.cells[p.e].slot.Pending? {
      CellsFill(s.reg, p.id, p.e, p.i);
      forall id: Id | id != p.id ensures ListedConv(s'.reg, id) == ListedConv(s.reg, id) {
      }
      WriterAlone(s, t);
      assert forall id: Id :: !EvictUnlogged(s, id);
      assert FillUnlogged(s', p.id);
    } else {
      LoggedFrame(s, s', t);
    }
  }

  lemma CreatedLogged(s: State, t: Task)
    requires Locks(s) && Cells(s.reg) && Tasks(s) && Logged(s) && CanWrite(s, t, EmitCreated)
    ensures Logged(DoWrite(s, t, EmitCreated))
  {
    var id := At(s, t).id;
    var s' := DoWrite(s, t, EmitCreated);
    assert Knows(s.reg, t, At(s, t));
    WriterAlone(s, t);
    assert FillUnlogged(s, id);
    assert FullLog(s') == FullLog(s) + [Created(id)];
    SameListed(s.reg, s'.reg);
    LoggedAppend(s, s', t, Created(id));
  }

  lemma RemoveLogged(s: State, t: Task)
    requires Locks(s) && Cells(s.reg) && Tasks(s) && Logged(s) && CanLeave(s, t, LeaveRemove)
    ensures Logged(DoLeave(s, t, LeaveRemove))
  {
    var p := At(s, t);
    var s' := DoLeave(s, t, LeaveRemove);
    assert Knows(s.reg, t, p);
    LeaveFindsIt(s.reg, t, p);
    CellsEvict(s.reg, p.id);
    OthersListed(s.reg, p.id);
    ReaderNoWriter(s, t);
    NotLeft(s, p.id);
    LoggedEvicted(s, s', t, p.id);
  }

  /** An id with a live conversation is not one whose leave is still to be logged. */
  lemma NotLeft(s: State, id: Id)
    requires Tasks(s) && ListedConv(s.reg, id).Some?
    ensures forall u: Task :: At(s, u).FinEmit? ==> At(s, u).id != id
  {
    forall u: Task | At(s, u).FinEmit? ensures At(s, u).id != id {
      assert Knows(s.reg, u, At(s, u));
    }
  }

  lemma RemovedLogged(s: State, t: Task)
    requires Locks(s) && Cells(s.reg) && Tasks(s) && Logged(s) && CanLeave(s, t, LeaveEmit)
    ensures Logged(DoLeave(s, t, LeaveEmit))
  {
    var id := At(s, t).id;
    var s' := DoLeave(s, t, LeaveEmit);
    assert Knows(s.reg, t, At(s, t));
    assert FullLog(s') == FullLog(s) + [Removed(id)];
    SameListed(s.reg, s'.reg);
    ReaderNoWriter(s, t);
    LoggedAppend(s, s', t, Removed(id));
  }

  lemma WriteLogged(s: State, t: Task, w: WriteStep)
    requires Locks(s) && Cells(s.reg) && Tasks(s) && Logged(s) && CanWrite(s, t, w) && Locks(DoWrite(s, t, w))
    ensures Logged(DoWrite(s, t, w))
  {
    var s' := DoWrite(s, t, w);
    match w {
      case Fill => FillLogged(s, t);
      case EmitCreated => CreatedLogged(s, t);
      case Build => SameListed(s.reg, s'.reg); LoggedFrame(s, s', t);
      case _ => LoggedFrame(s, s', t);
    }
  }

  lemma JoinLogged(s: State, t: Task, j: JoinStep)
    requires Locks(s) && Cells(s.reg) && Tasks(s) && Logged(s) && CanJoin(s, t, j) && Locks(DoJoin(s, t, j))
    ensures Logged(DoJoin(s, t, j))
  {
    JoinRest(s, t, j);
    JoinListed(s, t, j);
    LoggedFrame(s, DoJoin(s, t, j), t);
  }

  lemma JoinListed(s: State, t: Task, j: JoinStep)
    requires Cells(s.reg) && CanJoin(s, t, j)
    ensures forall id: Id :: ListedConv(DoJoin(s, t, j).reg, id) == ListedConv(s.reg, id)
  {
  }

  lemma AbandonLogged(s: State, t: Task, b: AbandonStep)
    requires Locks(s) && Cells(s.reg) && Tasks(s) && Logged(s) && CanAbandon(s, t, b) && Locks(DoAbandon(s, t, b))
    ensures Logged(DoAbandon(s, t, b))
  {
    assert Knows(s.reg, t, At(s, t));
    LoggedFrame(s, DoAbandon(s, t, b), t);
  }

  /** A call into a conversation changes nothing of the registry but a phase. */
  lemma CallRest(s: State, t: Task, c: CallStep)
    requires CanCall(s, t, c)
    ensures var s' := DoCall(s, t, c);
            && s'.reg.sh == s.reg.sh && s'.drained == s.drained
            && s'.delivered == s.delivered && s'.pump == s.pump && s'.fanouts == s.fanouts
            && |s'.reg.convs| == |s.reg.convs|
            && !Behind(At(s, t)) && !Behind(At(s', t))
    ensures forall u: Task :: u != t ==> At(DoCall(s, t, c), u) == At(s, u)
    ensures forall i :: 0 <= i < |s.reg.convs| ==>
              DoCall(s, t, c).reg.convs[i] == s.reg.convs[i].(phase := DoCall(s, t, c).reg.convs[i].phase)
  {
  }

  lemma CallLogged(s: State, t: Task, c: CallStep)
    requires Locks(s) && Cells(s.reg) && Tasks(s) && Logged(s) && CanCall(s, t, c) && Locks(DoCall(s, t, c))
    ensures Logged(DoCall(s, t, c))
  {
    var s' := DoCall(s, t, c);
    CallRest(s, t, c);
    SameListed(s.reg, s'.reg);
    LoggedFrame(s, s', t);
  }

  lemma LeaveLogged(s: State, t: Task, l: LeaveStep)
    requires Locks(s) && Cells(s.reg) && Tasks(s) && Logged(s) && CanLeave(s, t, l) && Locks(DoLeave(s, t, l))
    ensures Logged(DoLeave(s, t, l))
  {
    match l {
      case LeaveAcquire => LoggedFrame(s, DoLeave(s, t, l), t);
      case LeaveRemove => RemoveLogged(s, t);
      case LeaveEmit => RemovedLogged(s, t);
    }
  }

  // ── Deliveries ──────────────────────────────────────────────────────────

  lemma DeliveredOne(d: seq<Delivery>, x: Delivery, i: Instance)
    ensures DeliveredOf(d + [x], i) == DeliveredOf(d, i) + (if x.i == i then [x.ev] else [])
  {
    assert (d + [x])[..|d|] == d;
  }

  lemma {:induction false} NothingDelivered(d: seq<Delivery>, i: Instance)
    requires forall k :: 0 <= k < |d| ==> d[k].i != i
    ensures DeliveredOf(d, i) == []
  {
    if d != [] {
      NothingDelivered(d[..|d| - 1], i);
    }
  }

  /** A step that neither drains nor delivers, and lets nothing the pump looked at change. */
  lemma HandedFrame(s: State, s': State)
    requires Handed(s) && s'.delivered == s.delivered && s'.pump == s.pump
    requires |s.reg.convs| == |s'.reg.convs| && |s.reg.sh.cells| <= |s'.reg.sh.cells|
    requires forall i :: 0 <= i < |s.reg.convs| ==>
      s'.reg.convs[i].id == s.reg.convs[i].id && s'.reg.convs[i].taken == s.reg.convs[i].taken
      && s.reg.convs[i].events <= s'.reg.convs[i].events
      && (s'.reg.convs[i].phase.Building? ==> s.reg.convs[i].phase.Building?)
    requires forall e :: 0 <= e < |s.reg.sh.cells| ==> s'.reg.sh.cells[e] == s.reg.sh.cells[e]
    ensures Handed(s')
  {
  }

  lemma BuildHanded(s: State, t: Task)
    requires Handed(s) && CanWrite(s, t, Build)
    ensures Handed(DoWrite(s, t, Build))
  {
    NothingDelivered(s.delivered, |s.reg.convs|);
  }

  /** The conversation just installed is newer than everything delivered. */
  lemma FillHanded(s: State, t: Task)
    requires Cells(s.reg) && Knows(s.reg, t, At(s, t)) && Handed(s) && CanWrite(s, t, Fill)
    ensures Handed(DoWrite(s, t, Fill))
  {
    var s' := DoWrite(s, t, Fill);
    assert s'.delivered == s.delivered && s'.pump == s.pump;
    forall k | 0 <= k < |s.delivered| ensures Installed(s'.reg, s.delivered[k].i, s.delivered[k].id) {
      assert Installed(s.reg, s.delivered[k].i, s.delivered[k].id);
    }
    forall i | 0 <= i < |s.reg.convs| ensures DeliveredPrefix(s'.reg.convs[i], s'.delivered, s'.pump, i) {
      assert DeliveredPrefix(s.reg.convs[i], s.delivered, s.pump, i);
    }
  }

  lemma WriteHanded(s: State, t: Task, w: WriteStep)
    requires Cells(s.reg) && Knows(s.reg, t, At(s, t)) && Handed(s) && Replayed(s) && CanWrite(s, t, w)
    ensures Handed(DoWrite(s, t, w)) && Replayed(DoWrite(s, t, w))
  {
    WriteKeepsPump(s, t, w);
    ReplayedFrame(s, DoWrite(s, t, w));
    match w {
      case Build => BuildHanded(s, t);
      case Fill => FillHanded(s, t);
      case _ =>
        WriteRest(s, t, w);
        HandedFrame(s, DoWrite(s, t, w));
    }
  }

  lemma WriteKeepsPump(s: State, t: Task, w: WriteStep)
    requires CanWrite(s, t, w)
    ensures var s' := DoWrite(s, t, w);
            && s'.drained == s.drained && s'.delivered == s.delivered
            && s'.pump == s.pump && s'.fanouts == s.fanouts
  {
  }

  /** Between building and filling a writer at most adds a cell. */
  lemma WriteRest(s: State, t: Task, w: WriteStep)
    requires CanWrite(s, t, w) && !w.Build? && !w.Fill?
    ensures DoWrite(s, t, w).reg.convs == s.reg.convs && |s.reg.sh.cells| <= |DoWrite(s, t, w).reg.sh.cells|
    ensures forall e :: 0 <= e < |s.reg.sh.cells| ==> DoWrite(s, t, w).reg.sh.cells[e] == s.reg.sh.cells[e]
  {
  }

  lemma JoinHanded(s: State, t: Task, j: JoinStep)
    requires Cells(s.reg) && Knows(s.reg, t, At(s, t)) && Handed(s) && Replayed(s) && CanJoin(s, t, j)
    ensures Handed(DoJoin(s, t, j)) && Replayed(DoJoin(s, t, j))
  {
    JoinRest(s, t, j);
    HandedFrame(s, DoJoin(s, t, j));
  }

  lemma AbandonHanded(s: State, t: Task, b: AbandonStep)
    requires Cells(s.reg) && Knows(s.reg, t, At(s, t)) && Handed(s) && Replayed(s) && CanAbandon(s, t, b)
    ensures Handed(DoAbandon(s, t, b)) && Replayed(DoAbandon(s, t, b))
  {
    HandedFrame(s, DoAbandon(s, t, b));
  }

  lemma CallHanded(s: State, t: Task, c: CallStep)
    requires Cells(s.reg) && Knows(s.reg, t, At(s, t)) && Handed(s) && Replayed(s) && CanCall(s, t, c)
    ensures Handed(DoCall(s, t, c)) && Replayed(DoCall(s, t, c))
  {
    assert Knows(s.reg, t, At(s, t));
    CallRest(s, t, c);
    HandedFrame(s, DoCall(s, t, c));
  }

  lemma LeaveHanded(s: State, t: Task, l: LeaveStep)
    requires Cells(s.reg) && Knows(s.reg, t, At(s, t)) && Handed(s) && Replayed(s) && CanLeave(s, t, l)
    ensures Handed(DoLeave(s, t, l)) && Replayed(DoLeave(s, t, l))
  {
    LeaveRest(s, t, l);
    HandedFrame(s, DoLeave(s, t, l));
    ReplayedFrame(s, DoLeave(s, t, l));
  }

  /** A leave evicts and logs: nothing the pump holds or has done changes. */
  lemma LeaveRest(s: State, t: Task, l: LeaveStep)
    requires Cells(s.reg) && Knows(s.reg, t, At(s, t)) && CanLeave(s, t, l)
    ensures var s' := DoLeave(s, t, l);
            && s'.drained == s.drained && s'.delivered == s.delivered && s'.pump == s.pump && s'.fanouts == s.fanouts
            && s'.reg.sh.cells == s.reg.sh.cells && |s'.reg.convs| == |s.reg.convs|
    ensures forall i :: 0 <= i < |s.reg.convs| ==>
              && DoLeave(s, t, l).reg.convs[i] == s.reg.convs[i].(phase := DoLeave(s, t, l).reg.convs[i].phase)
              && (DoLeave(s, t, l).reg.convs[i].phase.Building? ==> s.reg.convs[i].phase.Building?)
  {
  }

  lemma ReplayedFrame(s: State, s': State)
    requires Replayed(s) && s'.drained == s.drained && s'.pump == s.pump && s'.fanouts == s.fanouts
    ensures Replayed(s')
  {
  }

  lemma LookHanded(s: State, id: Id)
    requires Cells(s.reg) && Handed(s) && CanPump(s, Look(id))
    ensures Handed(DoPump(s, Look(id)))
  {
    if Lists(s.reg, id) && s.reg.sh.cells[s.reg.sh.conversations[id]].slot.Live? {
      var e := s.reg.sh.conversations[id];
      assert Holds(s.reg, e, s.reg.sh.cells[e].slot.instance);
      assert ListedConv(s.reg, id) == Some(s.reg.sh.cells[e].slot.instance);
    }
  }

  lemma TakenPrefix(c: Conv, d: seq<Delivery>, p: Pump, q: Pump, i: Instance)
    requires DeliveredPrefix(c, d, p, i) && InHand(p, i) == [] && q.Handing? && q.i == i
    requires q.batch == c.events[c.taken..]
    ensures DeliveredPrefix(c.(taken := |c.events|), d, q, i)
  {
    assert c.events[..c.taken] + c.events[c.taken..] == c.events[..|c.events|];
    assert DeliveredOf(d, i) + [] == DeliveredOf(d, i);
  }

  lemma TakeHanded(s: State)
    requires Cells(s.reg) && Handed(s) && CanPump(s, Take)
    ensures Handed(DoPump(s, Take))
  {
    var slot := s.reg.sh.cells[s.pump.e].slot;
    if slot.Live? {
      var s' := DoPump(s, Take);
      assert Holds(s.reg, s.pump.e, slot.instance);
      TakenPrefix(s.reg.convs[slot.instance], s.delivered, s.pump, s'.pump, slot.instance);
      forall k | 0 <= k < |s.delivered| ensures Installed(s'.reg, s.delivered[k].i, s.delivered[k].id) {
        assert Installed(s.reg, s.delivered[k].i, s.delivered[k].id);
      }
    }
  }

  lemma ShiftOne<T>(a: seq<T>, b: seq<T>)
    requires b != []
    ensures (a + [b[0]]) + b[1..] == a + b
  {
  }

  lemma HandPrefix(c: Conv, d: seq<Delivery>, p: Pump, i: Instance)
    requires DeliveredPrefix(c, d, p, i) && p.Handing? && p.batch != []
    ensures DeliveredPrefix(c, d + [Delivery(p.id, p.i, p.batch[0])], Handing(p.id, p.i, p.batch[1..], p.todo), i)
  {
    DeliveredOne(d, Delivery(p.id, p.i, p.batch[0]), i);
    if p.i == i {
      ShiftOne(DeliveredOf(d, i), p.batch);
    }
  }

  lemma HandOrder(d: seq<Delivery>, x: Delivery)
    requires InInstanceOrder(d) && NoneNewer(d, x.id, x.i)
    ensures InInstanceOrder(d + [x]) && NoneNewer(d + [x], x.id, x.i)
  {
  }

  lemma HandHanded(s: State)
    requires Handed(s) && CanPump(s, Hand)
    ensures Handed(DoPump(s, Hand))
  {
    forall i | 0 <= i < |s.reg.convs|
      ensures DeliveredPrefix(s.reg.convs[i], DoPump(s, Hand).delivered, DoPump(s, Hand).pump, i)
    {
      HandPrefix(s.reg.convs[i], s.delivered, s.pump, i);
    }
    HandOrder(s.delivered, Delivery(s.pump.id, s.pump.i, s.pump.batch[0]));
  }

  lemma PumpHanded(s: State, p: PumpStep)
    requires Cells(s.reg) && Handed(s) && CanPump(s, p)
    ensures Handed(DoPump(s, p))
  {
    match p {
      case Look(id) => LookHanded(s, id);
      case Take => TakeHanded(s);
      case Hand => HandHanded(s);
      case _ =>
    }
  }

  // ── The pump against the log ────────────────────────────────────────────

  lemma DrainReplayed(s: State)
    requires Replayed(s) && CanPump(s, Drain)
    ensures Replayed(DoPump(s, Drain)) && FullLog(DoPump(s, Drain)) == FullLog(s)
  {
    assert (s.drained + s.reg.sh.lifecycle)[..|s.drained|] == s.drained;
    assert s.drained[..|s.drained|] == s.drained;
  }

  lemma ReplayReplayed(s: State)
    requires Replayed(s) && CanPump(s, Replay)
    ensures Replayed(DoPump(s, Replay)) && FullLog(DoPump(s, Replay)) == FullLog(s)
  {
    var done := |s.drained| - |s.pump.rest|;
    assert s.drained[..done + 1][..done] == s.drained[..done];
    assert s.drained[done] == s.drained[done..][0] == s.pump.rest[0];
    assert s.drained[done + 1..] == s.drained[done..][1..];
  }

  lemma PumpReplayed(s: State, p: PumpStep)
    requires Replayed(s) && CanPump(s, p)
    ensures Replayed(DoPump(s, p))
    ensures FullLog(DoPump(s, p)) == FullLog(s)
  {
    if p.Drain? {
      DrainReplayed(s);
    } else if p.Replay? {
      ReplayReplayed(s);
    } else {
      assert Unapplied(DoPump(s, p).pump) == Unapplied(s.pump);
    }
  }

  /** What a step of the pump leaves of the registry: only drained buffers change. */
  lemma PumpRest(s: State, p: PumpStep)
    requires Cells(s.reg) && Tasks(s) && CanPump(s, p)
    ensures Cells(DoPump(s, p).reg) && Tasks(DoPump(s, p))
    ensures forall id: Id :: ListedConv(DoPump(s, p).reg, id) == ListedConv(s.reg, id)
  {
    var s' := DoPump(s, p);
    if p.Drain? {
      CellsLog(s.reg, []);
      forall u: Task ensures Knows(s'.reg, u, At(s', u)) {
        StableLog(s.reg, [], u, At(s, u));
      }
    } else if p.Take? && s.reg.sh.cells[s.pump.e].slot.Live? {
      var i := s.reg.sh.cells[s.pump.e].slot.instance;
      CellsEvents(s.reg, s'.reg.convs[i], i);
      forall u: Task ensures Knows(s'.reg, u, At(s', u)) {
        StableEvents(s.reg, s'.reg.convs[i], i, u, At(s, u));
      }
    }
    assert s'.pc == s.pc;
    forall u: Task ensures Knows(s'.reg, u, At(s', u)) {
      assert Knows(s.reg, u, At(s, u));
    }
    SameListed(s.reg, s'.reg);
  }

  /** A step outside the tasks leaves what depends on their program counters as it was. */
  lemma QuietKeeps(s: State, s': State)
    requires Locks(s) && PendingOwned(s) && SignalsHeld(s) && Logged(s)
    requires s'.pc == s.pc && s'.writer == s.writer && s'.readers == s.readers && s'.registryLock == s.registryLock
    requires s'.failed == s.failed && s'.reg.owner == s.reg.owner
    requires s'.reg.sh.conversations == s.reg.sh.conversations && s'.reg.sh.cells == s.reg.sh.cells
    requires |s'.reg.convs| == |s.reg.convs|
    requires forall i :: 0 <= i < |s.reg.convs| ==> s'.reg.convs[i].phase == s.reg.convs[i].phase
    requires FullLog(s') == FullLog(s)
    requires forall id: Id :: ListedConv(s'.reg, id) == ListedConv(s.reg, id)
    ensures Locks(s') && PendingOwned(s') && SignalsHeld(s') && Logged(s')
  {
    assert forall t: Task :: At(s', t) == At(s, t);
    forall id: Id | EvictUnlogged(s, id) ensures EvictUnlogged(s', id) {
      var u: Task :| At(s, u).FinEmit? && At(s, u).id == id;
      assert At(s', u).FinEmit?;
    }
  }

  // ── All together ────────────────────────────────────────────────────────

  lemma InvInit()
    ensures Inv(INIT)
  {
  }

  lemma PumpKeeps(s: State, p: PumpStep)
    requires Inv(s) && Enabled(OuterLock, s, Pump(p))
    ensures Inv(DoPump(s, p))
  {
    PumpRest(s, p);
    PumpReplayed(s, p);
    PumpHanded(s, p);
    PumpQuiet(s, p);
    QuietKeeps(s, DoPump(s, p));
  }

  /** The pump moves no task and no lock, and leaves every phase, cell and entry as it was. */
  lemma PumpQuiet(s: State, p: PumpStep)
    requires CanPump(s, p)
    ensures var s' := DoPump(s, p);
            && s'.pc == s.pc && s'.writer == s.writer && s'.readers == s.readers && s'.registryLock == s.registryLock
            && s'.failed == s.failed && s'.reg.owner == s.reg.owner
            && s'.reg.sh.conversations == s.reg.sh.conversations && s'.reg.sh.cells == s.reg.sh.cells
            && |s'.reg.convs| == |s.reg.convs|
    ensures forall i :: 0 <= i < |s.reg.convs| ==> DoPump(s, p).reg.convs[i].phase == s.reg.convs[i].phase
  {
  }

  lemma EventKeeps(s: State, i: Instance, ev: Event)
    requires Inv(s) && i < |s.reg.convs|
    ensures Inv(Apply(s, Event(i, ev)))
  {
    var s' := Apply(s, Event(i, ev));
    CellsEvents(s.reg, s'.reg.convs[i], i);
    EventTasks(s, i, ev);
    SameListed(s.reg, s'.reg);
    HandedFrame(s, s');
    ReplayedFrame(s, s');
    QuietKeeps(s, s');
  }

  lemma EventTasks(s: State, i: Instance, ev: Event)
    requires Tasks(s) && i < |s.reg.convs|
    ensures Tasks(Apply(s, Event(i, ev)))
  {
    var s' := Apply(s, Event(i, ev));
    forall u: Task ensures Knows(s'.reg, u, At(s', u)) {
      assert Knows(s.reg, u, At(s, u));
      StableEvents(s.reg, s'.reg.convs[i], i, u, At(s, u));
    }
  }

  lemma WriteKeeps(s: State, t: Task, w: WriteStep)
    requires Inv(s) && Enabled(OuterLock, s, Write(t, w))
    ensures Inv(DoWrite(s, t, w))
  {
    assert Knows(s.reg, t, At(s, t));
    WriteLocks(s, t, w);
    WriteCells(s, t, w);
    WriteTasks(s, t, w);
    WritePending(s, t, w);
    WriteSignals(s, t, w);
    WriteLogged(s, t, w);
    WriteHanded(s, t, w);
  }

  lemma JoinKeeps(s: State, t: Task, j: JoinStep)
    requires Inv(s) && Enabled(OuterLock, s, Join(t, j))
    ensures Inv(DoJoin(s, t, j))
  {
    assert Knows(s.reg, t, At(s, t));
    JoinLocks(s, t, j);
    JoinCells(s, t, j);
    JoinTasks(s, t, j);
    JoinPending(s, t, j);
    JoinSignals(s, t, j);
    JoinLogged(s, t, j);
    JoinHanded(s, t, j);
  }

  lemma AbandonKeeps(s: State, t: Task, b: AbandonStep)
    requires Inv(s) && Enabled(OuterLock, s, Abandon(t, b))
    ensures Inv(DoAbandon(s, t, b))
  {
    assert Knows(s.reg, t, At(s, t));
    AbandonLocks(s, t, b);
    AbandonCells(s, t, b);
    AbandonTasks(s, t, b);
    AbandonPending(s, t, b);
    AbandonSignals(s, t, b);
    AbandonLogged(s, t, b);
    AbandonHanded(s, t, b);
  }

  lemma CallKeeps(s: State, t: Task, c: CallStep)
    requires Inv(s) && Enabled(OuterLock, s, Call(t, c))
    ensures Inv(DoCall(s, t, c))
  {
    assert Knows(s.reg, t, At(s, t));
    CallLocks(s, t, c);
    CallCells(s, t, c);
    CallTasks(s, t, c);
    CallPending(s, t, c);
    CallSignals(s, t, c);
    CallLogged(s, t, c);
    CallHanded(s, t, c);
  }

  lemma LeaveKeeps(s: State, t: Task, l: LeaveStep)
    requires Inv(s) && Enabled(OuterLock, s, Leave(t, l))
    ensures Inv(DoLeave(s, t, l))
  {
    assert Knows(s.reg, t, At(s, t));
    LeaveLocks(s, t, l);
    LeaveCells(s, t, l);
    LeaveTasks(s, t, l);
    LeavePending(s, t, l);
    LeaveSignals(s, t, l);
    LeaveLogged(s, t, l);
    LeaveHanded(s, t, l);
  }

  lemma StepKeeps(s: State, a: Action)
    requires Inv(s) && Enabled(OuterLock, s, a)
    ensures Inv(Apply(s, a))
  {
    match a {
      case Event(i, ev) => EventKeeps(s, i, ev);
      case Write(t, w) => WriteKeeps(s, t, w);
      case Join(t, j) => JoinKeeps(s, t, j);
      case Abandon(t, b) => AbandonKeeps(s, t, b);
      case Call(t, c) => CallKeeps(s, t, c);
      case Leave(t, l) => LeaveKeeps(s, t, l);
      case Pump(p) => PumpKeeps(s, p);
    }
  }

  lemma {:induction false} RunKeeps(s: State, actions: seq<Action>)
    requires Inv(s) && Exec(OuterLock, s, actions).Some?
    ensures Inv(Exec(OuterLock, s, actions).value)
  {
    if actions != [] {
      var last := |actions| - 1;
      RunKeeps(s, actions[..last]);
      StepKeeps(Exec(OuterLock, s, actions[..last]).value, actions[last]);
    }
  }

  /** The invariant holds in every state of every run. */
  lemma ReachableInv(s: State)
    requires Reachable(OuterLock, s)
    ensures Inv(s)
  {
    var actions :| Exec(OuterLock, INIT, actions) == Some(s);
    InvInit();
    RunKeeps(INIT, actions);
  }
}
