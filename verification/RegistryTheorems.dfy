/** What holds of every run of the registry protocol under the outer lock. */
module RegistryTheorems {
  import opened Wrappers
  import opened Registry
  import opened RegistryProtocol
  import opened RegistryInvariant
  import opened RegistrySteps
  import opened RegistryRuns

  // ── Fanouts and the lifecycle log ───────────────────────────────────────

  function LiveIds(s: State): set<Id> {
    set id | id in s.reg.sh.conversations && ListedConv(s.reg, id).Some?
  }

  /** Filled by the writer, `Created` not emitted yet. */
  function UnloggedFill(s: State): set<Id> {
    if s.writer.Some? && At(s, s.writer.value).Filled? then {At(s, s.writer.value).id} else {}
  }

  /** Evicted by a leave, `Removed` not emitted yet. */
  function UnloggedLeaves(s: State): set<Id> {
    set t | t in s.pc && s.pc[t].FinEmit? :: s.pc[t].id
  }

  /** What the pump's loop makes of its fanouts when it applies `log` to them. */
  function ApplyAll(active: set<Id>, log: seq<Lifecycle>): set<Id> {
    if log == [] then active else ApplyLifecycle(ApplyAll(active, log[..|log| - 1]), log[|log| - 1])
  }

  lemma {:induction false} ApplyAllSplit(a: seq<Lifecycle>, b: seq<Lifecycle>)
    ensures ApplyAll(LoggedLive(a), b) == LoggedLive(a + b)
  {
    if b == [] {
      assert a + b == a;
    } else {
      ApplyAllSplit(a, b[..|b| - 1]);
      assert (a + b)[..|a + b| - 1] == a + b[..|b| - 1];
    }
  }

  lemma UnloggedSets(s: State, id: Id)
    ensures id in UnloggedFill(s) <==> FillUnlogged(s, id)
    ensures id in UnloggedLeaves(s) <==> EvictUnlogged(s, id)
  {
    if EvictUnlogged(s, id) {
      var t: Task :| At(s, t).FinEmit? && At(s, t).id == id;
      assert t in s.pc && s.pc[t].FinEmit?;
    }
    if id in UnloggedLeaves(s) {
      var t :| t in s.pc && s.pc[t].FinEmit? && s.pc[t].id == id;
      assert At(s, t).FinEmit?;
    }
  }

  lemma LogIsLive(s: State)
    requires Logged(s) && Tasks(s)
    ensures LoggedLive(FullLog(s)) == LiveIds(s) - UnloggedFill(s) + UnloggedLeaves(s)
  {
    forall t: Task | At(s, t).FinEmit? ensures ListedConv(s.reg, At(s, t).id).None? {
      assert Knows(s.reg, t, At(s, t));
    }
    forall id: Id ensures id in LoggedLive(FullLog(s)) <==> id in LiveIds(s) - UnloggedFill(s) + UnloggedLeaves(s) {
      UnloggedSets(s, id);
    }
  }

  lemma AppliedLog(s: State)
    requires RegistryInvariant.Replayed(s)
    ensures ApplyAll(s.fanouts, Unapplied(s.pump) + s.reg.sh.lifecycle) == LoggedLive(FullLog(s))
  {
    var done := |s.drained| - |Unapplied(s.pump)|;
    ApplyAllSplit(s.drained[..done], Unapplied(s.pump) + s.reg.sh.lifecycle);
    assert s.drained[..done] + (Unapplied(s.pump) + s.reg.sh.lifecycle) == FullLog(s);
  }

  /** Applying what is drained but unapplied, then what is buffered, gives the live ids. */
  lemma FanoutsFollowRegistry(s: State)
    requires Reachable(OuterLock, s)
    ensures ApplyAll(s.fanouts, Unapplied(s.pump) + s.reg.sh.lifecycle)
            == LiveIds(s) - UnloggedFill(s) + UnloggedLeaves(s)
  {
    ReachableInv(s);
    AppliedLog(s);
    LogIsLive(s);
  }

  /** With nothing left to emit or apply, the pump serves exactly the live conversations. */
  lemma QuietFanouts(s: State)
    requires Reachable(OuterLock, s)
    requires (forall t: Task :: !Behind(At(s, t))) && Unapplied(s.pump) == [] && s.reg.sh.lifecycle == []
    ensures s.fanouts == LiveIds(s)
  {
    FanoutsFollowRegistry(s);
    assert UnloggedLeaves(s) == {} by {
      forall t | t in s.pc ensures !s.pc[t].FinEmit? {
        assert !Behind(At(s, t));
      }
    }
    assert UnloggedFill(s) == {};
    assert Unapplied(s.pump) + s.reg.sh.lifecycle == [];
  }

  /** The part of the log about one id. */
  function About(log: seq<Lifecycle>, id: Id): seq<Lifecycle> {
    if log == [] then []
    else
      var rest := About(log[..|log| - 1], id);
      if log[|log| - 1].id == id then rest + [log[|log| - 1]] else rest
  }

  lemma AlternatesPrefix(log: seq<Lifecycle>)
    requires Alternates(log) && log != []
    ensures Alternates(log[..|log| - 1])
    ensures log[|log| - 1].Created? <==> log[|log| - 1].id !in LoggedLive(log[..|log| - 1])
  {
    var shorter := log[..|log| - 1];
    forall k | 0 <= k < |shorter| ensures shorter[k].Created? <==> shorter[k].id !in LoggedLive(shorter[..k]) {
      assert shorter[..k] == log[..k];
    }
  }

  lemma {:induction false} AboutAlternates(log: seq<Lifecycle>, id: Id)
    requires Alternates(log)
    ensures forall k :: 0 <= k < |About(log, id)| ==> (About(log, id)[k].Created? <==> k % 2 == 0)
    ensures id in LoggedLive(log) <==> |About(log, id)| % 2 == 1
  {
    if log != [] {
      AlternatesPrefix(log);
      AboutAlternates(log[..|log| - 1], id);
    }
  }

  lemma {:induction false} AboutIds(log: seq<Lifecycle>, id: Id)
    ensures forall k :: 0 <= k < |About(log, id)| ==> About(log, id)[k].id == id
  {
    if log != [] {
      AboutIds(log[..|log| - 1], id);
    }
  }

  /** Per id the whole log reads `Created`, `Removed`, `Created`, ... */
  lemma LifecycleAlternates(s: State, id: Id, k: nat)
    requires Reachable(OuterLock, s) && k < |About(FullLog(s), id)|
    ensures About(FullLog(s), id)[k] == if k % 2 == 0 then Created(id) else Removed(id)
  {
    ReachableInv(s);
    AboutAlternates(FullLog(s), id);
    AboutIds(FullLog(s), id);
  }

  // ── Leaving ─────────────────────────────────────────────────────────────

  /**
   The removal of `finalize_self_leave` hits the conversation whose signal the task was given,
   live and listed, although polling and finalizing hold two different guards.
   */
  lemma LeaveEvictsItsConversation(s: State, t: Task)
    requires Reachable(OuterLock, s) && CanLeave(s, t, LeaveRemove)
    ensures var r, r' := s.reg, DoLeave(s, t, LeaveRemove).reg;
            var p := At(s, t);
            && ListedConv(r, p.id) == Some(p.i) && r.convs[p.i].phase == Signalled(t)
            && r'.convs == r.convs[p.i := r.convs[p.i].(phase := Evicted)]
            && r'.sh == r.sh.(conversations := r.sh.conversations - {p.id})
  {
    ReachableInv(s);
    KnowsAt(s, t);
    LeaveEvicts(s, t);
  }

  lemma LeaveEvicts(s: State, t: Task)
    requires Cells(s.reg) && Knows(s.reg, t, At(s, t)) && CanLeave(s, t, LeaveRemove)
    ensures var r, r' := s.reg, DoLeave(s, t, LeaveRemove).reg;
            var p := At(s, t);
            && ListedConv(r, p.id) == Some(p.i) && r.convs[p.i].phase == Signalled(t)
            && r'.convs == r.convs[p.i := r.convs[p.i].(phase := Evicted)]
            && r'.sh == r.sh.(conversations := r.sh.conversations - {p.id})
  {
    LeaveFindsIt(s.reg, t, At(s, t));
  }

  /** An installed conversation is listed until evicted; its signal is with one task, lost or acted on. */
  lemma SignalAccounted(s: State, i: Instance)
    requires Reachable(OuterLock, s) && i < |s.reg.convs| && !s.reg.convs[i].phase.Building?
    ensures var c := s.reg.convs[i];
            && (ListedConv(s.reg, c.id) == Some(i) <==> !c.phase.Evicted?)
            && (c.phase.Signalled? ==> Carries(At(s, c.phase.task), i))
            && (forall t: Task :: Carries(At(s, t), i) ==> c.phase == Signalled(t))
  {
    ReachableInv(s);
    ListedUntilEvicted(s.reg, i);
    CarriersWereTold(s, i);
  }

  lemma CarriersWereTold(s: State, i: Instance)
    requires Tasks(s) && i < |s.reg.convs|
    ensures forall t: Task :: Carries(At(s, t), i) ==> s.reg.convs[i].phase == Signalled(t)
  {
    forall t: Task | Carries(At(s, t), i) ensures s.reg.convs[i].phase == Signalled(t) {
      assert Knows(s.reg, t, At(s, t));
    }
  }

  lemma ListedUntilEvicted(r: Reg, i: Instance)
    requires Cells(r) && i < |r.convs| && !r.convs[i].phase.Building?
    ensures ListedConv(r, r.convs[i].id) == Some(i) <==> !r.convs[i].phase.Evicted?
  {
    var c := r.convs[i];
    assert Installed(r, i, c.id);
    assert Holds(r, c.home, i);
    if ListedConv(r, c.id) == Some(i) {
      assert Holds(r, r.sh.conversations[c.id], i);
    }
  }

  ghost predicate SameListing(r: Reg, r': Reg, id: Id) {
    ListedConv(r', id) == ListedConv(r, id) && Lookup(r'.sh, id) == Lookup(r.sh, id)
  }

  /** The step leaves the live conversation under `id` listed, or it is that conversation's own leave. */
  ghost predicate KeepsListing(s: State, a: Action, id: Id)
    requires Ready(s, a)
  {
    || SameListing(s.reg, Apply(s, a).reg, id)
    || (a.Leave? && a.l.LeaveRemove? && At(s, a.t).id == id && Some(At(s, a.t).i) == ListedConv(s.reg, id))
  }

  /** A live slot keeps its conversation, and its listing ends only with its own leave. */
  lemma LiveSlotStays(s: State, a: Action, id: Id)
    requires Reachable(OuterLock, s) && Enabled(OuterLock, s, a) && ListedConv(s.reg, id).Some?
    ensures || SameListing(s.reg, Apply(s, a).reg, id)
            || (a.Leave? && a.l.LeaveRemove? && At(s, a.t).id == id && Some(At(s, a.t).i) == ListedConv(s.reg, id))
  {
    ReachableInv(s);
    ActionListing(s, a, id);
  }

  lemma ActionListing(s: State, a: Action, id: Id)
    requires Cells(s.reg) && Tasks(s) && Ready(s, a) && ListedConv(s.reg, id).Some?
    ensures KeepsListing(s, a, id)
  {
    match a {
      case Write(t, w) => KnowsAt(s, t); WriteListing(s, t, w, id);
      case Join(t, j) => JoinListing(s, t, j, id);
      case Abandon(t, b) => KnowsAt(s, t); AbandonListing(s, t, b, id);
      case Call(t, c) => CallListing(s, t, c, id);
      case Leave(t, l) => KnowsAt(s, t); LeaveListing(s, t, l, id);
      case Pump(p) => PumpListing(s, p, id);
      case Event(i, ev) => EventListing(s, i, ev, id);
    }
  }

  lemma KnowsAt(s: State, t: Task)
    requires Tasks(s)
    ensures Knows(s.reg, t, At(s, t))
  {
  }

  lemma CallListing(s: State, t: Task, c: CallStep, id: Id)
    requires Cells(s.reg) && CanCall(s, t, c)
    ensures SameListing(s.reg, DoCall(s, t, c).reg, id)
  {
    CallRest(s, t, c);
    SameListed(s.reg, DoCall(s, t, c).reg);
  }

  lemma PumpListing(s: State, p: PumpStep, id: Id)
    requires Cells(s.reg) && Tasks(s) && CanPump(s, p)
    ensures SameListing(s.reg, DoPump(s, p).reg, id)
  {
    PumpRest(s, p);
    assert DoPump(s, p).reg.sh.conversations == s.reg.sh.conversations;
  }

  lemma EventListing(s: State, i: Instance, ev: Event, id: Id)
    requires Cells(s.reg) && i < |s.reg.convs|
    ensures SameListing(s.reg, AddEvent(s.reg, i, ev), id)
  {
    SameListed(s.reg, AddEvent(s.reg, i, ev));
  }

  lemma WriteListing(s: State, t: Task, w: WriteStep, id: Id)
    requires Cells(s.reg) && Knows(s.reg, t, At(s, t)) && CanWrite(s, t, w) && ListedConv(s.reg, id).Some?
    ensures SameListing(s.reg, DoWrite(s, t, w).reg, id)
  {
  }

  lemma JoinListing(s: State, t: Task, j: JoinStep, id: Id)
    requires Cells(s.reg) && CanJoin(s, t, j) && ListedConv(s.reg, id).Some?
    ensures SameListing(s.reg, DoJoin(s, t, j).reg, id)
  {
  }

  lemma AbandonListing(s: State, t: Task, b: AbandonStep, id: Id)
    requires Cells(s.reg) && Knows(s.reg, t, At(s, t)) && CanAbandon(s, t, b) && ListedConv(s.reg, id).Some?
    ensures SameListing(s.reg, DoAbandon(s, t, b).reg, id)
  {
    OthersListed(s.reg, At(s, t).id);
  }

  lemma LeaveListing(s: State, t: Task, l: LeaveStep, id: Id)
    requires Cells(s.reg) && Knows(s.reg, t, At(s, t)) && CanLeave(s, t, l) && ListedConv(s.reg, id).Some?
    ensures || SameListing(s.reg, DoLeave(s, t, l).reg, id)
            || (l.LeaveRemove? && At(s, t).id == id && Some(At(s, t).i) == ListedConv(s.reg, id))
  {
    if l.LeaveRemove? {
      LeaveFindsIt(s.reg, t, At(s, t));
      OthersListed(s.reg, At(s, t).id);
    } else {
      SameListed(s.reg, DoLeave(s, t, l).reg);
    }
  }

  /** A poll whose flush fails loses the signal, and then the conversation is listed for good. */
  lemma {:induction false} LostSignalStrands(s: State, more: seq<Action>, i: Instance)
    requires Reachable(OuterLock, s) && LostAt(s.reg, i) && Exec(OuterLock, s, more).Some?
    ensures var r := Exec(OuterLock, s, more).value.reg;
            LostAt(r, i) && ListedConv(r, r.convs[i].id) == Some(i)
  {
    ReachableInv(s);
    if more != [] {
      var before := Exec(OuterLock, s, more[..|more| - 1]).value;
      LostSignalStrands(s, more[..|more| - 1], i);
      RunKeeps(s, more[..|more| - 1]);
      LostStays(before, more[|more| - 1], i);
    }
    RunKeeps(s, more);
    ListedUntilEvicted(Exec(OuterLock, s, more).value.reg, i);
  }

  ghost predicate LostAt(r: Reg, i: Instance) {
    i < |r.convs| && r.convs[i].phase.Lost?
  }

  lemma LostStays(s: State, a: Action, i: Instance)
    requires Cells(s.reg) && Tasks(s) && Ready(s, a) && LostAt(s.reg, i)
    ensures LostAt(Apply(s, a).reg, i)
  {
    match a {
      case Write(t, w) => assert Knows(s.reg, t, At(s, t)); WriteKeepsLost(s, t, w, i);
      case Call(t, c) => assert Knows(s.reg, t, At(s, t)); CallKeepsLost(s, t, c, i);
      case Abandon(t, b) => assert Knows(s.reg, t, At(s, t)); AbandonKeepsLost(s, t, b, i);
      case Leave(t, l) => assert Knows(s.reg, t, At(s, t)); LeaveKeepsLost(s, t, l, i);
      case _ =>
    }
  }

  lemma WriteKeepsLost(s: State, t: Task, w: WriteStep, i: Instance)
    requires Knows(s.reg, t, At(s, t)) && CanWrite(s, t, w) && LostAt(s.reg, i)
    ensures LostAt(DoWrite(s, t, w).reg, i)
  {
  }

  lemma CallKeepsLost(s: State, t: Task, c: CallStep, i: Instance)
    requires Knows(s.reg, t, At(s, t)) && CanCall(s, t, c) && LostAt(s.reg, i)
    ensures LostAt(DoCall(s, t, c).reg, i)
  {
  }

  lemma AbandonKeepsLost(s: State, t: Task, b: AbandonStep, i: Instance)
    requires Knows(s.reg, t, At(s, t)) && CanAbandon(s, t, b) && LostAt(s.reg, i)
    ensures LostAt(DoAbandon(s, t, b).reg, i)
  {
  }

  lemma LeaveKeepsLost(s: State, t: Task, l: LeaveStep, i: Instance)
    requires Cells(s.reg) && Knows(s.reg, t, At(s, t)) && CanLeave(s, t, l) && LostAt(s.reg, i)
    ensures LostAt(DoLeave(s, t, l).reg, i)
  {
    if l.LeaveRemove? {
      LeaveFindsIt(s.reg, t, At(s, t));
    }
  }

  // ── Installing, joining and abandoning ──────────────────────────────────

  /** An installer about to fill a slot holds the listed one, and an abandoning join a pending one. */
  lemma FillsListedDropsPending(s: State, t: Task)
    requires Reachable(OuterLock, s)
    ensures At(s, t).Entered? ==> Lookup(s.reg.sh, At(s, t).id) == Some(At(s, t).e)
    ensures At(s, t).AbandonRemove? ==>
              Lookup(s.reg.sh, At(s, t).id) == Some(At(s, t).e)
              && At(s, t).e < |s.reg.sh.cells| && s.reg.sh.cells[At(s, t).e].slot.Pending?
  {
    ReachableInv(s);
    KnownEntries(s, t);
  }

  lemma KnownEntries(s: State, t: Task)
    requires Tasks(s)
    ensures At(s, t).Entered? ==> Lookup(s.reg.sh, At(s, t).id) == Some(At(s, t).e)
    ensures At(s, t).AbandonRemove? ==>
              Lookup(s.reg.sh, At(s, t).id) == Some(At(s, t).e)
              && At(s, t).e < |s.reg.sh.cells| && s.reg.sh.cells[At(s, t).e].slot.Pending?
  {
    assert Knows(s.reg, t, At(s, t));
  }

  /** The tasks of `join_group`, from the inserted slot to the end of the wait. */
  predicate Joins(p: Pc) {
    p.JoinSetup? || p.JoinWait? || p.JoinRead? || p.JoinLooked? || p.AbandonRead? || p.AbandonHas? || p.AbandonRemove?
  }

  predicate PendingAt(r: Reg, id: Id) {
    Lists(r, id) && r.sh.conversations[id] < |r.sh.cells| && r.sh.cells[r.sh.conversations[id]].slot.Pending?
  }

  /**
   No stuck joins: unless its join failed after inserting the slot, every pending id is awaited by
   the task that inserted the slot, or that task is a writer about to fill this very slot.
   */
  lemma PendingIsAwaited(s: State, id: Id)
    requires Reachable(OuterLock, s) && PendingAt(s.reg, id)
    ensures var e := s.reg.sh.conversations[id];
            || e in s.failed
            || (e < |s.reg.owner| && Joining(At(s, s.reg.owner[e]), e) && At(s, s.reg.owner[e]).id == id)
            || (e < |s.reg.owner| && s.writer == Some(s.reg.owner[e])
                && At(s, s.reg.owner[e]).Entered? && At(s, s.reg.owner[e]).e == e)
  {
    ReachableInv(s);
    var e := s.reg.sh.conversations[id];
    assert Registered(s.reg, e);
    assert Knows(s.reg, s.reg.owner[e], At(s, s.reg.owner[e]));
    if At(s, s.reg.owner[e]).Entered? {
      WriterAlone(s, s.reg.owner[e]);
    }
  }

  /** Only a task's own steps move it. */
  lemma OthersStandStill(s: State, a: Action, t: Task)
    requires Ready(s, a)
    requires a.Event? || a.Pump? || a.t != t
    ensures At(Apply(s, a), t) == At(s, t)
  {
    match a {
      case Write(u, w) => WriteStands(s, u, w, t);
      case Join(u, j) => JoinStands(s, u, j, t);
      case Abandon(u, b) => AbandonStands(s, u, b, t);
      case Call(u, c) => CallRest(s, u, c);
      case Leave(u, l) => LeaveStands(s, u, l, t);
      case _ => assert Apply(s, a).pc == s.pc;
    }
  }

  lemma WriteStands(s: State, u: Task, w: WriteStep, t: Task)
    requires CanWrite(s, u, w) && t != u
    ensures At(DoWrite(s, u, w), t) == At(s, t)
  {
  }

  lemma JoinStands(s: State, u: Task, j: JoinStep, t: Task)
    requires CanJoin(s, u, j) && t != u
    ensures At(DoJoin(s, u, j), t) == At(s, t)
  {
  }

  lemma AbandonStands(s: State, u: Task, b: AbandonStep, t: Task)
    requires CanAbandon(s, u, b) && t != u
    ensures At(DoAbandon(s, u, b), t) == At(s, t)
  {
  }

  lemma LeaveStands(s: State, u: Task, l: LeaveStep, t: Task)
    requires CanLeave(s, u, l) && t != u
    ensures At(DoLeave(s, u, l), t) == At(s, t)
  {
  }

  /** A waiting join reads at most 24 times, and ends only one of three ways. */
  lemma JoinEnds(s: State, a: Action, t: Task)
    requires Reachable(OuterLock, s) && Enabled(OuterLock, s, a) && Joins(At(s, t))
    ensures var s' := Apply(s, a);
            var p, q := At(s, t), At(s', t);
            && (p.JoinRead? || p.JoinLooked? ==> p.round < MAX_JOIN_ROUNDS)
            && (p.JoinLooked? && q.JoinWait? ==> q.round == p.round + 1)
            && (a == Join(t, WaitSee) && SawLive(s, p) ==> q == PollIdle(p.id))
            && (Joins(q) ==> q.id == p.id && q.mine == p.mine)
            && (!Joins(q) ==>
                  // topic, key package or announcement failed
                  || (a == Join(t, SetupDone(false)) && p.mine in s'.failed)
                  // saw the id live
                  || (a == Join(t, WaitSee) && SawLive(s, p) && q == PollIdle(p.id))
                  // ran the abandon, and the id is not pending
                  || (a.Abandon? && a.t == t && !PendingAt(s'.reg, p.id)))
  {
    ReachableInv(s);
    KnowsAt(s, t);
    JoinGoes(s, a, t);
  }

  lemma JoinGoes(s: State, a: Action, t: Task)
    requires Knows(s.reg, t, At(s, t)) && Ready(s, a) && Joins(At(s, t))
    ensures var s' := Apply(s, a);
            var p, q := At(s, t), At(s', t);
            && (p.JoinRead? || p.JoinLooked? ==> p.round < MAX_JOIN_ROUNDS)
            && (p.JoinLooked? && q.JoinWait? ==> q.round == p.round + 1)
            && (a == Join(t, WaitSee) && SawLive(s, p) ==> q == PollIdle(p.id))
            && (Joins(q) ==> q.id == p.id && q.mine == p.mine)
            && (!Joins(q) ==>
                  || (a == Join(t, SetupDone(false)) && p.mine in s'.failed)
                  || (a == Join(t, WaitSee) && SawLive(s, p) && q == PollIdle(p.id))
                  || (a.Abandon? && a.t == t && !PendingAt(s'.reg, p.id)))
  {
    if a.Event? || a.Pump? || a.t != t {
      OthersStandStill(s, a, t);
    } else if a.Abandon? {
      AbandonEnds(s, t, a.b);
    } else {
      assert a.Join?;
      WaitEnds(s, t, a.j);
    }
  }

  predicate SawLive(s: State, p: Pc)
    requires p.JoinLooked?
  {
    && p.seen.Some? && p.seen.value < |s.reg.sh.cells|
    && s.reg.sh.cells[p.seen.value].key == p.id && s.reg.sh.cells[p.seen.value].slot.Live?
  }

  lemma WaitEnds(s: State, t: Task, j: JoinStep)
    requires Knows(s.reg, t, At(s, t)) && CanJoin(s, t, j) && Joins(At(s, t))
    ensures var p, q := At(s, t), At(DoJoin(s, t, j), t);
            && (p.JoinLooked? && q.JoinWait? ==> q.round == p.round + 1)
            && (j == WaitSee && SawLive(s, p) ==> q == PollIdle(p.id))
            && (Joins(q) ==> q.id == p.id && q.mine == p.mine)
            && (!Joins(q) ==>
                  || (j == SetupDone(false) && p.mine in DoJoin(s, t, j).failed)
                  || (j == WaitSee && SawLive(s, p) && q == PollIdle(p.id)))
  {
  }

  lemma AbandonEnds(s: State, t: Task, b: AbandonStep)
    requires Knows(s.reg, t, At(s, t)) && CanAbandon(s, t, b)
    ensures var p, q := At(s, t), At(DoAbandon(s, t, b), t);
            if Joins(q) then q.id == p.id && q.mine == p.mine else !PendingAt(DoAbandon(s, t, b).reg, p.id)
  {
  }

  // ── The steps of a call, run without interruption ───────────────────────

  lemma InstallSteps(s: State, t: Task)
    requires Reachable(OuterLock, s) && CanWrite(s, t, Enter)
    ensures Valid(s.reg.sh)
    ensures var p := At(s, t);
            var entered := DoWrite(s, t, Enter);
            && CanWrite(entered, t, Fill)
            && var filled := DoWrite(entered, t, Fill);
               if LiveAt(s.reg.sh, p.id) then At(filled, t).WriteDone? && filled.reg.sh == s.reg.sh
               else && CanWrite(filled, t, EmitCreated)
                    && DoWrite(filled, t, EmitCreated).reg.sh == AfterInstall(s.reg.sh, p.id, p.i)
  {
    ReachableInv(s);
    assert Knows(s.reg, t, At(s, t));
  }

  /** The one step of `begin_pending_join`. */
  lemma BeginSteps(s: State, t: Task)
    requires CanJoin(s, t, Begin)
    ensures DoJoin(s, t, Begin).reg.sh == GetOrInsert(s.reg.sh, At(s, t).id)
    ensures At(DoJoin(s, t, Begin), t).Idle? <==> Lists(s.reg, At(s, t).id)
  {
    assert Lists(s.reg, At(s, t).id) ==> DoJoin(s, t, Begin).reg == s.reg;
  }

  lemma AbandonSteps(s: State, t: Task)
    requires Reachable(OuterLock, s) && CanAbandon(s, t, AbandonLock)
    ensures Valid(s.reg.sh)
    ensures var p := At(s, t);
            var locked := DoAbandon(s, t, AbandonLock);
            if !Lists(s.reg, p.id) then At(locked, t).Idle? && locked.reg.sh == AfterAbandon(s.reg.sh, p.id)
            else && CanAbandon(locked, t, AbandonCheck)
                 && var checked := DoAbandon(locked, t, AbandonCheck);
                    if At(checked, t).Idle? then checked.reg.sh == AfterAbandon(s.reg.sh, p.id)
                    else && CanAbandon(checked, t, AbandonDrop)
                         && DoAbandon(checked, t, AbandonDrop).reg.sh == AfterAbandon(s.reg.sh, p.id)
  {
    ReachableInv(s);
  }

  lemma LeaveSteps(s: State, t: Task)
    requires CanLeave(s, t, LeaveRemove)
    ensures CanLeave(DoLeave(s, t, LeaveRemove), t, LeaveEmit)
    ensures DoLeave(DoLeave(s, t, LeaveRemove), t, LeaveEmit).reg.sh == AfterLeave(s.reg.sh, At(s, t).id)
  {
  }

  /** Creating starts to build exactly for a free id, and refusing changes nothing. */
  lemma RegisterSteps(s: State, t: Task)
    requires Reachable(OuterLock, s) && At(s, t).WriteHeld?
    ensures var p := At(s, t);
            && (p.kind.Create? ==> (CanWrite(s, t, Build) <==> !Lists(s.reg, p.id)))
            && (p.kind.Welcome? ==> CanWrite(s, t, Build))
            && CanWrite(s, t, Refuse) && DoWrite(s, t, Refuse).reg == s.reg
            && (CanWrite(s, t, Build) ==>
                  var built := DoWrite(s, t, Build);
                  built.reg.sh == s.reg.sh && At(built, t) == Built(p.id, |s.reg.convs|) && CanWrite(built, t, Enter))
  {
    ReachableInv(s);
    assert HoldsWrite(At(s, t));
    NoRegistryHolder(s, t);
  }

  lemma NoRegistryHolder(s: State, w: Task)
    requires Locks(s) && s.writer == Some(w)
    ensures s.registryLock.None?
  {
    if s.registryLock.Some? {
      HolderIsReader(s, s.registryLock.value);
    }
  }

  /** The removal and the log of a leave, both possible, leave `sh`. */
  ghost predicate FinalizesTo(s: State, t: Task, sh: Shared) {
    && CanLeave(s, t, LeaveRemove)
    && var removed := DoLeave(s, t, LeaveRemove);
       && CanLeave(removed, t, LeaveEmit)
       && DoLeave(removed, t, LeaveEmit).reg.sh == sh && At(DoLeave(removed, t, LeaveEmit), t) == Idle
  }

  /**
   The steps of `handle_inbound`: a leave is finalized at once, under the same guard, before the flush
   that ends the call, and any other answer leaves the registry alone.
   */
  lemma InboundSteps(s: State, t: Task, leave: bool)
    requires Reachable(OuterLock, s) && CanCall(s, t, CallLookup) && !At(s, t).poll
    requires leave ==> var i := ListedConv(s.reg, At(s, t).id); i.Some? && s.reg.convs[i.value].phase.Working?
    ensures Valid(s.reg.sh)
    ensures var id, looked := At(s, t).id, DoCall(s, t, CallLookup);
            && looked.reg == s.reg
            && if !Lists(s.reg, id) then At(looked, t) == Idle
               else
                 && CanCall(looked, t, CallSlot(leave))
                 && var called := DoCall(looked, t, CallSlot(leave));
                    if leave then FinalizesTo(called, t, AfterInbound(s.reg.sh, id, true))
                    else called.reg == s.reg && At(called, t) == Idle
  {
    ReachableInv(s);
    LookedUp(s, t);
    if Lists(s.reg, At(s, t).id) {
      var looked := DoCall(s, t, CallLookup);
      if leave {
        SlotLeaves(looked, t);
        LeaveSteps(DoCall(looked, t, CallSlot(true)), t);
      } else {
        SlotAnswers(looked, t);
      }
    }
  }

  lemma LookedUp(s: State, t: Task)
    requires Cells(s.reg) && CanCall(s, t, CallLookup)
    ensures var p, looked := At(s, t), DoCall(s, t, CallLookup);
            && looked.reg == s.reg && looked.registryLock.None?
            && (if Lists(s.reg, p.id) then At(looked, t) == CallHas(p.id, s.reg.sh.conversations[p.id], p.poll)
                else At(looked, t) == Idle)
  {
  }

  lemma SlotLeaves(s: State, t: Task)
    requires Cells(s.reg) && s.registryLock.None? && At(s, t).CallHas? && !At(s, t).poll
    requires Lookup(s.reg.sh, At(s, t).id) == Some(At(s, t).e)
    requires var i := ListedConv(s.reg, At(s, t).id); i.Some? && s.reg.convs[i.value].phase.Working?
    ensures CanCall(s, t, CallSlot(true)) && LiveAt(s.reg.sh, At(s, t).id)
    ensures var called := DoCall(s, t, CallSlot(true));
            CanLeave(called, t, LeaveRemove) && called.reg.sh == s.reg.sh && At(called, t).id == At(s, t).id
  {
  }

  lemma SlotAnswers(s: State, t: Task)
    requires Cells(s.reg) && At(s, t).CallHas? && Lookup(s.reg.sh, At(s, t).id) == Some(At(s, t).e)
    ensures CanCall(s, t, CallSlot(false))
    ensures var p, called := At(s, t), DoCall(s, t, CallSlot(false));
            && called.reg == s.reg
            && At(called, t) == if p.poll && LiveAt(s.reg.sh, p.id) then PollOut(p.id, p.e, None) else Idle
  {
    if s.reg.sh.cells[At(s, t).e].slot.Live? {
      assert Holds(s.reg, At(s, t).e, s.reg.sh.cells[At(s, t).e].slot.instance);
    }
  }

  /**
   The steps of one poll: an id that is missing or pending ends the polling; otherwise it goes on,
   unless the conversation leaves and the flush succeeds. The registry's map and slots stay as they are.
   */
  lemma PollSteps(s: State, t: Task, leave: bool, flushed: bool)
    requires Reachable(OuterLock, s) && CanCall(s, t, CallLookup) && At(s, t).poll
    requires leave ==> var i := ListedConv(s.reg, At(s, t).id); i.Some? && s.reg.convs[i.value].phase.Working?
    ensures Valid(s.reg.sh)
    ensures var id, looked := At(s, t).id, DoCall(s, t, CallLookup);
            && looked.reg == s.reg
            && if !Lists(s.reg, id) then At(looked, t) == Idle
               else
                 && CanCall(looked, t, CallSlot(leave))
                 && var polled := DoCall(looked, t, CallSlot(leave));
                    && polled.reg.sh == s.reg.sh
                    && if !LiveAt(s.reg.sh, id) then At(polled, t) == Idle
                       else
                         && CanCall(polled, t, PollFlush(flushed))
                         && var done := DoCall(polled, t, PollFlush(flushed));
                            && done.reg.sh == s.reg.sh
                            && (if leave && flushed then At(done, t).FinWait? && At(done, t).id == id
                                else At(done, t) == PollIdle(id))
  {
    ReachableInv(s);
    LookedUp(s, t);
    if Lists(s.reg, At(s, t).id) {
      PollSlot(DoCall(s, t, CallLookup), t, leave);
      if LiveAt(s.reg.sh, At(s, t).id) {
        Flushes(DoCall(DoCall(s, t, CallLookup), t, CallSlot(leave)), t, flushed);
      }
    }
  }

  lemma PollSlot(s: State, t: Task, leave: bool)
    requires Cells(s.reg) && At(s, t).CallHas? && At(s, t).poll
    requires Lookup(s.reg.sh, At(s, t).id) == Some(At(s, t).e)
    requires leave ==> var i := ListedConv(s.reg, At(s, t).id); i.Some? && s.reg.convs[i.value].phase.Working?
    ensures CanCall(s, t, CallSlot(leave))
    ensures var p, polled := At(s, t), DoCall(s, t, CallSlot(leave));
            && polled.reg.sh == s.reg.sh
            && if !LiveAt(s.reg.sh, p.id) then At(polled, t) == Idle
               else At(polled, t).PollOut? && At(polled, t).id == p.id && (At(polled, t).leave.Some? <==> leave)
                    && (leave ==> At(polled, t).leave.value < |polled.reg.convs|)
  {
    if leave {
      PollTold(s, t);
    } else {
      SlotAnswers(s, t);
    }
  }

  lemma PollTold(s: State, t: Task)
    requires Cells(s.reg) && At(s, t).CallHas? && At(s, t).poll
    requires Lookup(s.reg.sh, At(s, t).id) == Some(At(s, t).e)
    requires var i := ListedConv(s.reg, At(s, t).id); i.Some? && s.reg.convs[i.value].phase.Working?
    ensures CanCall(s, t, CallSlot(true))
    ensures var i := ListedConv(s.reg, At(s, t).id).value;
            var polled := DoCall(s, t, CallSlot(true));
            && polled.reg.sh == s.reg.sh && i < |polled.reg.convs|
            && At(polled, t) == PollOut(At(s, t).id, At(s, t).e, Some(i))
  {
  }

  lemma Flushes(s: State, t: Task, flushed: bool)
    requires At(s, t).PollOut? && (At(s, t).leave.Some? ==> At(s, t).leave.value < |s.reg.convs|)
    ensures CanCall(s, t, PollFlush(flushed))
    ensures var p, done := At(s, t), DoCall(s, t, PollFlush(flushed));
            && done.reg.sh == s.reg.sh
            && At(done, t) == if p.leave.Some? && flushed then FinWait(p.id, p.e, p.leave.value) else PollIdle(p.id)
  {
  }

  /** A task in the polling loop of its conversation, up to acting on a leave. */
  predicate Polls(p: Pc) {
    p.PollIdle? || (p.CallRead? && p.poll) || (p.CallHas? && p.poll) || p.PollOut? || p.FinWait?
  }

  /** It finds the id gone or pending, or goes to finalize the leave it was told of. */
  ghost predicate StopsPolling(s: State, a: Action, t: Task)
    requires Polls(At(s, t))
  {
    var p := At(s, t);
    || (a == Call(t, CallLookup) && !Lists(s.reg, p.id))
    || (a == Call(t, CallSlot(false)) && p.CallHas? && p.e < |s.reg.sh.cells| && s.reg.sh.cells[p.e].slot.Pending?)
    || a == Leave(t, LeaveAcquire)
  }

  /** Polling goes on through every step of every task, a failed flush included, up to one of these. */
  lemma PollEnds(s: State, a: Action, t: Task)
    requires Ready(s, a) && Polls(At(s, t))
    ensures var p, q := At(s, t), At(Apply(s, a), t);
            if StopsPolling(s, a, t) then if p.FinWait? then q == FinRead(p.id, p.e, p.i) else q == Idle
            else Polls(q) && q.id == p.id
  {
    if a.Event? || a.Pump? || a.t != t {
      OthersStandStill(s, a, t);
    } else if a.Call? {
      CallPolls(s, t, a.c);
    } else {
      assert a.Leave?;
    }
  }

  lemma CallPolls(s: State, t: Task, c: CallStep)
    requires CanCall(s, t, c) && Polls(At(s, t))
    ensures var p, q := At(s, t), At(DoCall(s, t, c), t);
            if StopsPolling(s, Call(t, c), t) then q == Idle && !p.FinWait? else Polls(q) && q.id == p.id
  {
  }

  /** Polling starts where it is asked for, and a poll or a dispatch reads under a guard of its own. */
  lemma CallBegins(s: State, t: Task, id: Id, poll: bool)
    requires Reachable(OuterLock, s)
    ensures At(s, t) == Idle ==>
              CanCall(s, t, StartPolling(id)) && At(DoCall(s, t, StartPolling(id)), t) == PollIdle(id)
    ensures At(s, t) == (if poll then PollIdle(id) else Idle) && s.writer.None? ==>
              && Enabled(OuterLock, s, Call(t, CallAcquire(id, poll)))
              && At(DoCall(s, t, CallAcquire(id, poll)), t) == CallRead(id, poll)
              && t in DoCall(s, t, CallAcquire(id, poll)).readers
  {
  }

  // ── No deadlock ─────────────────────────────────────────────────────────

  /** A next step of a task inside a call. */
  function NextStep(s: State, t: Task): Action {
    match At(s, t)
    case WriteHeld(_, _) => Write(t, Refuse)
    case Built(_, _) => Write(t, Enter)
    case Entered(_, _, _) => Write(t, Fill)
    case Filled(_, _) => Write(t, EmitCreated)
    case WriteDone => Write(t, WriteRelease)
    case JoinBegin(_) => Join(t, Begin)
    case JoinSetup(_, _) => Join(t, SetupDone(true))
    case JoinWait(_, _, round) => if round < MAX_JOIN_ROUNDS then Join(t, WaitAcquire) else Abandon(t, AbandonAcquire)
    case JoinRead(_, _, _) => Join(t, WaitLookup)
    case JoinLooked(_, _, _, _) => Join(t, WaitSee)
    case AbandonRead(_, _) => Abandon(t, AbandonLock)
    case AbandonHas(_, _, _) => Abandon(t, AbandonCheck)
    case AbandonRemove(_, _, _) => Abandon(t, AbandonDrop)
    case PollIdle(id) => Call(t, CallAcquire(id, true))
    case CallRead(_, _) => Call(t, CallLookup)
    case CallHas(_, _, _) => Call(t, CallSlot(false))
    case PollOut(_, _, _) => Call(t, PollFlush(true))
    case FinWait(_, _, _) => Leave(t, LeaveAcquire)
    case FinRead(_, _, _) => Leave(t, LeaveRemove)
    case _ => Leave(t, LeaveEmit)
  }

  lemma CanGoOn(s: State, t: Task)
    requires Cells(s.reg) && Knows(s.reg, t, At(s, t)) && At(s, t) != Idle
    requires (s.writer.None? || HoldsWrite(At(s, t))) && (s.registryLock.None? || HoldsRegistry(At(s, t)))
    requires HoldsWrite(At(s, t)) ==> s.registryLock.None?
    ensures Enabled(OuterLock, s, NextStep(s, t))
  {
    match At(s, t) {
      case CallHas(_, e, _) =>
        if s.reg.sh.cells[e].slot.Live? {
          assert Holds(s.reg, e, s.reg.sh.cells[e].slot.instance);
        }
      case _ =>
    }
  }

  /** While any task is inside a call, some task can take its next step: the locks never deadlock. */
  lemma NeverStuck(s: State, t: Task) returns (u: Task)
    requires Reachable(OuterLock, s) && At(s, t) != Idle
    ensures At(s, u) != Idle && Enabled(OuterLock, s, NextStep(s, u))
  {
    ReachableInv(s);
    if s.registryLock.Some? {
      u := s.registryLock.value;
      RegistryHolder(s, u);
    } else if s.writer.Some? {
      u := s.writer.value;
      WriteHolder(s, u);
    } else {
      u := t;
    }
    KnowsAt(s, u);
    CanGoOn(s, u);
  }

  lemma RegistryHolder(s: State, u: Task)
    requires Locks(s) && s.registryLock == Some(u)
    ensures HoldsRegistry(At(s, u)) && !HoldsWrite(At(s, u)) && s.writer.None?
  {
    HolderIsReader(s, u);
  }

  lemma WriteHolder(s: State, u: Task)
    requires Locks(s) && s.writer == Some(u)
    ensures HoldsWrite(At(s, u))
  {
  }

  lemma HolderIsReader(s: State, u: Task)
    requires Locks(s) && HoldsRegistry(At(s, u))
    ensures s.writer.None?
  {
    assert HoldsRead(At(s, u));
  }

  // ── Deliveries ──────────────────────────────────────────────────────────

  /** What the fanout was handed of a conversation, in order, is a prefix of what it emitted. */
  lemma DeliveriesArePrefix(s: State, i: Instance)
    requires Reachable(OuterLock, s) && i < |s.reg.convs|
    ensures DeliveredPrefix(s.reg.convs[i], s.delivered, s.pump, i)
    ensures DeliveredOf(s.delivered, i) <= s.reg.convs[i].events
  {
    ReachableInv(s);
    PrefixDelivered(s.reg.convs[i], s.delivered, s.pump, i);
  }

  lemma PrefixDelivered(c: Conv, d: seq<Delivery>, p: Pump, i: Instance)
    requires DeliveredPrefix(c, d, p, i)
    ensures DeliveredOf(d, i) <= c.events
  {
    assert DeliveredOf(d, i) <= DeliveredOf(d, i) + InHand(p, i);
  }

  /** The fanout of one id is handed conversation after conversation, in the order installed. */
  lemma DeliveriesInInstanceOrder(s: State, k: nat, l: nat)
    requires Reachable(OuterLock, s) && k < l < |s.delivered| && s.delivered[k].id == s.delivered[l].id
    ensures s.delivered[k].i <= s.delivered[l].i
    ensures Installed(s.reg, s.delivered[k].i, s.delivered[k].id)
  {
    ReachableInv(s);
  }
}
