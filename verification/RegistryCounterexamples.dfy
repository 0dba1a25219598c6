/**
 Runs that show where a property of the registry ends: without the outer lock a welcome is
 lost; a join that fails after listing its slot strands the id; an old join's timeout can drop
 the slot of a later one.
 */
module RegistryCounterexamples {
  import opened Wrappers
  import opened Registry
  import opened RegistryProtocol
  import opened RegistryInvariant
  import opened RegistryTheorems
  import opened RegistryHistory

  const G: Id := "g"

  lemma ReachStart(g: Policy)
    ensures Reachable(g, INIT)
  {
    assert Exec(g, INIT, []) == Some(INIT);
  }

  lemma ReachStep(g: Policy, s: State, a: Action)
    requires Reachable(g, s) && Enabled(g, s, a)
    ensures Reachable(g, Apply(s, a))
  {
    var actions :| Exec(g, INIT, actions) == Some(s);
    assert (actions + [a])[..|actions|] == actions;
    assert Exec(g, INIT, actions + [a]) == Some(Apply(s, a));
  }

  // One step of a task, for a run that is built up below.

  lemma WriteOne(g: Policy, s: State, t: Task, w: WriteStep) returns (s': State)
    requires Reachable(g, s) && CanWrite(s, t, w)
    requires g.OuterLock? ==> (w.WriteAcquire? ==> s.writer.None? && s.readers == {})
    ensures Reachable(g, s') && s' == DoWrite(s, t, w)
  {
    ReachStep(g, s, Write(t, w));
    s' := DoWrite(s, t, w);
  }

  lemma JoinOne(g: Policy, s: State, t: Task, j: JoinStep) returns (s': State)
    requires Reachable(g, s) && CanJoin(s, t, j)
    requires g.OuterLock? ==> ((j.JoinAcquire? || j.WaitAcquire?) ==> s.writer.None?)
    ensures Reachable(g, s') && s' == DoJoin(s, t, j)
  {
    ReachStep(g, s, Join(t, j));
    s' := DoJoin(s, t, j);
  }

  lemma AbandonOne(g: Policy, s: State, t: Task, b: AbandonStep) returns (s': State)
    requires Reachable(g, s) && CanAbandon(s, t, b)
    requires g.OuterLock? ==> (b.AbandonAcquire? ==> s.writer.None?)
    ensures Reachable(g, s') && s' == DoAbandon(s, t, b)
  {
    ReachStep(g, s, Abandon(t, b));
    s' := DoAbandon(s, t, b);
  }

  lemma CallOne(g: Policy, s: State, t: Task, c: CallStep) returns (s': State)
    requires Reachable(g, s) && CanCall(s, t, c)
    requires g.OuterLock? ==> (c.CallAcquire? ==> s.writer.None?)
    ensures Reachable(g, s') && s' == DoCall(s, t, c)
  {
    ReachStep(g, s, Call(t, c));
    s' := DoCall(s, t, c);
  }

  lemma LeaveOne(g: Policy, s: State, t: Task, l: LeaveStep) returns (s': State)
    requires Reachable(g, s) && CanLeave(s, t, l)
    requires g.OuterLock? ==> (l.LeaveAcquire? ==> s.writer.None?)
    ensures Reachable(g, s') && s' == DoLeave(s, t, l)
  {
    ReachStep(g, s, Leave(t, l));
    s' := DoLeave(s, t, l);
  }

  /** Moving between places that hold at most a read guard. */
  lemma ReaderMove(s: State, t: Task, p: Pc)
    requires s.writer.None? && s.registryLock.None? && !HoldsWrite(p) && !HoldsRegistry(p)
    ensures Move(s, t, p)
            == s.(pc := s.pc[t := p], readers := if HoldsRead(p) then s.readers + {t} else s.readers - {t})
  {
  }

  lemma OneRound(g: Policy, s: State, t: Task, id: Id, mine: Entry, round: nat) returns (s': State)
    requires Reachable(g, s) && s.writer.None? && s.registryLock.None? && t !in s.readers
    requires At(s, t) == JoinWait(id, mine, round) && round < MAX_JOIN_ROUNDS && PendingAt(s.reg, id)
    ensures Reachable(g, s') && s' == s.(pc := s.pc[t := JoinWait(id, mine, round + 1)])
  {
    var e := s.reg.sh.conversations[id];
    var s1 := JoinOne(g, s, t, WaitAcquire);
    ReaderMove(s, t, JoinRead(id, mine, round));
    var s2 := JoinOne(g, s1, t, WaitLookup);
    ReaderMove(s1, t, JoinLooked(id, mine, round, Some(e)));
    s' := SeePending(g, s2, t, id, mine, round, e);
    assert s'.pc == s.pc[t := JoinWait(id, mine, round + 1)];
    assert s.readers + {t} + {t} - {t} == s.readers;
  }

  lemma SeePending(g: Policy, s: State, t: Task, id: Id, mine: Entry, round: nat, e: Entry) returns (s': State)
    requires Reachable(g, s) && s.writer.None? && s.registryLock.None?
    requires At(s, t) == JoinLooked(id, mine, round, Some(e)) && e < |s.reg.sh.cells| && s.reg.sh.cells[e].slot.Pending?
    ensures Reachable(g, s')
    ensures s' == s.(pc := s.pc[t := JoinWait(id, mine, round + 1)], readers := s.readers - {t})
  {
    SeenPending(s, t, id, mine, round, e);
    s' := JoinOne(g, s, t, WaitSee);
    ReaderMove(s, t, JoinWait(id, mine, round + 1));
  }

  lemma SeenPending(s: State, t: Task, id: Id, mine: Entry, round: nat, e: Entry)
    requires At(s, t) == JoinLooked(id, mine, round, Some(e)) && e < |s.reg.sh.cells| && s.reg.sh.cells[e].slot.Pending?
    ensures CanJoin(s, t, WaitSee) && DoJoin(s, t, WaitSee) == Move(s, t, JoinWait(id, mine, round + 1))
  {
  }

  /** A joining task that keeps finding its id pending comes to the end of its rounds. */
  lemma {:induction false} WaitOut(g: Policy, s: State, t: Task, id: Id, mine: Entry, round: nat) returns (s': State)
    requires Reachable(g, s) && s.writer.None? && s.registryLock.None? && t !in s.readers
    requires At(s, t) == JoinWait(id, mine, round) && round <= MAX_JOIN_ROUNDS && PendingAt(s.reg, id)
    ensures Reachable(g, s') && s' == s.(pc := s.pc[t := JoinWait(id, mine, MAX_JOIN_ROUNDS)])
    decreases MAX_JOIN_ROUNDS - round
  {
    if round == MAX_JOIN_ROUNDS {
      s' := s;
      assert s.pc[t := JoinWait(id, mine, round)] == s.pc;
    } else {
      var s1 := OneRound(g, s, t, id, mine, round);
      s' := WaitOut(g, s1, t, id, mine, round + 1);
      assert s'.pc == s.pc[t := JoinWait(id, mine, MAX_JOIN_ROUNDS)];
    }
  }

  /** A join of a free id, up to its first round. */
  lemma JoinUp(g: Policy, s: State, t: Task, id: Id) returns (s': State)
    requires Reachable(g, s) && At(s, t).Idle? && s.writer.None? && s.registryLock.None? && t !in s.readers
    requires !Lists(s.reg, id)
    ensures Reachable(g, s')
    ensures s' == s.(reg := AddPending(s.reg, t, id), pc := s.pc[t := JoinWait(id, |s.reg.sh.cells|, 0)])
  {
    var s1 := JoinOne(g, s, t, JoinAcquire(id));
    ReaderMove(s, t, JoinBegin(id));
    var s2 := JoinListed(g, s1, t, id);
    s' := JoinAnnounced(g, s2, t, id, |s.reg.sh.cells|);
    assert s.readers + {t} - {t} - {t} == s.readers;
    assert s'.pc == s.pc[t := JoinWait(id, |s.reg.sh.cells|, 0)];
  }

  lemma JoinListed(g: Policy, s: State, t: Task, id: Id) returns (s': State)
    requires Reachable(g, s) && At(s, t) == JoinBegin(id) && s.writer.None? && s.registryLock.None?
    requires !Lists(s.reg, id)
    ensures Reachable(g, s')
    ensures s' == s.(reg := AddPending(s.reg, t, id), readers := s.readers - {t},
                     pc := s.pc[t := JoinSetup(id, |s.reg.sh.cells|)])
  {
    s' := JoinOne(g, s, t, Begin);
    ReaderMove(s, t, JoinSetup(id, |s.reg.sh.cells|));
  }

  lemma JoinAnnounced(g: Policy, s: State, t: Task, id: Id, mine: Entry) returns (s': State)
    requires Reachable(g, s) && At(s, t) == JoinSetup(id, mine) && s.writer.None? && s.registryLock.None?
    ensures Reachable(g, s')
    ensures s' == s.(readers := s.readers - {t}, pc := s.pc[t := JoinWait(id, mine, 0)])
  {
    s' := JoinOne(g, s, t, SetupDone(true));
    ReaderMove(s, t, JoinWait(id, mine, 0));
  }

  // A writer, from the outer guard to the entry in hand.

  predicate Alone(s: State, w: Task) {
    s.writer == Some(w) && s.readers == {} && s.registryLock.None?
  }

  predicate Quiet(s: State) {
    s.writer.None? && s.readers == {} && s.registryLock.None?
  }

  lemma WriterMove(s: State, w: Task, p: Pc)
    requires (Quiet(s) || Alone(s, w)) && (HoldsWrite(p) || p.Idle?)
    ensures Move(s, w, p) == s.(pc := s.pc[w := p], writer := if HoldsWrite(p) then Some(w) else None)
  {
    assert s.readers - {w} == s.readers;
  }

  lemma BuiltOne(g: Policy, s: State, w: Task, id: Id, kind: Kind) returns (s': State)
    requires Reachable(g, s) && At(s, w) == WriteHeld(id, kind) && Alone(s, w)
    requires kind.Create? ==> !Lists(s.reg, id)
    ensures Reachable(g, s')
    ensures s' == s.(pc := s.pc[w := Built(id, |s.reg.convs|)], reg := BuildConv(s.reg, id))
  {
    s' := WriteOne(g, s, w, Build);
    WriterMove(s, w, Built(id, |s.reg.convs|));
  }

  lemma EnteredOne(g: Policy, s: State, w: Task, id: Id, i: Instance) returns (s': State)
    requires Reachable(g, s) && At(s, w) == Built(id, i) && Alone(s, w)
    ensures Reachable(g, s')
    ensures var reg := AddPending(s.reg, w, id);
            s' == s.(pc := s.pc[w := Entered(id, i, reg.sh.conversations[id])], reg := reg)
  {
    s' := WriteOne(g, s, w, Enter);
    WriterMove(s, w, Entered(id, i, AddPending(s.reg, w, id).sh.conversations[id]));
  }

  /** Up to the entry in hand; its slot is not filled yet. */
  lemma EnteredUp(g: Policy, s: State, w: Task, id: Id, kind: Kind) returns (s': State)
    requires Reachable(g, s) && At(s, w).Idle? && Quiet(s) && (kind.Create? ==> !Lists(s.reg, id))
    ensures Reachable(g, s') && Alone(s', w)
    ensures var reg := AddPending(BuildConv(s.reg, id), w, id);
            s'.reg == reg && s'.pc == s.pc[w := Entered(id, |s.reg.convs|, reg.sh.conversations[id])]
  {
    var s1 := WriteOne(g, s, w, WriteAcquire(id, kind));
    WriterMove(s, w, WriteHeld(id, kind));
    var s2 := BuiltOne(g, s1, w, id, kind);
    s' := EnteredOne(g, s2, w, id, |s.reg.convs|);
    var e := AddPending(BuildConv(s.reg, id), w, id).sh.conversations[id];
    assert s'.pc == s.pc[w := Entered(id, |s.reg.convs|, e)];
  }

  /**
   With the inner locks alone an abandoning join removes a slot that a welcome has filled: the
   conversation works, never asked to leave, and is no longer listed.
   */
  lemma InnerLocksLoseAWelcome() returns (s: State)
    ensures Reachable(InnerLocksOnly, s) && Enabled(InnerLocksOnly, s, Abandon(0, AbandonDrop))
    ensures ListedConv(s.reg, G) == Some(0) && s.reg.convs[0].phase.Working?
    ensures !Lists(Apply(s, Abandon(0, AbandonDrop)).reg, G)
  {
    var g := InnerLocksOnly;
    ReachStart(g);
    var s1 := JoinUp(g, INIT, 0, G);
    var s2 := WaitOut(g, s1, 0, G, 0, 0);
    var s3 := EnteredUp(g, s2, 1, G, Welcome);
    s := FillWithinAbandon(s3);
    DropUnlists(g, s, 0);
  }

  lemma DropUnlists(g: Policy, s: State, t: Task)
    requires At(s, t).AbandonRemove?
    ensures Enabled(g, s, Abandon(t, AbandonDrop))
    ensures !Lists(Apply(s, Abandon(t, AbandonDrop)).reg, At(s, t).id)
  {
  }

  lemma FillWithinAbandon(s: State) returns (s': State)
    requires Reachable(InnerLocksOnly, s) && s.registryLock.None?
    requires At(s, 0) == JoinWait(G, 0, MAX_JOIN_ROUNDS) && At(s, 1) == Entered(G, 0, 0)
    requires s.reg.sh.conversations == map[G := 0] && s.reg.sh.cells == [Cell(G, Pending)]
    requires s.reg.convs == [Conv(G, Building, 0, [], 0)]
    ensures Reachable(InnerLocksOnly, s') && At(s', 0).AbandonRemove? && At(s', 0).id == G
    ensures ListedConv(s'.reg, G) == Some(0) && s'.reg.convs[0].phase.Working?
  {
    var s1 := AbandonUp(InnerLocksOnly, s, 0, 0);
    FillStep(s1, 1);
    FilledReg(s1.reg);
    s' := WriteOne(InnerLocksOnly, s1, 1, Fill);
  }

  /**
   A join that fails between listing its slot and announcing itself leaves the id pending with
   nobody waiting. However the run goes on, a join of the id is refused until a leave of it; that
   takes a welcome for the id first.
   */
  lemma FailedJoinStrandsTheId() returns (run: seq<Action>)
    ensures IsRun(run) && PendingAt(Final(run).reg, G) && Final(run).reg.sh.conversations[G] in Final(run).failed
    ensures forall t: Task :: At(Final(run), t).Idle?
    ensures forall more: seq<Action>, t: Task ::
              IsRun(run + more) && BeginsAt(Final(run + more), t, G) && !LeftSince(run + more, |run|, G) ==>
                RefusesAt(Final(run + more), t)
  {
    var s := FailedJoin();
    run :| Exec(OuterLock, INIT, run) == Some(s);
    assert run[..|run|] == run;
    forall more: seq<Action>, t: Task
      | IsRun(run + more) && BeginsAt(Final(run + more), t, G) && !LeftSince(run + more, |run|, G)
      ensures RefusesAt(Final(run + more), t)
    {
      assert (run + more)[..|run|] == run;
      RefusedUntilLeft(run + more, |run|, t, G, 0);
    }
  }

  predicate BeginsAt(s: State, t: Task, id: Id) {
    CanJoin(s, t, Begin) && At(s, t) == JoinBegin(id)
  }

  predicate RefusesAt(s: State, t: Task)
    requires CanJoin(s, t, Begin)
  {
    At(DoJoin(s, t, Begin), t).Idle? && DoJoin(s, t, Begin).reg == s.reg
  }

  lemma FailedJoin() returns (s: State)
    ensures Reachable(OuterLock, s) && Lookup(s.reg.sh, G) == Some(0) && PendingAt(s.reg, G) && 0 in s.failed
    ensures forall t: Task :: At(s, t).Idle?
  {
    var g := OuterLock;
    ReachStart(g);
    var s1 := JoinOne(g, INIT, 0, JoinAcquire(G));
    var s2 := JoinOne(g, s1, 0, Begin);
    s := JoinOne(g, s2, 0, SetupDone(false));
  }

  /**
   An abandon does not check whose slot it drops: task 0 joined, got in and out again while it
   slept, and its timeout removes the slot of task 2, which still waits.
   */
  lemma AbandonDropsALaterJoin() returns (s: State)
    ensures Reachable(OuterLock, s) && Enabled(OuterLock, s, Abandon(0, AbandonDrop))
    ensures At(s, 0).AbandonRemove? && At(s, 0).mine == 0
    ensures Lookup(s.reg.sh, G) == Some(1) && Joining(At(s, 2), 1)
    ensures !Lists(Apply(s, Abandon(0, AbandonDrop)).reg, G)
    ensures Joining(At(Apply(s, Abandon(0, AbandonDrop)), 2), 1)
  {
    var g := OuterLock;
    ReachStart(g);
    var s0 := JoinUp(g, INIT, 0, G);
    var s1 := JoinedAndLeft(s0);
    var s2 := JoinUp(g, s1, 2, G);
    var s3 := WaitOut(g, s2, 0, G, 0, 0);
    s := AbandonUp(g, s3, 0, 1);
    DropUnlists(g, s, 0);
    OtherStaysPut(s);
  }

  lemma OtherStaysPut(s: State)
    requires At(s, 0).AbandonRemove?
    ensures At(Apply(s, Abandon(0, AbandonDrop)), 2) == At(s, 2)
  {
  }

  lemma AbandonUp(g: Policy, s: State, mine: Entry, e: Entry) returns (s': State)
    requires Reachable(g, s) && (g.OuterLock? ==> s.writer.None?) && s.registryLock.None?
    requires At(s, 0) == JoinWait(G, mine, MAX_JOIN_ROUNDS)
    requires Lookup(s.reg.sh, G) == Some(e) && e < |s.reg.sh.cells| && s.reg.sh.cells[e].slot.Pending?
    ensures Reachable(g, s') && s'.pc == s.pc[0 := AbandonRemove(G, mine, e)] && s'.reg == s.reg
  {
    var s1 := AbandonOne(g, s, 0, AbandonAcquire);
    assert s1.pc == s.pc[0 := AbandonRead(G, mine)] && s1.reg == s.reg && s1.registryLock.None?;
    s' := AbandonRest(g, s1, mine, e);
    assert s'.pc == s.pc[0 := AbandonRemove(G, mine, e)];
  }

  lemma AbandonRest(g: Policy, s: State, mine: Entry, e: Entry) returns (s': State)
    requires Reachable(g, s) && s.registryLock.None? && At(s, 0) == AbandonRead(G, mine)
    requires Lookup(s.reg.sh, G) == Some(e) && e < |s.reg.sh.cells| && s.reg.sh.cells[e].slot.Pending?
    ensures Reachable(g, s') && s'.pc == s.pc[0 := AbandonRemove(G, mine, e)] && s'.reg == s.reg
  {
    var s1 := AbandonOne(g, s, 0, AbandonLock);
    assert s1.pc == s.pc[0 := AbandonHas(G, mine, e)] && s1.reg == s.reg;
    s' := AbandonOne(g, s1, 0, AbandonCheck);
    assert s'.pc == s.pc[0 := AbandonRemove(G, mine, e)];
  }

  /** The welcome arrives on the forwarder, task 1, and then the message that ends the membership. */
  lemma JoinedAndLeft(s: State) returns (s': State)
    requires Reachable(OuterLock, s) && Quiet(s) && s.pc == map[0 := JoinWait(G, 0, 0)]
    requires s.reg.sh.conversations == map[G := 0] && s.reg.sh.cells == [Cell(G, Pending)] && s.reg.convs == []
    ensures Reachable(OuterLock, s') && Quiet(s')
    ensures At(s', 0) == JoinWait(G, 0, 0) && At(s', 2).Idle?
    ensures !Lists(s'.reg, G) && |s'.reg.sh.cells| == 1
  {
    var w1 := EnteredUp(OuterLock, s, 1, G, Welcome);
    var w2 := InstallDone(w1, 1);
    s' := Left(w2);
  }

  lemma FillStep(s: State, w: Task)
    requires At(s, w) == Entered(G, 0, 0) && s.reg.sh.cells == [Cell(G, Pending)] && |s.reg.convs| == 1
    ensures CanWrite(s, w, Fill) && DoWrite(s, w, Fill) == Move(s, w, Filled(G, 0)).(reg := FillCell(s.reg, 0, 0))
  {
  }

  lemma FilledReg(r: Reg)
    requires r.sh.cells == [Cell(G, Pending)] && r.convs == [Conv(G, Building, 0, [], 0)]
    ensures var filled := FillCell(r, 0, 0);
            && filled.sh.conversations == r.sh.conversations && filled.sh.cells == [Cell(G, Live(0))]
            && |filled.convs| == 1 && filled.convs[0].phase.Working?
  {
  }

  lemma WriterDone(s: State, w: Task) returns (s': State)
    requires Reachable(OuterLock, s) && At(s, w) == Filled(G, 0) && Alone(s, w)
    ensures Reachable(OuterLock, s') && Quiet(s') && s'.pc == s.pc[w := Idle]
    ensures s'.reg == Log(s.reg, Created(G))
  {
    var s1 := WriteOne(OuterLock, s, w, EmitCreated);
    WriterMove(s, w, WriteDone);
    assert s1.reg == Log(s.reg, Created(G));
    s' := Released(s1, w);
    assert s.pc[w := WriteDone][w := Idle] == s.pc[w := Idle];
  }

  lemma Released(s: State, w: Task) returns (s': State)
    requires Reachable(OuterLock, s) && At(s, w) == WriteDone && Alone(s, w)
    ensures Reachable(OuterLock, s') && Quiet(s') && s'.pc == s.pc[w := Idle] && s'.reg == s.reg
  {
    s' := WriteOne(OuterLock, s, w, WriteRelease);
    WriterMove(s, w, Idle);
  }

  lemma InstallDone(s: State, w: Task) returns (s': State)
    requires Reachable(OuterLock, s) && At(s, w) == Entered(G, 0, 0) && Alone(s, w)
    requires s.reg.sh.conversations == map[G := 0] && s.reg.sh.cells == [Cell(G, Pending)]
    requires s.reg.convs == [Conv(G, Building, 0, [], 0)]
    ensures Reachable(OuterLock, s') && Quiet(s') && s'.pc == s.pc[w := Idle]
    ensures s'.reg.sh.conversations == map[G := 0] && s'.reg.sh.cells == [Cell(G, Live(0))]
    ensures |s'.reg.convs| == 1 && s'.reg.convs[0].phase.Working?
  {
    FillStep(s, w);
    FilledReg(s.reg);
    WriterMove(s, w, Filled(G, 0));
    var filled := WriteOne(OuterLock, s, w, Fill);
    s' := WriterDone(filled, w);
    assert s.pc[w := Filled(G, 0)][w := Idle] == s.pc[w := Idle];
  }

  /** A call on a listed id, up to its slot. */
  lemma CallUp(s: State, t: Task, id: Id, e: Entry, poll: bool) returns (s': State)
    requires Reachable(OuterLock, s) && At(s, t) == if poll then PollIdle(id) else Idle
    requires s.writer.None? && s.registryLock.None? && Lookup(s.reg.sh, id) == Some(e)
    ensures Reachable(OuterLock, s')
    ensures s' == s.(pc := s.pc[t := CallHas(id, e, poll)], readers := s.readers + {t})
  {
    var s1 := CallOne(OuterLock, s, t, CallAcquire(id, poll));
    ReaderMove(s, t, CallRead(id, poll));
    s' := CallOne(OuterLock, s1, t, CallLookup);
    ReaderMove(s1, t, CallHas(id, e, poll));
    assert s.readers + {t} + {t} == s.readers + {t};
    assert s'.pc == s.pc[t := CallHas(id, e, poll)];
  }

  /** The slot answers that the conversation leaves. */
  lemma Signals(s: State, t: Task, poll: bool) returns (s': State)
    requires Reachable(OuterLock, s) && At(s, t) == CallHas(G, 0, poll) && s.writer.None? && s.registryLock.None?
    requires s.reg.sh.cells == [Cell(G, Live(0))] && |s.reg.convs| == 1 && s.reg.convs[0].phase.Working?
    ensures Reachable(OuterLock, s')
    ensures s' == s.(pc := s.pc[t := if poll then PollOut(G, 0, Some(0)) else FinRead(G, 0, 0)],
                     readers := s.readers + {t}, reg := SetPhase(s.reg, 0, Signalled(t)))
  {
    s' := CallOne(OuterLock, s, t, CallSlot(true));
    ReaderMove(s, t, if poll then PollOut(G, 0, Some(0)) else FinRead(G, 0, 0));
  }

  lemma Left(s: State) returns (s': State)
    requires Reachable(OuterLock, s) && Quiet(s)
    requires At(s, 1).Idle? && At(s, 0) == JoinWait(G, 0, 0) && At(s, 2).Idle?
    requires s.reg.sh.conversations == map[G := 0] && s.reg.sh.cells == [Cell(G, Live(0))]
    requires |s.reg.convs| == 1 && s.reg.convs[0].phase.Working?
    ensures Reachable(OuterLock, s') && Quiet(s')
    ensures At(s', 0) == JoinWait(G, 0, 0) && At(s', 2).Idle?
    ensures !Lists(s'.reg, G) && |s'.reg.sh.cells| == 1
  {
    var s1 := CallUp(s, 1, G, 0, false);
    var s2 := Signals(s1, 1, false);
    var s3 := LeaveRemoves1(s2);
    s' := LeaveLogs1(s3);
  }

  lemma LeaveRemoves1(s: State) returns (s': State)
    requires Reachable(OuterLock, s) && At(s, 1) == FinRead(G, 0, 0)
    requires s.writer.None? && s.readers == {1} && s.registryLock.None?
    ensures Reachable(OuterLock, s') && s'.writer.None? && s'.readers == {1} && s'.registryLock.None?
    ensures s'.pc == s.pc[1 := FinEmit(G, 0, 0)]
    ensures !Lists(s'.reg, G) && s'.reg.sh.cells == s.reg.sh.cells
  {
    s' := LeaveOne(OuterLock, s, 1, LeaveRemove);
    ReaderMove(s, 1, FinEmit(G, 0, 0));
  }

  lemma LeaveLogs1(s: State) returns (s': State)
    requires Reachable(OuterLock, s) && At(s, 1) == FinEmit(G, 0, 0)
    requires s.writer.None? && s.readers == {1} && s.registryLock.None?
    ensures Reachable(OuterLock, s') && Quiet(s')
    ensures s'.pc == s.pc[1 := Idle]
    ensures s'.reg.sh.conversations == s.reg.sh.conversations && s'.reg.sh.cells == s.reg.sh.cells
  {
    s' := LeaveOne(OuterLock, s, 1, LeaveEmit);
    ReaderMove(s, 1, Idle);
  }

  /** A poll is told that the conversation leaves, and its flush fails: five steps from a quiet registry. */
  lemma FlushDropsTheSignal() returns (s: State)
    ensures Reachable(OuterLock, s) && LostAt(s.reg, 0) && ListedConv(s.reg, G) == Some(0)
  {
    var s0 := CreatedOne();
    var s1 := CallOne(OuterLock, s0, 0, StartPolling(G));
    ReaderMove(s0, 0, PollIdle(G));
    var s2 := CallUp(s1, 0, G, 0, true);
    var s3 := Signals(s2, 0, true);
    s := SignalDropped(s3);
  }

  lemma SignalDropped(s: State) returns (s': State)
    requires Reachable(OuterLock, s) && At(s, 0) == PollOut(G, 0, Some(0))
    requires s.reg.sh.conversations == map[G := 0] && s.reg.sh.cells == [Cell(G, Live(0))] && |s.reg.convs| == 1
    ensures Reachable(OuterLock, s') && LostAt(s'.reg, 0) && ListedConv(s'.reg, G) == Some(0)
  {
    s' := CallOne(OuterLock, s, 0, PollFlush(false));
  }

  /** A conversation created on an empty registry. */
  lemma CreatedOne() returns (s: State)
    ensures Reachable(OuterLock, s) && Quiet(s) && At(s, 0).Idle?
    ensures s.reg.sh.conversations == map[G := 0] && s.reg.sh.cells == [Cell(G, Live(0))]
    ensures |s.reg.convs| == 1 && s.reg.convs[0].phase.Working?
  {
    ReachStart(OuterLock);
    var entered := EnteredUp(OuterLock, INIT, 0, G, Create);
    s := InstallDone(entered, 0);
  }
}
