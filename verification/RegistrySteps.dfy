/**
 Every step of the registry protocol keeps the invariant. First what a single effect on the
 registry preserves and what it leaves a task knowing that did not cause it; then one lemma per
 conjunct and kind of call.
 */
module RegistrySteps {
  import opened Wrappers
  import opened Registry
  import opened RegistryProtocol
  import opened RegistryInvariant

  // ── Locks ───────────────────────────────────────────────────────────────

  lemma MoveKeepsLocks(s: State, t: Task, p: Pc)
    requires Locks(s)
    requires HoldsWrite(p) && !HoldsWrite(At(s, t)) ==> s.writer.None? && s.readers == {}
    requires HoldsRead(p) && !HoldsRead(At(s, t)) ==> s.writer.None?
    requires HoldsRegistry(p) && !HoldsRegistry(At(s, t)) ==> s.registryLock.None?
    requires !(HoldsWrite(p) && HoldsRead(p))
    ensures Locks(Move(s, t, p))
  {
  }

  lemma WriterAlone(s: State, t: Task)
    requires Locks(s) && HoldsWrite(At(s, t))
    ensures s.writer == Some(t)
    ensures forall u: Task :: u != t ==> !HoldsWrite(At(s, u)) && !Behind(At(s, u))
  {
    forall u: Task | u != t ensures !HoldsWrite(At(s, u)) && !Behind(At(s, u)) {
      if HoldsRead(At(s, u)) {
        assert u in s.readers;
      }
    }
  }

  lemma ReaderNoWriter(s: State, t: Task)
    requires Locks(s) && HoldsRead(At(s, t))
    ensures s.writer.None?
  {
    assert t in s.readers;
  }

  // ── Effects keep the cells consistent ───────────────────────────────────

  lemma CellsAdd(r: Reg, t: Task, id: Id)
    requires Cells(r)
    ensures Cells(AddPending(r, t, id))
  {
    var r' := AddPending(r, t, id);
    assert forall e: Entry, i: Instance :: Holds(r', e, i) ==> Holds(r, e, i);
    assert forall i: Instance, id': Id :: Installed(r', i, id') ==> Installed(r, i, id');
  }

  lemma CellsBuild(r: Reg, id: Id)
    requires Cells(r)
    ensures Cells(BuildConv(r, id))
  {
    var r' := BuildConv(r, id);
    assert forall e: Entry, i: Instance :: Holds(r', e, i) ==> Holds(r, e, i);
    assert forall i: Instance, id': Id :: Installed(r', i, id') ==> Installed(r, i, id');
    assert forall id': Id :: ListedConv(r', id') == ListedConv(r, id') by {
      forall id': Id ensures ListedConv(r', id') == ListedConv(r, id') {
        if Lists(r, id') && r.sh.cells[r.sh.conversations[id']].slot.Live? {
          assert Holds(r, r.sh.conversations[id'], r.sh.cells[r.sh.conversations[id']].slot.instance);
        }
      }
    }
  }

  lemma CellsFill(r: Reg, id: Id, e: Entry, i: Instance)
    requires Cells(r) && Newest(r, i, id) && Lookup(r.sh, id) == Some(e) && r.sh.cells[e].slot.Pending?
    ensures Cells(FillCell(r, e, i))
    ensures ListedConv(FillCell(r, e, i), id) == Some(i)
  {
    var r' := FillCell(r, e, i);
    assert forall f: Entry, j: Instance :: Holds(r', f, j) ==> Holds(r, f, j) || (f == e && j == i);
    assert forall j: Instance, id': Id :: Installed(r', j, id') ==> Installed(r, j, id') || (j == i && id' == id);
  }

  lemma CellsPhase(r: Reg, i: Instance, p: Phase)
    requires Cells(r) && i < |r.convs| && !r.convs[i].phase.Building? && !r.convs[i].phase.Evicted?
    requires !p.Building? && !p.Evicted?
    ensures Cells(SetPhase(r, i, p))
  {
    var r' := SetPhase(r, i, p);
    assert forall e: Entry, j: Instance :: Holds(r', e, j) ==> Holds(r, e, j);
    assert forall j: Instance, id': Id :: Installed(r', j, id') ==> Installed(r, j, id');
  }

  /** Nothing is held or installed that was not before. */
  lemma EvictHolds(r: Reg, id: Id)
    requires Cells(r)
    ensures forall e: Entry, j: Instance :: Holds(Evict(r, id), e, j) <==> Holds(r, e, j)
    ensures forall j: Instance, id': Id :: Installed(Evict(r, id), j, id') ==> Installed(r, j, id')
  {
    var found := ListedConv(r, id);
    if found.Some? {
      assert Holds(r, r.sh.conversations[id], found.value);
    }
  }

  lemma EvictHomes(r: Reg, id: Id, j: Instance, id': Id)
    requires Cells(r) && Installed(Evict(r, id), j, id')
    ensures var r' := Evict(r, id);
            Holds(r', r'.convs[j].home, j) && (Registered(r', r'.convs[j].home) <==> !r'.convs[j].phase.Evicted?)
  {
    EvictHolds(r, id);
    assert Installed(r, j, id');
    assert Holds(r, r.convs[j].home, j);
  }

  lemma EvictListed(r: Reg, id: Id, j: Instance, id': Id)
    requires Cells(r) && Installed(Evict(r, id), j, id') && ListedConv(Evict(r, id), id').Some?
    ensures j <= ListedConv(Evict(r, id), id').value
  {
    EvictHolds(r, id);
    OthersListed(r, id);
    assert id' != id;
    assert Installed(r, j, id');
  }

  lemma EvictCells(r: Reg, id: Id, e: Entry, j: Instance)
    requires Cells(r) && Holds(Evict(r, id), e, j)
    ensures Installed(Evict(r, id), j, Evict(r, id).sh.cells[e].key) && Evict(r, id).convs[j].home == e
  {
    EvictHolds(r, id);
    assert Holds(r, e, j);
  }

  lemma CellsEvict(r: Reg, id: Id)
    requires Cells(r)
    ensures Cells(Evict(r, id)) && ListedConv(Evict(r, id), id).None?
  {
    var r' := Evict(r, id);
    forall e: Entry, j: Instance | Holds(r', e, j)
      ensures Installed(r', j, r'.sh.cells[e].key) && r'.convs[j].home == e
    {
      EvictCells(r, id, e, j);
    }
    forall j: Instance, id': Id | Installed(r', j, id')
      ensures Holds(r', r'.convs[j].home, j) && (Registered(r', r'.convs[j].home) <==> !r'.convs[j].phase.Evicted?)
    {
      EvictHomes(r, id, j, id');
    }
    forall j: Instance, id': Id | Installed(r', j, id') && ListedConv(r', id').Some?
      ensures j <= ListedConv(r', id').value
    {
      EvictListed(r, id, j, id');
    }
  }

  lemma CellsLog(r: Reg, log: seq<Lifecycle>)
    requires Cells(r)
    ensures Cells(r.(sh := r.sh.(lifecycle := log)))
  {
    var r' := r.(sh := r.sh.(lifecycle := log));
    assert forall e: Entry, j: Instance :: Holds(r', e, j) ==> Holds(r, e, j);
    assert forall j: Instance, id': Id :: Installed(r', j, id') ==> Installed(r, j, id');
    assert forall id' :: ListedConv(r', id') == ListedConv(r, id');
  }

  lemma CellsEvents(r: Reg, c: Conv, i: Instance)
    requires Cells(r) && i < |r.convs|
    requires c.id == r.convs[i].id && c.phase == r.convs[i].phase && c.home == r.convs[i].home
    ensures Cells(r.(convs := r.convs[i := c]))
  {
    var r' := r.(convs := r.convs[i := c]);
    assert forall e: Entry, j: Instance :: Holds(r', e, j) ==> Holds(r, e, j);
    assert forall j: Instance, id': Id :: Installed(r', j, id') ==> Installed(r, j, id');
    assert forall id' :: ListedConv(r', id') == ListedConv(r, id');
  }

  lemma SameListed(r: Reg, r': Reg)
    requires Cells(r) && r'.sh.conversations == r.sh.conversations && r'.sh.cells == r.sh.cells
    requires |r.convs| <= |r'.convs|
    ensures forall id: Id :: ListedConv(r', id) == ListedConv(r, id)
  {
    forall id: Id ensures ListedConv(r', id) == ListedConv(r, id) {
      if Lists(r, id) && r.sh.cells[r.sh.conversations[id]].slot.Live? {
        assert Holds(r, r.sh.conversations[id], r.sh.cells[r.sh.conversations[id]].slot.instance);
      }
    }
  }

  lemma OthersListed(r: Reg, id: Id)
    requires Cells(r)
    ensures forall other: Id :: other != id ==> ListedConv(Evict(r, id), other) == ListedConv(r, other)
  {
  }

  lemma LeaveFindsIt(r: Reg, t: Task, p: Pc)
    requires Cells(r) && Knows(r, t, p) && p.FinRead?
    ensures ListedConv(r, p.id) == Some(p.i) && Lookup(r.sh, p.id) == Some(p.e)
  {
    assert Holds(r, p.e, p.i);
    assert Installed(r, p.i, p.id);
  }

  // ── Effects leave the other tasks' knowledge intact ─────────────────────
  // `p` is where task `u` stands; what it holds there decides which effects can reach it.

  lemma StableAdd(r: Reg, t: Task, id: Id, u: Task, p: Pc)
    requires Cells(r) && Knows(r, u, p) && !HoldsWrite(p) && !HoldsRegistry(p)
    ensures Knows(AddPending(r, t, id), u, p)
  {
  }

  lemma StableBuild(r: Reg, id: Id, u: Task, p: Pc)
    requires Cells(r) && Knows(r, u, p) && !HoldsWrite(p)
    ensures Knows(BuildConv(r, id), u, p)
  {
    CellsBuild(r, id);
    assert p.FinEmit? && ListedConv(BuildConv(r, id), p.id).Some? ==>
        Holds(r, r.sh.conversations[p.id], ListedConv(BuildConv(r, id), p.id).value);
  }

  lemma StableFill(r: Reg, e: Entry, i: Instance, u: Task, p: Pc)
    requires Cells(r) && Knows(r, u, p) && !HoldsWrite(p) && !HoldsRead(p)
    requires i < |r.convs| && r.convs[i].phase.Building? && e < |r.sh.cells| && r.sh.cells[e].slot.Pending?
    ensures Knows(FillCell(r, e, i), u, p)
  {
  }

  lemma StablePhase(r: Reg, i: Instance, ph: Phase, u: Task, p: Pc)
    requires Knows(r, u, p) && i < |r.convs|
    requires !r.convs[i].phase.Building? && !r.convs[i].phase.Evicted? && !ph.Building?
    requires r.convs[i].phase != Signalled(u)
    ensures Knows(SetPhase(r, i, ph), u, p)
  {
  }

  lemma StableEvict(r: Reg, id: Id, u: Task, p: Pc)
    requires Cells(r) && Knows(r, u, p) && !HoldsWrite(p) && !HoldsRegistry(p)
    requires ListedConv(r, id).Some? ==> r.convs[ListedConv(r, id).value].phase != Signalled(u)
    ensures Knows(Evict(r, id), u, p)
  {
  }

  lemma StableEvents(r: Reg, c: Conv, i: Instance, u: Task, p: Pc)
    requires Knows(r, u, p) && i < |r.convs|
    requires c.id == r.convs[i].id && c.phase == r.convs[i].phase && c.home == r.convs[i].home
    ensures Knows(r.(convs := r.convs[i := c]), u, p)
  {
  }

  lemma StableLog(r: Reg, log: seq<Lifecycle>, u: Task, p: Pc)
    requires Knows(r, u, p)
    ensures Knows(r.(sh := r.sh.(lifecycle := log)), u, p)
  {
  }

  // ── Locks, cells and tasks, call by call ────────────────────────────────

  /** What `Move` decides of the locks is all there is of them. */
  lemma SameLocks(s: State, s': State)
    requires Locks(s) && s'.pc == s.pc && s'.writer == s.writer
    requires s'.readers == s.readers && s'.registryLock == s.registryLock
    ensures Locks(s')
  {
    assert forall t: Task :: At(s', t) == At(s, t);
  }

  lemma WriteMove(s: State, t: Task, w: WriteStep)
    requires CanWrite(s, t, w)
    ensures var s', p := DoWrite(s, t, w), At(DoWrite(s, t, w), t);
            && s'.pc == Move(s, t, p).pc && s'.writer == Move(s, t, p).writer
            && s'.readers == Move(s, t, p).readers && s'.registryLock == Move(s, t, p).registryLock
            && !HoldsRead(p) && !HoldsRegistry(p)
            && (HoldsWrite(p) && !HoldsWrite(At(s, t)) ==> w.WriteAcquire?)
  {
  }

  lemma WriteLocks(s: State, t: Task, w: WriteStep)
    requires Locks(s) && Enabled(OuterLock, s, Write(t, w))
    ensures Locks(DoWrite(s, t, w))
  {
    var p := At(DoWrite(s, t, w), t);
    WriteMove(s, t, w);
    MoveKeepsLocks(s, t, p);
    SameLocks(Move(s, t, p), DoWrite(s, t, w));
  }

  lemma WriteCells(s: State, t: Task, w: WriteStep)
    requires Cells(s.reg) && Knows(s.reg, t, At(s, t)) && CanWrite(s, t, w)
    ensures Cells(DoWrite(s, t, w).reg)
    ensures Knows(DoWrite(s, t, w).reg, t, At(DoWrite(s, t, w), t))
  {
    var p := At(s, t);
    match w {
      case Build => CellsBuild(s.reg, p.id);
      case Enter => CellsAdd(s.reg, t, p.id);
      case Fill => if s.reg.sh.cells[p.e].slot.Pending? { CellsFill(s.reg, p.id, p.e, p.i); }
      case EmitCreated => CellsLog(s.reg, s.reg.sh.lifecycle + [Created(p.id)]);
      case _ =>
    }
  }

  lemma WriteOthers(s: State, t: Task, w: WriteStep, u: Task)
    requires Locks(s) && Cells(s.reg) && Tasks(s) && Enabled(OuterLock, s, Write(t, w)) && u != t
    ensures Knows(DoWrite(s, t, w).reg, u, At(s, u))
  {
    var p, q := At(s, t), At(s, u);
    assert Knows(s.reg, t, p) && Knows(s.reg, u, q);
    match w {
      case Build => StableBuild(s.reg, p.id, u, q);
      case Enter => StableAdd(s.reg, t, p.id, u, q);
      case Fill => if s.reg.sh.cells[p.e].slot.Pending? { StableFill(s.reg, p.e, p.i, u, q); }
      case EmitCreated => StableLog(s.reg, s.reg.sh.lifecycle + [Created(p.id)], u, q);
      case _ =>
    }
  }

  lemma JoinLocks(s: State, t: Task, j: JoinStep)
    requires Locks(s) && Enabled(OuterLock, s, Join(t, j))
    ensures Locks(DoJoin(s, t, j))
  {
    MoveKeepsLocks(s, t, At(DoJoin(s, t, j), t));
  }

  lemma JoinCells(s: State, t: Task, j: JoinStep)
    requires Cells(s.reg) && Knows(s.reg, t, At(s, t)) && CanJoin(s, t, j)
    ensures Cells(DoJoin(s, t, j).reg)
    ensures Knows(DoJoin(s, t, j).reg, t, At(DoJoin(s, t, j), t))
  {
    var p := At(s, t);
    if j.Begin? {
      CellsAdd(s.reg, t, p.id);
    }
  }

  lemma JoinOthers(s: State, t: Task, j: JoinStep, u: Task)
    requires Locks(s) && Cells(s.reg) && Tasks(s) && Enabled(OuterLock, s, Join(t, j)) && u != t
    ensures Knows(DoJoin(s, t, j).reg, u, At(s, u))
  {
    var p, q := At(s, t), At(s, u);
    assert Knows(s.reg, t, p) && Knows(s.reg, u, q);
    if j.Begin? {
      StableAdd(s.reg, t, p.id, u, q);
    }
  }

  lemma AbandonLocks(s: State, t: Task, b: AbandonStep)
    requires Locks(s) && Enabled(OuterLock, s, Abandon(t, b))
    ensures Locks(DoAbandon(s, t, b))
  {
    MoveKeepsLocks(s, t, At(DoAbandon(s, t, b), t));
  }

  lemma AbandonCells(s: State, t: Task, b: AbandonStep)
    requires Cells(s.reg) && Knows(s.reg, t, At(s, t)) && CanAbandon(s, t, b)
    ensures Cells(DoAbandon(s, t, b).reg)
    ensures Knows(DoAbandon(s, t, b).reg, t, At(DoAbandon(s, t, b), t))
  {
    var p := At(s, t);
    if b.AbandonDrop? {
      CellsEvict(s.reg, p.id);
    }
  }

  lemma AbandonOthers(s: State, t: Task, b: AbandonStep, u: Task)
    requires Locks(s) && Cells(s.reg) && Tasks(s) && Enabled(OuterLock, s, Abandon(t, b)) && u != t
    ensures Knows(DoAbandon(s, t, b).reg, u, At(s, u))
  {
    var p, q := At(s, t), At(s, u);
    assert Knows(s.reg, t, p) && Knows(s.reg, u, q);
    if b.AbandonDrop? {
      StableEvict(s.reg, p.id, u, q);
    }
  }

  lemma CallLocks(s: State, t: Task, c: CallStep)
    requires Locks(s) && Enabled(OuterLock, s, Call(t, c))
    ensures Locks(DoCall(s, t, c))
  {
    MoveKeepsLocks(s, t, At(DoCall(s, t, c), t));
  }

  lemma CallCells(s: State, t: Task, c: CallStep)
    requires Cells(s.reg) && Knows(s.reg, t, At(s, t)) && CanCall(s, t, c)
    ensures Cells(DoCall(s, t, c).reg)
    ensures Knows(DoCall(s, t, c).reg, t, At(DoCall(s, t, c), t))
  {
    CallCellsOnly(s, t, c);
    CallKnows(s, t, c);
  }

  lemma CallCellsOnly(s: State, t: Task, c: CallStep)
    requires Cells(s.reg) && Knows(s.reg, t, At(s, t)) && CanCall(s, t, c)
    ensures Cells(DoCall(s, t, c).reg)
  {
    var p := At(s, t);
    if c.CallSlot? && c.leave {
      CellsPhase(s.reg, s.reg.sh.cells[p.e].slot.instance, Signalled(t));
    } else if c.PollFlush? && p.leave.Some? && !c.ok {
      CellsPhase(s.reg, p.leave.value, Lost);
    } else {
      assert DoCall(s, t, c).reg == s.reg;
    }
  }

  lemma CallKnows(s: State, t: Task, c: CallStep)
    requires Cells(s.reg) && Knows(s.reg, t, At(s, t)) && CanCall(s, t, c)
    ensures Knows(DoCall(s, t, c).reg, t, At(DoCall(s, t, c), t))
  {
    if c.CallSlot? {
      SlotKnows(s, t, c.leave);
    }
  }

  lemma SlotKnows(s: State, t: Task, leave: bool)
    requires Cells(s.reg) && Knows(s.reg, t, At(s, t)) && CanCall(s, t, CallSlot(leave))
    ensures Knows(DoCall(s, t, CallSlot(leave)).reg, t, At(DoCall(s, t, CallSlot(leave)), t))
  {
  }

  lemma CallOthers(s: State, t: Task, c: CallStep, u: Task)
    requires Locks(s) && Cells(s.reg) && Tasks(s) && Enabled(OuterLock, s, Call(t, c)) && u != t
    ensures Knows(DoCall(s, t, c).reg, u, At(s, u))
  {
    var p, q := At(s, t), At(s, u);
    assert Knows(s.reg, t, p) && Knows(s.reg, u, q);
    if c.CallSlot? && c.leave {
      StablePhase(s.reg, s.reg.sh.cells[p.e].slot.instance, Signalled(t), u, q);
    } else if c.PollFlush? && p.leave.Some? && !c.ok {
      StablePhase(s.reg, p.leave.value, Lost, u, q);
    }
  }

  lemma LeaveLocks(s: State, t: Task, l: LeaveStep)
    requires Locks(s) && Enabled(OuterLock, s, Leave(t, l))
    ensures Locks(DoLeave(s, t, l))
  {
    MoveKeepsLocks(s, t, At(DoLeave(s, t, l), t));
  }

  lemma LeaveCells(s: State, t: Task, l: LeaveStep)
    requires Cells(s.reg) && Knows(s.reg, t, At(s, t)) && CanLeave(s, t, l)
    ensures Cells(DoLeave(s, t, l).reg)
    ensures Knows(DoLeave(s, t, l).reg, t, At(DoLeave(s, t, l), t))
  {
    var p := At(s, t);
    if l.LeaveRemove? {
      LeaveFindsIt(s.reg, t, p);
      CellsEvict(s.reg, p.id);
    } else if l.LeaveEmit? {
      CellsLog(s.reg, s.reg.sh.lifecycle + [Removed(p.id)]);
    }
  }

  lemma LeaveOthers(s: State, t: Task, l: LeaveStep, u: Task)
    requires Locks(s) && Cells(s.reg) && Tasks(s) && Enabled(OuterLock, s, Leave(t, l)) && u != t
    ensures Knows(DoLeave(s, t, l).reg, u, At(s, u))
  {
    var p, q := At(s, t), At(s, u);
    assert Knows(s.reg, t, p) && Knows(s.reg, u, q);
    if l.LeaveRemove? {
      LeaveFindsIt(s.reg, t, p);
      StableEvict(s.reg, p.id, u, q);
    } else if l.LeaveEmit? {
      StableLog(s.reg, s.reg.sh.lifecycle + [Removed(p.id)], u, q);
    }
  }

  lemma WriteTasks(s: State, t: Task, w: WriteStep)
    requires Locks(s) && Cells(s.reg) && Tasks(s) && Enabled(OuterLock, s, Write(t, w))
    ensures Tasks(DoWrite(s, t, w))
  {
    var s' := DoWrite(s, t, w);
    assert Knows(s.reg, t, At(s, t));
    WriteCells(s, t, w);
    forall u: Task ensures Knows(s'.reg, u, At(s', u)) {
      if u != t {
        WriteOthers(s, t, w, u);
        assert At(s', u) == At(s, u);
      }
    }
  }

  lemma JoinTasks(s: State, t: Task, j: JoinStep)
    requires Locks(s) && Cells(s.reg) && Tasks(s) && Enabled(OuterLock, s, Join(t, j))
    ensures Tasks(DoJoin(s, t, j))
  {
    var s' := DoJoin(s, t, j);
    assert Knows(s.reg, t, At(s, t));
    JoinCells(s, t, j);
    forall u: Task ensures Knows(s'.reg, u, At(s', u)) {
      if u != t {
        JoinOthers(s, t, j, u);
        assert At(s', u) == At(s, u);
      }
    }
  }

  lemma AbandonTasks(s: State, t: Task, b: AbandonStep)
    requires Locks(s) && Cells(s.reg) && Tasks(s) && Enabled(OuterLock, s, Abandon(t, b))
    ensures Tasks(DoAbandon(s, t, b))
  {
    var s' := DoAbandon(s, t, b);
    assert Knows(s.reg, t, At(s, t));
    AbandonCells(s, t, b);
    forall u: Task ensures Knows(s'.reg, u, At(s', u)) {
      if u != t {
        AbandonOthers(s, t, b, u);
        assert At(s', u) == At(s, u);
      }
    }
  }

  lemma CallTasks(s: State, t: Task, c: CallStep)
    requires Locks(s) && Cells(s.reg) && Tasks(s) && Enabled(OuterLock, s, Call(t, c))
    ensures Tasks(DoCall(s, t, c))
  {
    var s' := DoCall(s, t, c);
    assert Knows(s.reg, t, At(s, t));
    CallCells(s, t, c);
    forall u: Task ensures Knows(s'.reg, u, At(s', u)) {
      if u != t {
        CallOthers(s, t, c, u);
        assert At(s', u) == At(s, u);
      }
    }
  }

  lemma LeaveTasks(s: State, t: Task, l: LeaveStep)
    requires Locks(s) && Cells(s.reg) && Tasks(s) && Enabled(OuterLock, s, Leave(t, l))
    ensures Tasks(DoLeave(s, t, l))
  {
    var s' := DoLeave(s, t, l);
    assert Knows(s.reg, t, At(s, t));
    LeaveCells(s, t, l);
    forall u: Task ensures Knows(s'.reg, u, At(s', u)) {
      if u != t {
        LeaveOthers(s, t, l, u);
        assert At(s', u) == At(s, u);
      }
    }
  }
}
