/**
 Properties of the registry that speak of a whole run and not of the state it ends in: how often a
 join reads, whose slot an abandon drops, and which leave signals are lost.
 */
module RegistryHistory {
  import opened Wrappers
  import opened Registry
  import opened RegistryProtocol
  import opened RegistryInvariant
  import opened RegistrySteps
  import opened RegistryRuns
  import opened RegistryTheorems
  import opened RegistryExact

  ghost predicate IsRun(run: seq<Action>) {
    Exec(OuterLock, INIT, run).Some?
  }

  /** The state before step `k`; for `k == |run|` the state the run ends in. */
  function Before(run: seq<Action>, k: nat): State
    requires k <= |run|
  {
    match Exec(OuterLock, INIT, run[..k])
    case Some(s) => s
    case None => INIT
  }

  function Final(run: seq<Action>): State {
    Before(run, |run|)
  }

  lemma RunLast(run: seq<Action>)
    requires IsRun(run) && run != []
    ensures var front, last := run[..|run| - 1], run[|run| - 1];
            && IsRun(front)
            && Enabled(OuterLock, Final(front), last)
            && Final(run) == Apply(Final(front), last)
            && forall k :: 0 <= k < |run| ==> Before(front, k) == Before(run, k)
  {
    var front := run[..|run| - 1];
    assert run[..|run|] == run && front[..|front|] == front;
    forall k | 0 <= k < |run| ensures Before(front, k) == Before(run, k) {
      assert front[..k] == run[..k];
    }
  }

  lemma FinalInv(run: seq<Action>)
    requires IsRun(run)
    ensures Inv(Final(run)) && Reachable(OuterLock, Final(run))
  {
    assert run[..|run|] == run;
    assert Exec(OuterLock, INIT, run) == Some(Final(run));
    ReachableInv(Final(run));
  }

  lemma {:induction false} RunPrefix(run: seq<Action>, k: nat)
    requires IsRun(run) && k <= |run|
    ensures IsRun(run[..k]) && Final(run[..k]) == Before(run, k)
    ensures k < |run| ==> Enabled(OuterLock, Before(run, k), run[k])
                          && Before(run, k + 1) == Apply(Before(run, k), run[k])
  {
    if k == |run| {
      assert run[..k] == run;
    } else if k + 1 == |run| {
      RunLast(run);
      assert run[..k + 1] == run && run[..k][..k] == run[..k];
    } else {
      RunLast(run);
      RunPrefix(run[..|run| - 1], k);
      assert run[..|run| - 1][..k] == run[..k] && run[..|run| - 1][..k + 1] == run[..k + 1];
    }
  }

  // ── How often a join reads ──────────────────────────────────────────────

  /** Step `k` is a state read of task `t`, waiting for the slot `e` it inserted. */
  predicate ReadsFor(run: seq<Action>, k: nat, t: Task, e: Entry)
    requires k < |run|
  {
    run[k] == Join(t, WaitLookup) && Joining(At(Before(run, k), t), e)
  }

  function ReadRounds(run: seq<Action>, t: Task, e: Entry): set<nat> {
    set k: nat | k < |run| && ReadsFor(run, k, t, e)
  }

  /** What the program counter says of the reads made so far. */
  predicate Counted(p: Pc, e: Entry, reading: nat) {
    && reading <= MAX_JOIN_ROUNDS
    && (p.JoinSetup? && p.mine == e ==> reading == 0)
    && (p.JoinWait? && p.mine == e ==> reading == p.round)
    && (p.JoinRead? && p.mine == e ==> reading == p.round)
    && (p.JoinLooked? && p.mine == e ==> reading == p.round + 1)
  }

  lemma OneMore(all: set<nat>, some: set<nat>, x: nat)
    requires x !in some && all == some + {x}
    ensures |all| == |some| + 1
  {
  }

  lemma ReadsBefore(run: seq<Action>, k: nat, t: Task, e: Entry)
    requires k + 1 < |run|
    ensures ReadsFor(run[..|run| - 1], k, t, e) <==> ReadsFor(run, k, t, e)
  {
    SameBefore(run, k);
  }

  lemma RoundsSnoc(run: seq<Action>, t: Task, e: Entry)
    requires run != []
    ensures ReadRounds(run, t, e)
            == ReadRounds(run[..|run| - 1], t, e) + if ReadsFor(run, |run| - 1, t, e) then {|run| - 1} else {}
  {
    forall k: nat | k + 1 < |run| ensures ReadsFor(run[..|run| - 1], k, t, e) <==> ReadsFor(run, k, t, e) {
      ReadsBefore(run, k, t, e);
    }
  }

  lemma ReadsSnoc(run: seq<Action>, t: Task, e: Entry)
    requires run != []
    ensures |ReadRounds(run, t, e)|
            == |ReadRounds(run[..|run| - 1], t, e)| + if ReadsFor(run, |run| - 1, t, e) then 1 else 0
  {
    RoundsSnoc(run, t, e);
    if ReadsFor(run, |run| - 1, t, e) {
      OneMore(ReadRounds(run, t, e), ReadRounds(run[..|run| - 1], t, e), |run| - 1);
    }
  }

  lemma CountJoin(s: State, t: Task, j: JoinStep, e: Entry, n: nat)
    requires CanJoin(s, t, j) && Knows(s.reg, t, At(s, t)) && Counted(At(s, t), e, n)
    requires e >= |s.reg.sh.cells| ==> n == 0
    ensures var reading := if j.WaitLookup? && Joining(At(s, t), e) then n + 1 else n;
            && Counted(At(DoJoin(s, t, j), t), e, reading)
            && (e >= |s.reg.sh.cells| ==> reading == 0)
            && |s.reg.sh.cells| <= |DoJoin(s, t, j).reg.sh.cells|
  {
  }

  lemma CountOther(s: State, a: Action, t: Task, e: Entry, n: nat)
    requires Ready(s, a) && Counted(At(s, t), e, n) && !(a.Join? && a.t == t)
    ensures Counted(At(Apply(s, a), t), e, n) && |s.reg.sh.cells| <= |Apply(s, a).reg.sh.cells|
  {
    CellsGrow(s, a);
    if a.Event? || a.Pump? || a.t != t {
      OthersStandStill(s, a, t);
    } else {
      NoJoinStarts(s, a, t);
    }
  }

  lemma CellsGrow(s: State, a: Action)
    requires Ready(s, a)
    ensures |s.reg.sh.cells| <= |Apply(s, a).reg.sh.cells|
  {
  }

  /** Steps of other calls lead no task to the reading places of a join. */
  lemma NoJoinStarts(s: State, a: Action, t: Task)
    requires Ready(s, a) && !a.Event? && !a.Pump? && !a.Join? && a.t == t
    ensures var q := At(Apply(s, a), t); !q.JoinSetup? && !q.JoinWait? && !q.JoinRead? && !q.JoinLooked?
  {
  }

  lemma {:induction false} ReadsCounted(run: seq<Action>, t: Task, e: Entry)
    requires IsRun(run)
    ensures Counted(At(Final(run), t), e, |ReadRounds(run, t, e)|)
    ensures e >= |Final(run).reg.sh.cells| ==> |ReadRounds(run, t, e)| == 0
  {
    if run == [] {
      assert ReadRounds(run, t, e) == {};
    } else {
      var front, a := run[..|run| - 1], run[|run| - 1];
      var s := Final(front);
      var n := |ReadRounds(front, t, e)|;
      RunLast(run);
      ReadsCounted(front, t, e);
      ReadsSnoc(run, t, e);
      FinalInv(front);
      assert Before(run, |run| - 1) == s;
      if a.Join? && a.t == t {
        assert Knows(s.reg, t, At(s, t));
        CountJoin(s, t, a.j, e, n);
      } else {
        CountOther(s, a, t, e, n);
      }
    }
  }

  /** In every run a join reads the state of its id at most 24 times for the slot it inserted. */
  lemma JoinReadsAtMost(run: seq<Action>, t: Task, e: Entry)
    requires IsRun(run)
    ensures |ReadRounds(run, t, e)| <= MAX_JOIN_ROUNDS
  {
    ReadsCounted(run, t, e);
  }

  // ── Which leave signals are lost ────────────────────────────────────────

  /** A poll that was told of `i`'s leave fails to flush, and the error replaces the answer. */
  predicate DropsSignal(s: State, a: Action, i: Instance) {
    a.Call? && a.c == PollFlush(false) && At(s, a.t).PollOut? && At(s, a.t).leave == Some(i)
  }

  lemma WriteLosesNone(s: State, t: Task, w: WriteStep, i: Instance)
    requires CanWrite(s, t, w) && LostAt(DoWrite(s, t, w).reg, i)
    ensures LostAt(s.reg, i)
  {
  }

  lemma CallLoses(s: State, t: Task, c: CallStep, i: Instance)
    requires CanCall(s, t, c)
    ensures LostAt(DoCall(s, t, c).reg, i) && !LostAt(s.reg, i) ==> DropsSignal(s, Call(t, c), i)
    ensures DropsSignal(s, Call(t, c), i) ==> LostAt(DoCall(s, t, c).reg, i)
  {
  }

  lemma EvictLosesNone(r: Reg, id: Id, i: Instance)
    requires LostAt(Evict(r, id), i)
    ensures LostAt(r, i)
  {
  }

  lemma OthersLoseNone(s: State, a: Action, i: Instance)
    requires Ready(s, a) && !a.Write? && !a.Call? && LostAt(Apply(s, a).reg, i)
    ensures LostAt(s.reg, i)
  {
    match a {
      case Abandon(t, b) =>
        if b.AbandonDrop? {
          EvictLosesNone(s.reg, At(s, t).id, i);
        }
      case Leave(t, l) =>
        if l.LeaveRemove? {
          EvictLosesNone(s.reg, At(s, t).id, i);
        }
      case _ =>
    }
  }

  lemma LostStep(s: State, a: Action, i: Instance)
    requires Inv(s) && Ready(s, a)
    ensures LostAt(Apply(s, a).reg, i) <==> LostAt(s.reg, i) || DropsSignal(s, a, i)
  {
    if LostAt(s.reg, i) {
      LostStays(s, a, i);
    }
    match a {
      case Call(t, c) => CallLoses(s, t, c, i);
      case Write(t, w) =>
        if LostAt(DoWrite(s, t, w).reg, i) {
          WriteLosesNone(s, t, w, i);
        }
      case _ =>
        if LostAt(Apply(s, a).reg, i) {
          OthersLoseNone(s, a, i);
        }
    }
  }

  predicate DropsAt(run: seq<Action>, k: nat, i: Instance)
    requires k < |run|
  {
    DropsSignal(Before(run, k), run[k], i)
  }

  ghost predicate Dropped(run: seq<Action>, i: Instance) {
    exists k: nat :: k < |run| && DropsAt(run, k, i)
  }

  lemma SameBefore(run: seq<Action>, k: nat)
    requires k < |run|
    ensures Before(run[..|run| - 1], k) == Before(run, k)
  {
    assert run[..|run| - 1][..k] == run[..k];
  }

  lemma DropsBefore(run: seq<Action>, k: nat, i: Instance)
    requires k + 1 < |run|
    ensures DropsAt(run[..|run| - 1], k, i) <==> DropsAt(run, k, i)
  {
    SameBefore(run, k);
  }

  lemma DropsLast(run: seq<Action>, i: Instance)
    requires run != []
    ensures DropsAt(run, |run| - 1, i) <==> DropsSignal(Final(run[..|run| - 1]), run[|run| - 1], i)
  {
    SameBefore(run, |run| - 1);
  }

  lemma DroppedMore(run: seq<Action>, i: Instance)
    requires run != [] && Dropped(run[..|run| - 1], i)
    ensures Dropped(run, i)
  {
    var k: nat :| k < |run| - 1 && DropsAt(run[..|run| - 1], k, i);
    DropsBefore(run, k, i);
  }

  lemma DroppedWas(run: seq<Action>, i: Instance)
    requires run != [] && Dropped(run, i) && !DropsAt(run, |run| - 1, i)
    ensures Dropped(run[..|run| - 1], i)
  {
    var k: nat :| k < |run| && DropsAt(run, k, i);
    DropsBefore(run, k, i);
  }

  lemma DroppedSnoc(run: seq<Action>, i: Instance)
    requires run != []
    ensures Dropped(run, i) <==> Dropped(run[..|run| - 1], i) || DropsAt(run, |run| - 1, i)
  {
    if Dropped(run[..|run| - 1], i) {
      DroppedMore(run, i);
    } else if Dropped(run, i) && !DropsAt(run, |run| - 1, i) {
      DroppedWas(run, i);
    }
  }

  /** A leave signal is lost exactly if some poll that was told of it failed to flush. */
  lemma {:induction false} LostExactly(run: seq<Action>, i: Instance)
    requires IsRun(run)
    ensures LostAt(Final(run).reg, i) <==> Dropped(run, i)
  {
    if run != [] {
      var front := run[..|run| - 1];
      RunLast(run);
      FinalInv(front);
      LostExactly(front, i);
      LostStep(Final(front), run[|run| - 1], i);
      DroppedSnoc(run, i);
      DropsLast(run, i);
    }
  }

  // ── Every other signal can be acted on ──────────────────────────────────

  /** Some continuation of a run in `s` is in `s'`. */
  ghost predicate Leads(s: State, s': State) {
    exists more :: Exec(OuterLock, s, more) == Some(s')
  }

  lemma LeadsNowhere(s: State)
    ensures Leads(s, s)
  {
    assert Exec(OuterLock, s, []) == Some(s);
  }

  lemma LeadsOn(s: State, now: State, a: Action)
    requires Leads(s, now) && Inv(now) && Enabled(OuterLock, now, a)
    ensures Leads(s, Apply(now, a)) && Inv(Apply(now, a))
  {
    var more :| Exec(OuterLock, s, more) == Some(now);
    assert (more + [a])[..|more|] == more;
    assert Exec(OuterLock, s, more + [a]) == Some(Apply(now, a));
    StepKeeps(now, a);
  }

  /** A next step of the writer, which nothing else can hold up; below, how many are left. */
  function WriterNext(p: Pc): WriteStep {
    match p
    case WriteHeld(_, _) => Refuse
    case Built(_, _) => Enter
    case Entered(_, _, _) => Fill
    case Filled(_, _) => EmitCreated
    case _ => WriteRelease
  }

  function WriterLeft(p: Pc): nat {
    match p
    case Built(_, _) => 4
    case Entered(_, _, _) => 3
    case WriteHeld(_, _) => 2
    case Filled(_, _) => 2
    case WriteDone => 1
    case _ => 0
  }

  lemma WriterCan(s: State, w: Task)
    requires Inv(s) && s.writer == Some(w)
    ensures CanWrite(s, w, WriterNext(At(s, w)))
  {
    assert HoldsWrite(At(s, w));
    assert Knows(s.reg, w, At(s, w));
    if s.registryLock.Some? {
      HolderReads(s);
    }
  }

  lemma HolderReads(s: State)
    requires Locks(s) && s.registryLock.Some?
    ensures s.writer.None?
  {
    assert HoldsRegistry(At(s, s.registryLock.value));
    assert HoldsRead(At(s, s.registryLock.value));
  }

  lemma WriterMoves(s: State, w: Task, t: Task)
    requires s.writer == Some(w) && t != w && HoldsWrite(At(s, w)) && CanWrite(s, w, WriterNext(At(s, w)))
    ensures var s' := DoWrite(s, w, WriterNext(At(s, w)));
            && At(s', t) == At(s, t)
            && (s'.writer.None? || (s'.writer == Some(w) && WriterLeft(At(s', w)) < WriterLeft(At(s, w))))
  {
  }

  /** A writer can always finish, without moving the leaving task. */
  lemma {:induction false} WriterEnds(from: State, s: State, t: Task) returns (s': State)
    requires Leads(from, s) && Inv(s) && At(s, t).FinWait?
    ensures Leads(from, s') && Inv(s') && At(s', t) == At(s, t) && s'.writer.None?
    decreases if s.writer.Some? then WriterLeft(At(s, s.writer.value)) + 1 else 0
  {
    if s.writer.None? {
      s' := s;
    } else {
      var w := s.writer.value;
      assert HoldsWrite(At(s, w));
      WriterCan(s, w);
      var a := Write(w, WriterNext(At(s, w)));
      WriterMoves(s, w, t);
      LeadsOn(from, s, a);
      s' := WriterEnds(from, Apply(s, a), t);
    }
  }

  function AbandonNext(p: Pc): AbandonStep {
    if p.AbandonHas? then AbandonCheck else AbandonDrop
  }

  lemma AbandonMoves(s: State, u: Task, t: Task)
    requires s.registryLock == Some(u) && t != u && HoldsRegistry(At(s, u))
    requires Valid(s.reg.sh) && Knows(s.reg, u, At(s, u))
    ensures var b := AbandonNext(At(s, u));
            && CanAbandon(s, u, b)
            && var s' := DoAbandon(s, u, b);
               && At(s', t) == At(s, t)
               && (s'.registryLock.None?
                   || (s'.registryLock == Some(u) && At(s, u).AbandonHas? && At(s', u).AbandonRemove?))
  {
  }

  /** Whoever holds the registry lock can always let it go. */
  lemma {:induction false} RegistryFreed(from: State, s: State, t: Task) returns (s': State)
    requires Leads(from, s) && Inv(s) && At(s, t).FinRead?
    ensures Leads(from, s') && Inv(s') && At(s', t) == At(s, t) && s'.registryLock.None?
    decreases if s.registryLock.None? then 0 else if At(s, s.registryLock.value).AbandonHas? then 2 else 1
  {
    if s.registryLock.None? {
      s' := s;
    } else {
      var u := s.registryLock.value;
      assert HoldsRegistry(At(s, u));
      assert Knows(s.reg, u, At(s, u));
      AbandonMoves(s, u, t);
      var a := Abandon(u, AbandonNext(At(s, u)));
      LeadsOn(from, s, a);
      s' := RegistryFreed(from, Apply(s, a), t);
    }
  }

  lemma LeaveWaits(from: State, s: State, t: Task, i: Instance) returns (s': State)
    requires Leads(from, s) && Inv(s) && At(s, t).FinWait? && At(s, t).i == i
    ensures Leads(from, s') && Inv(s') && At(s', t).FinRead? && At(s', t).i == i
  {
    var free := WriterEnds(from, s, t);
    LeadsOn(from, free, Leave(t, LeaveAcquire));
    s' := DoLeave(free, t, LeaveAcquire);
  }

  lemma LeaveRemoves(from: State, s: State, t: Task, i: Instance) returns (s': State)
    requires Leads(from, s) && Inv(s) && At(s, t).FinRead? && At(s, t).i == i
    ensures Leads(from, s') && i < |s'.reg.convs| && s'.reg.convs[i].phase.Evicted?
  {
    var free := RegistryFreed(from, s, t);
    LeadsOn(from, free, Leave(t, LeaveRemove));
    assert Knows(free.reg, t, At(free, t));
    LeaveFindsIt(free.reg, t, At(free, t));
    s' := DoLeave(free, t, LeaveRemove);
  }

  lemma FlushSucceeds(s: State, t: Task, i: Instance) returns (s': State)
    requires Inv(s) && At(s, t).PollOut? && At(s, t).leave == Some(i)
    ensures Leads(s, s') && Inv(s') && At(s', t).FinWait? && At(s', t).i == i
  {
    assert Knows(s.reg, t, At(s, t));
    LeadsNowhere(s);
    LeadsOn(s, s, Call(t, PollFlush(true)));
    s' := DoCall(s, t, PollFlush(true));
  }

  lemma HeldSignalEvicts(s: State, t: Task, i: Instance) returns (s': State)
    requires Inv(s) && Carries(At(s, t), i)
    ensures Leads(s, s') && i < |s'.reg.convs| && s'.reg.convs[i].phase.Evicted?
  {
    LeadsNowhere(s);
    var told := s;
    if At(s, t).PollOut? {
      told := FlushSucceeds(s, t, i);
    }
    if At(told, t).FinWait? {
      told := LeaveWaits(s, told, t, i);
    }
    s' := LeaveRemoves(s, told, t, i);
  }

  /** Some continuation evicts `i`. */
  ghost predicate CanEvict(s: State, i: Instance) {
    exists s' :: Leads(s, s') && i < |s'.reg.convs| && s'.reg.convs[i].phase.Evicted?
  }

  /**
   A conversation that has asked to leave, and is not evicted yet, can still be exactly if no poll
   dropped its signal.
   */
  lemma EvictableExactly(run: seq<Action>, i: Instance)
    requires IsRun(run) && i < |Final(run).reg.convs|
    requires Final(run).reg.convs[i].phase.Signalled? || Final(run).reg.convs[i].phase.Lost?
    ensures CanEvict(Final(run), i) <==> !Dropped(run, i)
  {
    var s := Final(run);
    FinalInv(run);
    LostExactly(run, i);
    if s.reg.convs[i].phase.Signalled? {
      var s' := HeldSignalEvicts(s, s.reg.convs[i].phase.task, i);
    } else if CanEvict(s, i) {
      LostNeverEvicted(s, i);
    }
  }

  lemma LostNeverEvicted(s: State, i: Instance)
    requires Reachable(OuterLock, s) && LostAt(s.reg, i)
    ensures !CanEvict(s, i)
  {
    forall s' | Leads(s, s') && i < |s'.reg.convs| ensures !s'.reg.convs[i].phase.Evicted? {
      var more :| Exec(OuterLock, s, more) == Some(s');
      LostSignalStrands(s, more, i);
    }
  }

  // ── Whose slot an abandon drops ─────────────────────────────────────────

  /** The step takes `id` off the map: a leave, or an abandon that found it pending. */
  predicate Unlists(s: State, a: Action, id: Id) {
    || (a.Leave? && a.l.LeaveRemove? && At(s, a.t).FinRead? && At(s, a.t).id == id)
    || (a.Abandon? && a.b.AbandonDrop? && At(s, a.t).AbandonRemove? && At(s, a.t).id == id)
  }

  predicate UnlistsAt(run: seq<Action>, k: nat, id: Id)
    requires k < |run|
  {
    Unlists(Before(run, k), run[k], id)
  }

  ghost predicate UnlistedSince(run: seq<Action>, b: nat, id: Id) {
    exists k: nat :: b <= k < |run| && UnlistsAt(run, k, id)
  }

  lemma ListedWrite(s: State, t: Task, w: WriteStep, id: Id, m: Entry)
    requires CanWrite(s, t, w) && m < |s.reg.sh.cells|
    ensures Lookup(DoWrite(s, t, w).reg.sh, id) == Some(m) <==> Lookup(s.reg.sh, id) == Some(m)
  {
  }

  lemma ListedJoin(s: State, t: Task, j: JoinStep, id: Id, m: Entry)
    requires CanJoin(s, t, j) && m < |s.reg.sh.cells|
    ensures Lookup(DoJoin(s, t, j).reg.sh, id) == Some(m) <==> Lookup(s.reg.sh, id) == Some(m)
  {
  }

  lemma ListedAbandon(s: State, t: Task, b: AbandonStep, id: Id, m: Entry)
    requires CanAbandon(s, t, b)
    ensures Lookup(DoAbandon(s, t, b).reg.sh, id) == Some(m)
            <==> Lookup(s.reg.sh, id) == Some(m) && !Unlists(s, Abandon(t, b), id)
  {
  }

  lemma ListedLeave(s: State, t: Task, l: LeaveStep, id: Id, m: Entry)
    requires CanLeave(s, t, l)
    ensures Lookup(DoLeave(s, t, l).reg.sh, id) == Some(m)
            <==> Lookup(s.reg.sh, id) == Some(m) && !Unlists(s, Leave(t, l), id)
  {
  }

  lemma ListedRest(s: State, a: Action)
    requires Ready(s, a) && (a.Call? || a.Pump? || a.Event?)
    ensures Apply(s, a).reg.sh.conversations == s.reg.sh.conversations
  {
  }

  /** An entry once allocated is never listed again after it was unlisted. */
  lemma ListedStep(s: State, a: Action, id: Id, m: Entry)
    requires Ready(s, a) && m < |s.reg.sh.cells|
    ensures Lookup(Apply(s, a).reg.sh, id) == Some(m) <==> Lookup(s.reg.sh, id) == Some(m) && !Unlists(s, a, id)
  {
    match a {
      case Write(t, w) => ListedWrite(s, t, w, id, m);
      case Join(t, j) => ListedJoin(s, t, j, id, m);
      case Abandon(t, b) => ListedAbandon(s, t, b, id, m);
      case Leave(t, l) => ListedLeave(s, t, l, id, m);
      case _ => ListedRest(s, a);
    }
  }

  lemma UnlistsBefore(run: seq<Action>, k: nat, id: Id)
    requires k + 1 < |run|
    ensures UnlistsAt(run[..|run| - 1], k, id) <==> UnlistsAt(run, k, id)
  {
    SameBefore(run, k);
  }

  lemma UnlistsLast(run: seq<Action>, id: Id)
    requires run != []
    ensures UnlistsAt(run, |run| - 1, id) <==> Unlists(Final(run[..|run| - 1]), run[|run| - 1], id)
  {
    SameBefore(run, |run| - 1);
  }

  lemma UnlistedMore(run: seq<Action>, b: nat, id: Id)
    requires run != [] && UnlistedSince(run[..|run| - 1], b, id)
    ensures UnlistedSince(run, b, id)
  {
    var k: nat :| b <= k < |run| - 1 && UnlistsAt(run[..|run| - 1], k, id);
    UnlistsBefore(run, k, id);
  }

  lemma UnlistedWas(run: seq<Action>, b: nat, id: Id)
    requires run != [] && UnlistedSince(run, b, id) && !UnlistsAt(run, |run| - 1, id)
    ensures UnlistedSince(run[..|run| - 1], b, id)
  {
    var k: nat :| b <= k < |run| && UnlistsAt(run, k, id);
    UnlistsBefore(run, k, id);
  }

  lemma UnlistedSnoc(run: seq<Action>, b: nat, id: Id)
    requires b < |run|
    ensures UnlistedSince(run, b, id)
            <==> UnlistedSince(run[..|run| - 1], b, id) || UnlistsAt(run, |run| - 1, id)
  {
    if UnlistedSince(run[..|run| - 1], b, id) {
      UnlistedMore(run, b, id);
    } else if UnlistedSince(run, b, id) && !UnlistsAt(run, |run| - 1, id) {
      UnlistedWas(run, b, id);
    }
  }

  /** From step `b` on, an entry listed there stays listed exactly until its id is taken off the map. */
  lemma {:induction false} StaysListed(run: seq<Action>, b: nat, id: Id, m: Entry)
    requires IsRun(run) && b <= |run|
    requires Lookup(Before(run, b).reg.sh, id) == Some(m) && m < |Before(run, b).reg.sh.cells|
    ensures Lookup(Final(run).reg.sh, id) == Some(m) <==> !UnlistedSince(run, b, id)
    ensures m < |Final(run).reg.sh.cells|
  {
    if b < |run| {
      var front := run[..|run| - 1];
      RunLast(run);
      SameBefore(run, b);
      UnlistsLast(run, id);
      StaysListed(front, b, id, m);
      ListedStep(Final(front), run[|run| - 1], id, m);
      CellsGrow(Final(front), run[|run| - 1]);
      UnlistedSnoc(run, b, id);
    }
  }

  /** Where the join of a waiting task began: the step that inserted its slot. */
  ghost predicate Began(run: seq<Action>, b: nat, t: Task, id: Id, mine: Entry) {
    && b < |run| && run[b] == Join(t, Begin)
    && At(Before(run, b), t) == JoinBegin(id) && !Lists(Before(run, b).reg, id)
    && |Before(run, b).reg.sh.cells| == mine
  }

  ghost predicate JoinsSince(run: seq<Action>, b: nat, t: Task, id: Id, mine: Entry) {
    forall k: nat :: b < k <= |run| ==> JoinsAt(Before(run, k), t, id, mine)
  }

  predicate JoinsAt(s: State, t: Task, id: Id, mine: Entry) {
    Joins(At(s, t)) && At(s, t).id == id && At(s, t).mine == mine
  }

  /** Only `Begin` starts a join. */
  lemma JoinedBefore(s: State, a: Action, t: Task, id: Id, mine: Entry)
    requires Ready(s, a) && JoinsAt(Apply(s, a), t, id, mine) && !JoinsAt(s, t, id, mine)
    ensures a == Join(t, Begin) && At(s, t) == JoinBegin(id) && !Lists(s.reg, id) && |s.reg.sh.cells| == mine
  {
    if a.Event? || a.Pump? || a.t != t {
      OthersStandStill(s, a, t);
    } else if a.Join? {
      JoinedByBegin(s, t, a.j, id, mine);
    } else if a.Abandon? {
      AbandonKeepsJoin(s, t, a.b, id, mine);
    } else {
      NoneJoins(s, a, t);
    }
  }

  lemma JoinedByBegin(s: State, t: Task, j: JoinStep, id: Id, mine: Entry)
    requires CanJoin(s, t, j) && JoinsAt(DoJoin(s, t, j), t, id, mine)
    ensures JoinsAt(s, t, id, mine)
            || (j.Begin? && At(s, t) == JoinBegin(id) && !Lists(s.reg, id) && |s.reg.sh.cells| == mine)
  {
  }

  lemma AbandonKeepsJoin(s: State, t: Task, b: AbandonStep, id: Id, mine: Entry)
    requires CanAbandon(s, t, b) && JoinsAt(DoAbandon(s, t, b), t, id, mine)
    ensures JoinsAt(s, t, id, mine)
  {
  }

  lemma NoneJoins(s: State, a: Action, t: Task)
    requires Ready(s, a) && (a.Write? || a.Call? || a.Leave?) && a.t == t
    ensures !Joins(At(Apply(s, a), t))
  {
  }

  lemma BeganBefore(run: seq<Action>, b: nat, t: Task, id: Id, mine: Entry)
    requires run != [] && Began(run[..|run| - 1], b, t, id, mine)
    ensures Began(run, b, t, id, mine)
  {
    SameBefore(run, b);
  }

  lemma JoinsSinceSnoc(run: seq<Action>, b: nat, t: Task, id: Id, mine: Entry)
    requires run != [] && JoinsSince(run[..|run| - 1], b, t, id, mine) && JoinsAt(Final(run), t, id, mine)
    ensures JoinsSince(run, b, t, id, mine)
  {
    forall k: nat | b < k <= |run| ensures JoinsAt(Before(run, k), t, id, mine) {
      if k < |run| {
        SameBefore(run, k);
      }
    }
  }

  /** Begun by the last step, or already under way before it. */
  lemma JoinStarts(run: seq<Action>, t: Task, id: Id, mine: Entry)
    requires IsRun(run) && run != []
    requires JoinsAt(Final(run), t, id, mine) && !JoinsAt(Final(run[..|run| - 1]), t, id, mine)
    ensures Began(run, |run| - 1, t, id, mine)
  {
    RunLast(run);
    SameBefore(run, |run| - 1);
    JoinedBefore(Final(run[..|run| - 1]), run[|run| - 1], t, id, mine);
  }

  ghost predicate BeganAt(run: seq<Action>, b: nat, t: Task, id: Id, mine: Entry) {
    Began(run, b, t, id, mine) && JoinsSince(run, b, t, id, mine)
  }

  lemma JoinBegins(run: seq<Action>, t: Task, id: Id, mine: Entry)
    requires IsRun(run) && run != []
    requires JoinsAt(Final(run), t, id, mine) && !JoinsAt(Final(run[..|run| - 1]), t, id, mine)
    ensures BeganAt(run, |run| - 1, t, id, mine)
  {
    JoinStarts(run, t, id, mine);
  }

  lemma JoinGoesOn(run: seq<Action>, b: nat, t: Task, id: Id, mine: Entry)
    requires run != [] && BeganAt(run[..|run| - 1], b, t, id, mine) && JoinsAt(Final(run), t, id, mine)
    ensures BeganAt(run, b, t, id, mine)
  {
    BeganBefore(run, b, t, id, mine);
    JoinsSinceSnoc(run, b, t, id, mine);
  }

  lemma NoneAtStart(run: seq<Action>, t: Task, id: Id, mine: Entry)
    requires IsRun(run) && JoinsAt(Final(run), t, id, mine)
    ensures run != [] && IsRun(run[..|run| - 1])
  {
  }

  lemma {:induction false} JoinBegan(run: seq<Action>, t: Task, id: Id, mine: Entry) returns (b: nat)
    requires IsRun(run) && JoinsAt(Final(run), t, id, mine)
    ensures BeganAt(run, b, t, id, mine)
    decreases |run|
  {
    NoneAtStart(run, t, id, mine);
    if JoinsAt(Final(run[..|run| - 1]), t, id, mine) {
      b := JoinBegan(run[..|run| - 1], t, id, mine);
      JoinGoesOn(run, b, t, id, mine);
    } else {
      JoinBegins(run, t, id, mine);
      b := |run| - 1;
    }
  }

  /** The inserted slot is listed right after `Begin`. */
  lemma BeganListed(run: seq<Action>, b: nat, t: Task, id: Id, mine: Entry)
    requires IsRun(run) && Began(run, b, t, id, mine)
    ensures Lookup(Before(run, b + 1).reg.sh, id) == Some(mine) && mine < |Before(run, b + 1).reg.sh.cells|
  {
    RunPrefix(run, b);
    BeginLists(Before(run, b), t, id);
  }

  lemma BeginLists(s: State, t: Task, id: Id)
    requires CanJoin(s, t, Begin) && At(s, t) == JoinBegin(id) && !Lists(s.reg, id)
    ensures var sh := DoJoin(s, t, Begin).reg.sh;
            Lookup(sh, id) == Some(|s.reg.sh.cells|) && |s.reg.sh.cells| < |sh.cells|
  {
  }

  /**
   An abandon about to remove drops the slot its own join inserted exactly if, since that join
   began, no leave and no abandon of the id has removed anything.
   */
  lemma AbandonsItsOwnExactly(run: seq<Action>, t: Task) returns (b: nat)
    requires IsRun(run) && At(Final(run), t).AbandonRemove?
    ensures var p := At(Final(run), t);
            && Began(run, b, t, p.id, p.mine) && JoinsSince(run, b, t, p.id, p.mine)
            && Lookup(Final(run).reg.sh, p.id) == Some(p.e)
            && (p.e == p.mine <==> !UnlistedSince(run, b + 1, p.id))
  {
    var p := At(Final(run), t);
    b := JoinBegan(run, t, p.id, p.mine);
    BeganListed(run, b, t, p.id, p.mine);
    StaysListed(run, b + 1, p.id, p.mine);
    FinalInv(run);
    FillsListedDropsPending(Final(run), t);
  }

  // ── What became of the join's own slot ──────────────────────────────────

  lemma {:induction false} LeastUnlisting(run: seq<Action>, b: nat, id: Id, k: nat) returns (first: nat)
    requires b <= k < |run| && UnlistsAt(run, k, id)
    ensures b <= first < |run| && UnlistsAt(run, first, id)
    ensures forall j: nat :: b <= j < first ==> !UnlistsAt(run, j, id)
    decreases k
  {
    if j: nat :| b <= j < k && UnlistsAt(run, j, id) {
      first := LeastUnlisting(run, b, id, j);
    } else {
      first := k;
    }
  }

  lemma UnlistsInPrefix(run: seq<Action>, n: nat, k: nat, id: Id)
    requires k < n <= |run|
    ensures UnlistsAt(run[..n], k, id) <==> UnlistsAt(run, k, id)
  {
    assert run[..n][..k] == run[..k];
  }

  lemma FirstUnlisting(run: seq<Action>, b: nat, id: Id, m: Entry) returns (k: nat)
    requires IsRun(run) && b <= |run| && UnlistedSince(run, b, id)
    requires Lookup(Before(run, b).reg.sh, id) == Some(m) && m < |Before(run, b).reg.sh.cells|
    ensures b <= k < |run| && UnlistsAt(run, k, id) && !UnlistedSince(run[..k], b, id)
    ensures Lookup(Before(run, k).reg.sh, id) == Some(m)
  {
    var some: nat :| b <= some < |run| && UnlistsAt(run, some, id);
    k := LeastUnlisting(run, b, id, some);
    forall j: nat | b <= j < k ensures !UnlistsAt(run[..k], j, id) {
      UnlistsInPrefix(run, k, j, id);
    }
    ListedUntil(run, b, k, id, m);
  }

  lemma SamePrefix(run: seq<Action>, b: nat, k: nat)
    requires b <= k <= |run|
    ensures Before(run[..k], b) == Before(run, b)
  {
    assert run[..k][..b] == run[..b];
  }

  lemma ListedUntil(run: seq<Action>, b: nat, k: nat, id: Id, m: Entry)
    requires IsRun(run) && b <= k <= |run| && !UnlistedSince(run[..k], b, id)
    requires Lookup(Before(run, b).reg.sh, id) == Some(m) && m < |Before(run, b).reg.sh.cells|
    ensures Lookup(Before(run, k).reg.sh, id) == Some(m)
  {
    RunPrefix(run, k);
    SamePrefix(run, b, k);
    StaysListed(run[..k], b, id, m);
  }

  /** A leave takes a live slot off the map, an abandon the pending one it holds. */
  lemma UnlistedSlot(s: State, a: Action, id: Id, m: Entry)
    requires Cells(s.reg) && Tasks(s) && Unlists(s, a, id) && Lookup(s.reg.sh, id) == Some(m)
    ensures m < |s.reg.sh.cells|
    ensures a.Leave? ==> s.reg.sh.cells[m].slot.Live?
    ensures a.Abandon? ==> At(s, a.t).e == m
  {
    assert Knows(s.reg, a.t, At(s, a.t));
    if a.Leave? {
      LeaveFindsIt(s.reg, a.t, At(s, a.t));
    }
  }

  lemma LiveStays(s: State, a: Action, m: Entry)
    requires Ready(s, a) && m < |s.reg.sh.cells| && s.reg.sh.cells[m].slot.Live?
    ensures m < |Apply(s, a).reg.sh.cells| && Apply(s, a).reg.sh.cells[m] == s.reg.sh.cells[m]
  {
    match a {
      case Write(t, w) => LiveStaysWrite(s, t, w, m);
      case Join(t, j) => LiveStaysJoin(s, t, j, m);
      case _ => SameCells(s, a);
    }
  }

  lemma LiveStaysWrite(s: State, t: Task, w: WriteStep, m: Entry)
    requires CanWrite(s, t, w) && m < |s.reg.sh.cells| && s.reg.sh.cells[m].slot.Live?
    ensures m < |DoWrite(s, t, w).reg.sh.cells| && DoWrite(s, t, w).reg.sh.cells[m] == s.reg.sh.cells[m]
  {
  }

  lemma LiveStaysJoin(s: State, t: Task, j: JoinStep, m: Entry)
    requires CanJoin(s, t, j) && m < |s.reg.sh.cells|
    ensures m < |DoJoin(s, t, j).reg.sh.cells| && DoJoin(s, t, j).reg.sh.cells[m] == s.reg.sh.cells[m]
  {
  }

  lemma SameCells(s: State, a: Action)
    requires Ready(s, a) && !a.Write? && !a.Join?
    ensures Apply(s, a).reg.sh.cells == s.reg.sh.cells
  {
  }

  lemma {:induction false} LiveSince(run: seq<Action>, k: nat, m: Entry)
    requires IsRun(run) && k <= |run|
    requires m < |Before(run, k).reg.sh.cells| && Before(run, k).reg.sh.cells[m].slot.Live?
    ensures m < |Final(run).reg.sh.cells| && Final(run).reg.sh.cells[m].slot.Live?
  {
    if k < |run| {
      RunLast(run);
      SameBefore(run, k);
      LiveSince(run[..|run| - 1], k, m);
      LiveStays(Final(run[..|run| - 1]), run[|run| - 1], m);
    }
  }

  /** A detached live slot belongs to a conversation that has left. */
  lemma DetachedHasLeft(r: Reg, id: Id, e: Entry, m: Entry)
    requires Cells(r) && Lookup(r.sh, id) == Some(e) && Keyed(r, m, id) && e != m && r.sh.cells[m].slot.Live?
    ensures var i := r.sh.cells[m].slot.instance; i < |r.convs| && r.convs[i].phase.Evicted?
  {
    var i := r.sh.cells[m].slot.instance;
    assert Holds(r, m, i);
    assert Installed(r, i, id);
    assert !Registered(r, m);
  }

  /** Task `t` has ended its join by the step after its own removal. */
  lemma NotByItself(run: seq<Action>, k: nat, t: Task, id: Id, mine: Entry)
    requires IsRun(run) && k < |run| && JoinsAt(Before(run, k + 1), t, id, mine)
    requires run[k].Abandon? && run[k].b == AbandonDrop
    ensures run[k].t != t
  {
    RunPrefix(run, k);
    if run[k].t == t {
      DropEndsJoin(Before(run, k), t);
    }
  }

  lemma DropEndsJoin(s: State, t: Task)
    requires CanAbandon(s, t, AbandonDrop)
    ensures !Joins(At(DoAbandon(s, t, AbandonDrop), t))
  {
  }

  /** Another task's abandon found this very slot pending and dropped it. */
  ghost predicate DroppedByOther(run: seq<Action>, t: Task, mine: Entry) {
    exists k: nat :: k < |run| && DropsSlotAt(run, k, mine) && run[k].t != t
  }

  predicate DropsSlotAt(run: seq<Action>, k: nat, mine: Entry)
    requires k < |run|
  {
    run[k].Abandon? && run[k].b == AbandonDrop
    && At(Before(run, k), run[k].t).AbandonRemove? && At(Before(run, k), run[k].t).e == mine
  }

  /**
   When an abandon drops another slot than its join's, its own is either that of a conversation that
   joined and left again, or was dropped by another task's abandon.
   */
  lemma OwnSlotWentBefore(run: seq<Action>, t: Task)
    requires IsRun(run) && At(Final(run), t).AbandonRemove? && At(Final(run), t).e != At(Final(run), t).mine
    ensures var s, p := Final(run), At(Final(run), t);
            && p.mine < |s.reg.sh.cells|
            && match s.reg.sh.cells[p.mine].slot
               case Live(i) => i < |s.reg.convs| && s.reg.convs[i].phase.Evicted?
               case Pending => DroppedByOther(run, t, p.mine)
  {
    var s, p := Final(run), At(Final(run), t);
    var b := AbandonsItsOwnExactly(run, t);
    FinalInv(run);
    OwnIsKeyed(s, t, p);
    if s.reg.sh.cells[p.mine].slot.Live? {
      DetachedHasLeft(s.reg, p.id, p.e, p.mine);
    } else {
      PendingWentBefore(run, b, t, p.id, p.mine);
    }
  }

  lemma OwnIsKeyed(s: State, t: Task, p: Pc)
    requires Inv(s) && At(s, t) == p && p.AbandonRemove?
    ensures Keyed(s.reg, p.mine, p.id)
  {
    assert Knows(s.reg, t, p);
  }

  lemma PendingWentBefore(run: seq<Action>, b: nat, t: Task, id: Id, mine: Entry)
    requires IsRun(run) && BeganAt(run, b, t, id, mine) && UnlistedSince(run, b + 1, id)
    requires mine < |Final(run).reg.sh.cells| && Final(run).reg.sh.cells[mine].slot.Pending?
    ensures DroppedByOther(run, t, mine)
  {
    BeganListed(run, b, t, id, mine);
    var k := FirstUnlisting(run, b + 1, id, mine);
    PendingWasDropped(run, k, id, mine);
    assert JoinsAt(Before(run, k + 1), t, id, mine);
    NotByItself(run, k, t, id, mine);
  }

  lemma PendingWasDropped(run: seq<Action>, k: nat, id: Id, mine: Entry)
    requires IsRun(run) && k < |run| && UnlistsAt(run, k, id) && Lookup(Before(run, k).reg.sh, id) == Some(mine)
    requires mine < |Final(run).reg.sh.cells| && Final(run).reg.sh.cells[mine].slot.Pending?
    ensures DropsSlotAt(run, k, mine)
  {
    RunPrefix(run, k);
    FinalInv(run[..k]);
    UnlistedSlot(Before(run, k), run[k], id, mine);
    if run[k].Leave? {
      LiveSince(run, k, mine);
    }
  }

  /** The slot it drops instead is one a failed join left behind, or another task's join still waits for it. */
  lemma WhoseSlotIsDropped(s: State, t: Task)
    requires Reachable(OuterLock, s) && At(s, t).AbandonRemove? && At(s, t).e != At(s, t).mine
    ensures var e := At(s, t).e;
            || e in s.failed
            || (e < |s.reg.owner| && s.reg.owner[e] != t && Joining(At(s, s.reg.owner[e]), e))
  {
    ReachableInv(s);
    ReaderNoWriter(s, t);
    FillsListedDropsPending(s, t);
    AwaitedExactly(s, At(s, t).id);
  }

  // ── What a listed id refuses, and what frees it ─────────────────────────

  /** While an entry listed at step `b` has not been taken off the map, `Begin` of its id gives up. */
  lemma RefusedWhileListed(run: seq<Action>, b: nat, t: Task, id: Id, m: Entry)
    requires IsRun(run) && b <= |run| && !UnlistedSince(run, b, id)
    requires Lookup(Before(run, b).reg.sh, id) == Some(m) && m < |Before(run, b).reg.sh.cells|
    requires CanJoin(Final(run), t, Begin) && At(Final(run), t) == JoinBegin(id)
    ensures At(DoJoin(Final(run), t, Begin), t).Idle? && DoJoin(Final(run), t, Begin).reg == Final(run).reg
  {
    StaysListed(run, b, id, m);
    Refused(Final(run), t, id, m);
  }

  lemma Refused(s: State, t: Task, id: Id, m: Entry)
    requires CanJoin(s, t, Begin) && At(s, t) == JoinBegin(id) && Lookup(s.reg.sh, id) == Some(m)
    ensures At(DoJoin(s, t, Begin), t).Idle? && DoJoin(s, t, Begin).reg == s.reg
  {
  }

  ghost predicate NobodyJoins(s: State, id: Id) {
    forall t: Task, e: Entry :: !JoinsAt(s, t, id, e)
  }

  /** With the id listed and nobody joining it, only a leave of the id can take it off the map first. */
  lemma OnlyALeaveFrees(run: seq<Action>, b: nat, id: Id, m: Entry) returns (k: nat)
    requires IsRun(run) && b <= |run| && NobodyJoins(Before(run, b), id) && UnlistedSince(run, b, id)
    requires Lookup(Before(run, b).reg.sh, id) == Some(m) && m < |Before(run, b).reg.sh.cells|
    ensures b <= k < |run| && UnlistsAt(run, k, id) && !UnlistedSince(run[..k], b, id) && run[k].Leave?
  {
    k := FirstUnlisting(run, b, id, m);
    RunPrefix(run, k);
    SamePrefix(run, b, k);
    if run[k].Abandon? {
      var t := run[k].t;
      NoJoinBegins(run[..k], b, t, id, At(Before(run, k), t).mine, m);
    }
  }

  lemma NoJoinBegins(run: seq<Action>, b: nat, t: Task, id: Id, mine: Entry, m: Entry)
    requires IsRun(run) && b <= |run| && NobodyJoins(Before(run, b), id) && !UnlistedSince(run, b, id)
    requires Lookup(Before(run, b).reg.sh, id) == Some(m) && m < |Before(run, b).reg.sh.cells|
    ensures !JoinsAt(Final(run), t, id, mine)
  {
    if JoinsAt(Final(run), t, id, mine) {
      var began := JoinBegan(run, t, id, mine);
      if began >= b {
        ListedThroughout(run, b, began, id, m);
      }
    }
  }

  lemma ListedThroughout(run: seq<Action>, b: nat, k: nat, id: Id, m: Entry)
    requires IsRun(run) && b <= k <= |run| && !UnlistedSince(run, b, id)
    requires Lookup(Before(run, b).reg.sh, id) == Some(m) && m < |Before(run, b).reg.sh.cells|
    ensures Lookup(Before(run, k).reg.sh, id) == Some(m)
  {
    forall j: nat | b <= j < k ensures !UnlistsAt(run[..k], j, id) {
      UnlistsInPrefix(run, k, j, id);
    }
    ListedUntil(run, b, k, id, m);
  }

  ghost predicate LeftSince(run: seq<Action>, b: nat, id: Id) {
    exists k: nat :: b <= k < |run| && UnlistsAt(run, k, id) && run[k].Leave?
  }

  /** So a join of a listed id that nobody is joining is refused in every continuation until a leave of the id. */
  lemma RefusedUntilLeft(run: seq<Action>, b: nat, t: Task, id: Id, m: Entry)
    requires IsRun(run) && b <= |run| && NobodyJoins(Before(run, b), id) && !LeftSince(run, b, id)
    requires Lookup(Before(run, b).reg.sh, id) == Some(m) && m < |Before(run, b).reg.sh.cells|
    requires CanJoin(Final(run), t, Begin) && At(Final(run), t) == JoinBegin(id)
    ensures At(DoJoin(Final(run), t, Begin), t).Idle? && DoJoin(Final(run), t, Begin).reg == Final(run).reg
  {
    if UnlistedSince(run, b, id) {
      var k := OnlyALeaveFrees(run, b, id, m);
    } else {
      RefusedWhileListed(run, b, t, id, m);
    }
  }
}
