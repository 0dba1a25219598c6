/**
 The waiting join of the machine against the loop of `join_group`: it goes on to poll exactly if one
 of its rounds finds the id live.
 */
module RegistryJoins {
  import opened Wrappers
  import opened Registry
  import opened RegistryProtocol
  import opened RegistryInvariant
  import opened RegistryRuns
  import opened RegistryTheorems
  import opened RegistryHistory
  import opened RegistryLoops

  // ── What the rounds of a join found ─────────────────────────────────────

  /** The registry at the task's latest lookup. */
  function LastLookup(run: seq<Action>, t: Task): Option<Shared> {
    if run == [] then None
    else if run[|run| - 1] == Join(t, WaitLookup) then Some(Final(run[..|run| - 1]).reg.sh)
    else LastLookup(run[..|run| - 1], t)
  }

  /** What a round finds that looks at the slot now: the map is that of its lookup. */
  function Found(lookup: Option<Shared>, s: State): Option<Shared> {
    match lookup
    case None => None
    case Some(sh) => Some(Shared(sh.conversations, s.reg.sh.cells, []))
  }

  /** What the rounds of the task's latest join have found so far. */
  function Rounds(run: seq<Action>, t: Task): seq<Option<Shared>> {
    if run == [] then []
    else
      var front, a := run[..|run| - 1], run[|run| - 1];
      if a == Join(t, Begin) then []
      else if a == Join(t, WaitSee) then Rounds(front, t) + [Found(LastLookup(front, t), Final(front))]
      else Rounds(front, t)
  }

  ghost predicate NoneLive(rounds: seq<Option<Shared>>, id: Id) {
    forall k :: 0 <= k < |rounds| ==> ReadingOf(rounds[k], id).NotYet?
  }

  /** How many rounds a join has behind it, and that none of them found the id live. */
  ghost predicate Waits(p: Pc, rounds: seq<Option<Shared>>, lookup: Option<Shared>) {
    Joins(p) ==>
      && NoneLive(rounds, p.id)
      && match p
         case JoinSetup(_, _) => rounds == []
         case JoinWait(_, _, round) => |rounds| == round
         case JoinRead(_, _, round) => |rounds| == round
         case JoinLooked(id, _, round, seen) =>
           |rounds| == round && lookup.Some? && seen == Lookup(lookup.value, id)
         case _ => |rounds| == MAX_JOIN_ROUNDS
  }

  lemma SeesNotYet(s: State, t: Task, lookup: Option<Shared>, rounds: seq<Option<Shared>>)
    requires CanJoin(s, t, WaitSee) && Waits(At(s, t), rounds, lookup)
    ensures var p, found := At(s, t), Found(lookup, s);
            var q := At(DoJoin(s, t, WaitSee), t);
            if ReadingOf(found, p.id).Joined? then q == PollIdle(p.id)
            else ReadingOf(found, p.id).NotYet? && q == JoinWait(p.id, p.mine, p.round + 1)
  {
  }

  lemma NoneLiveSnoc(rounds: seq<Option<Shared>>, view: Option<Shared>, id: Id)
    requires NoneLive(rounds, id) && ReadingOf(view, id).NotYet?
    ensures NoneLive(rounds + [view], id)
  {
  }

  lemma SeeWaits(s: State, t: Task, lookup: Option<Shared>, rounds: seq<Option<Shared>>)
    requires CanJoin(s, t, WaitSee) && Waits(At(s, t), rounds, lookup)
    ensures Waits(At(DoJoin(s, t, WaitSee), t), rounds + [Found(lookup, s)], lookup)
  {
    SeesNotYet(s, t, lookup, rounds);
    if ReadingOf(Found(lookup, s), At(s, t).id).NotYet? {
      NoneLiveSnoc(rounds, Found(lookup, s), At(s, t).id);
    }
  }

  lemma LookupWaits(s: State, t: Task, lookup: Option<Shared>, rounds: seq<Option<Shared>>)
    requires CanJoin(s, t, WaitLookup) && Waits(At(s, t), rounds, lookup)
    ensures Waits(At(DoJoin(s, t, WaitLookup), t), rounds, Some(s.reg.sh))
  {
  }

  lemma BeginWaits(s: State, t: Task, lookup: Option<Shared>)
    requires CanJoin(s, t, Begin)
    ensures Waits(At(DoJoin(s, t, Begin), t), [], lookup)
  {
  }

  lemma JoinWaits(s: State, t: Task, j: JoinStep, lookup: Option<Shared>, rounds: seq<Option<Shared>>)
    requires CanJoin(s, t, j) && Waits(At(s, t), rounds, lookup)
    requires j.JoinAcquire? || j.SetupDone? || j.WaitAcquire?
    ensures Waits(At(DoJoin(s, t, j), t), rounds, lookup)
  {
  }

  lemma AbandonWaits(s: State, t: Task, b: AbandonStep, lookup: Option<Shared>, rounds: seq<Option<Shared>>)
    requires CanAbandon(s, t, b) && Waits(At(s, t), rounds, lookup)
    ensures Waits(At(DoAbandon(s, t, b), t), rounds, lookup)
  {
  }

  lemma OtherWaits(s: State, a: Action, t: Task, lookup: Option<Shared>, rounds: seq<Option<Shared>>)
    requires Ready(s, a) && Waits(At(s, t), rounds, lookup)
    requires !(a.Join? && a.t == t && !a.j.JoinAcquire? && !a.j.SetupDone? && !a.j.WaitAcquire?)
    ensures Waits(At(Apply(s, a), t), rounds, lookup)
  {
    if a.Event? || a.Pump? || a.t != t {
      OthersStandStill(s, a, t);
    } else if a.Join? {
      JoinWaits(s, t, a.j, lookup, rounds);
    } else if a.Abandon? {
      AbandonWaits(s, t, a.b, lookup, rounds);
    } else {
      NoneJoins(s, a, t);
    }
  }

  lemma StepWaits(s: State, a: Action, t: Task, lookup: Option<Shared>, rounds: seq<Option<Shared>>)
    requires Ready(s, a) && Waits(At(s, t), rounds, lookup)
    ensures Waits(At(Apply(s, a), t),
                  if a == Join(t, Begin) then []
                  else if a == Join(t, WaitSee) then rounds + [Found(lookup, s)] else rounds,
                  if a == Join(t, WaitLookup) then Some(s.reg.sh) else lookup)
  {
    if a == Join(t, Begin) {
      BeginWaits(s, t, lookup);
    } else if a == Join(t, WaitSee) {
      SeeWaits(s, t, lookup, rounds);
    } else if a == Join(t, WaitLookup) {
      LookupWaits(s, t, lookup, rounds);
    } else {
      OtherWaits(s, a, t, lookup, rounds);
    }
  }

  lemma {:induction false} RunWaits(run: seq<Action>, t: Task)
    requires IsRun(run)
    ensures Waits(At(Final(run), t), Rounds(run, t), LastLookup(run, t))
  {
    if run != [] {
      var front := run[..|run| - 1];
      RunLast(run);
      RunWaits(front, t);
      StepWaits(Final(front), run[|run| - 1], t, LastLookup(front, t), Rounds(front, t));
    }
  }

  // ── How a join ends ─────────────────────────────────────────────────────

  /** The rounds as `AwaitWelcome` sees them, round by round; there is nothing to read after the last. */
  function Views(rounds: seq<Option<Shared>>): nat -> Option<Shared> {
    (k: nat) => if k < |rounds| then rounds[k] else None
  }

  lemma NeverFirst(rounds: seq<Option<Shared>>, id: Id)
    requires NoneLive(rounds, id)
    ensures forall k: nat :: !LiveFirstIn(Views(rounds), id, k)
  {
    forall k: nat ensures !LiveFirstIn(Views(rounds), id, k) {
      assert k < |rounds| ==> ReadingOf(rounds[k], id).NotYet?;
      assert ReadingIn(Views(rounds), id, k) == ReadingOf(if k < |rounds| then rounds[k] else None, id);
    }
  }

  lemma LastIsFirst(rounds: seq<Option<Shared>>, view: Option<Shared>, id: Id)
    requires NoneLive(rounds, id) && ReadingOf(view, id).Joined?
    ensures LiveFirstIn(Views(rounds + [view]), id, |rounds|)
  {
    var views := Views(rounds + [view]);
    assert ReadingIn(views, id, |rounds|) == ReadingOf(view, id);
    forall j: nat | j < |rounds| ensures ReadingIn(views, id, j).NotYet? {
      assert ReadingIn(views, id, j) == ReadingOf(rounds[j], id);
    }
  }

  /** The last step of the run ends the join of task `t`. */
  ghost predicate EndsJoin(run: seq<Action>, t: Task) {
    run != [] && Joins(At(Final(run[..|run| - 1]), t)) && !Joins(At(Final(run), t))
  }

  /** Only three steps end a join, and what they leave. */
  lemma EndingStep(s: State, a: Action, t: Task, lookup: Option<Shared>, rounds: seq<Option<Shared>>)
    requires Ready(s, a) && Waits(At(s, t), rounds, lookup) && Joins(At(s, t)) && !Joins(At(Apply(s, a), t))
    requires Knows(s.reg, t, At(s, t))
    ensures var p, q := At(s, t), At(Apply(s, a), t);
            || (a == Join(t, SetupDone(false)) && q == Idle && rounds == [])
            || (a == Join(t, WaitSee) && ReadingOf(Found(lookup, s), p.id).Joined? && q == PollIdle(p.id)
                && |rounds| == p.round < MAX_JOIN_ROUNDS)
            || (a.Abandon? && a.t == t && q == Idle && |rounds| == MAX_JOIN_ROUNDS)
  {
    if a.Event? || a.Pump? || a.t != t {
      OthersStandStill(s, a, t);
    } else if a.Join? {
      EndingJoin(s, t, a.j, lookup, rounds);
    } else {
      assert a.Abandon?;
      EndingAbandon(s, t, a.b, lookup, rounds);
    }
  }

  lemma EndingJoin(s: State, t: Task, j: JoinStep, lookup: Option<Shared>, rounds: seq<Option<Shared>>)
    requires CanJoin(s, t, j) && Waits(At(s, t), rounds, lookup) && Joins(At(s, t)) && !Joins(At(DoJoin(s, t, j), t))
    requires Knows(s.reg, t, At(s, t))
    ensures var p, q := At(s, t), At(DoJoin(s, t, j), t);
            || (j == SetupDone(false) && q == Idle && rounds == [])
            || (j == WaitSee && ReadingOf(Found(lookup, s), p.id).Joined? && q == PollIdle(p.id)
                && |rounds| == p.round < MAX_JOIN_ROUNDS)
  {
    if j.WaitSee? {
      SeesNotYet(s, t, lookup, rounds);
    }
  }

  lemma EndingAbandon(s: State, t: Task, b: AbandonStep, lookup: Option<Shared>, rounds: seq<Option<Shared>>)
    requires CanAbandon(s, t, b) && Waits(At(s, t), rounds, lookup) && !Joins(At(DoAbandon(s, t, b), t))
    ensures At(DoAbandon(s, t, b), t) == Idle && |rounds| == MAX_JOIN_ROUNDS
  {
  }

  /**
   In every run a join ends polling its id exactly if one of its rounds found the id live and none
   before it did, as `AwaitWelcome` has it; that round is then its last. Otherwise its announcement
   failed before any round, or all 24 rounds found nothing and the abandon has run.
   */
  lemma JoinIsItsLoop(run: seq<Action>, t: Task)
    requires IsRun(run) && EndsJoin(run, t)
    ensures var p, q, rounds := At(Final(run[..|run| - 1]), t), At(Final(run), t), Rounds(run, t);
            && |rounds| <= MAX_JOIN_ROUNDS
            && (q == PollIdle(p.id) <==> exists k: nat :: k < MAX_JOIN_ROUNDS && LiveFirstIn(Views(rounds), p.id, k))
            && (q == PollIdle(p.id) ==> rounds != [] && LiveFirstIn(Views(rounds), p.id, |rounds| - 1))
            && (q != PollIdle(p.id) ==> q == Idle && NoneLive(rounds, p.id))
            && (q != PollIdle(p.id) ==>
                  if run[|run| - 1] == Join(t, SetupDone(false)) then rounds == []
                  else |rounds| == MAX_JOIN_ROUNDS)
  {
    var front := run[..|run| - 1];
    RunLast(run);
    RunWaits(front, t);
    FinalInv(front);
    KnowsAt(Final(front), t);
    LoopEnds(Final(front), run[|run| - 1], t, LastLookup(front, t), Rounds(front, t));
  }

  /** The round's own view is the last, if the ending step is a round's. */
  lemma LoopEnds(s: State, a: Action, t: Task, lookup: Option<Shared>, before: seq<Option<Shared>>)
    requires Ready(s, a) && Waits(At(s, t), before, lookup) && Joins(At(s, t)) && !Joins(At(Apply(s, a), t))
    requires Knows(s.reg, t, At(s, t))
    ensures a != Join(t, Begin)
    ensures var p, q := At(s, t), At(Apply(s, a), t);
            var rounds := if a == Join(t, WaitSee) then before + [Found(lookup, s)] else before;
            && |rounds| <= MAX_JOIN_ROUNDS
            && (q == PollIdle(p.id) <==> exists k: nat :: k < MAX_JOIN_ROUNDS && LiveFirstIn(Views(rounds), p.id, k))
            && (q == PollIdle(p.id) ==> rounds != [] && LiveFirstIn(Views(rounds), p.id, |rounds| - 1))
            && (q != PollIdle(p.id) ==> q == Idle && NoneLive(rounds, p.id))
            && (q != PollIdle(p.id) ==>
                  if a == Join(t, SetupDone(false)) then rounds == [] else |rounds| == MAX_JOIN_ROUNDS)
  {
    EndingStep(s, a, t, lookup, before);
    if a == Join(t, WaitSee) {
      LastIsFirst(before, Found(lookup, s), At(s, t).id);
    } else {
      NeverFirst(before, At(s, t).id);
    }
  }

  /** In one step: a round that looks at a live slot goes on to poll, any other to the next round. */
  lemma SeesLiveExactly(s: State, t: Task)
    requires Reachable(OuterLock, s) && CanJoin(s, t, WaitSee)
    ensures var p, q := At(s, t), At(Apply(s, Join(t, WaitSee)), t);
            && (q == PollIdle(p.id) <==> p.seen.Some? && s.reg.sh.cells[p.seen.value].slot.Live?)
            && (q != PollIdle(p.id) ==> q == JoinWait(p.id, p.mine, p.round + 1))
  {
  }
}
