/** Two sharper forms: which pending slots are awaited, and what one id's fanout was handed in all. */
module RegistryExact {
  import opened Wrappers
  import opened Registry
  import opened RegistryProtocol
  import opened RegistryInvariant
  import opened RegistryRuns
  import opened RegistryTheorems

  // ── Joins that failed and joins that wait ───────────────────────────────

  /** A join waits for the slot it inserted, which is not one a failed join left behind. */
  ghost predicate JoinsOwn(s: State) {
    && (forall e :: e in s.failed ==> e < |s.reg.owner|)
    && (forall t: Task, e: Entry :: Joining(At(s, t), e) ==> Owns(s, t, e))
  }

  predicate Owns(s: State, t: Task, e: Entry) {
    e < |s.reg.owner| && s.reg.owner[e] == t && e !in s.failed
  }

  /** The task that moved awaits what it awaited before, or the slot it has just inserted. */
  ghost predicate StillOwn(s: State, s': State, t: Task) {
    && |s.reg.owner| <= |s'.reg.owner| && s'.reg.owner[..|s.reg.owner|] == s.reg.owner
    && (forall u: Task :: u != t ==> At(s', u) == At(s, u))
    && (forall e: Entry :: Joining(At(s', t), e) ==>
          if Joining(At(s, t), e) then s'.failed == s.failed
          else |s.reg.owner| <= e < |s'.reg.owner| && s'.reg.owner[e] == t && s'.failed == s.failed)
    && (s'.failed == s.failed || exists e: Entry :: Joining(At(s, t), e) && s'.failed == s.failed + {e})
  }

  lemma OwnStep(s: State, s': State, t: Task)
    requires JoinsOwn(s) && StillOwn(s, s', t)
    ensures JoinsOwn(s')
  {
    forall e | e in s'.failed ensures e < |s'.reg.owner| {
      if e !in s.failed {
        assert Joining(At(s, t), e);
      }
    }
    forall u: Task, e: Entry | Joining(At(s', u), e) ensures Owns(s', u, e) {
      if Joining(At(s, u), e) {
        assert Owns(s, u, e);
        assert s'.reg.owner[e] == s.reg.owner[e];
        if s'.failed != s.failed {
          var x: Entry :| Joining(At(s, t), x) && s'.failed == s.failed + {x};
        }
      }
    }
  }

  lemma OwnWrite(s: State, t: Task, w: WriteStep)
    requires CanWrite(s, t, w)
    ensures StillOwn(s, DoWrite(s, t, w), t)
  {
    OwnerGrows(s, t, w);
    WriterAwaitsNothing(s, t, w);
  }

  lemma OwnerGrows(s: State, t: Task, w: WriteStep)
    requires CanWrite(s, t, w)
    ensures var now := DoWrite(s, t, w).reg.owner;
            |s.reg.owner| <= |now| && now[..|s.reg.owner|] == s.reg.owner
  {
  }

  lemma WriterAwaitsNothing(s: State, t: Task, w: WriteStep)
    requires CanWrite(s, t, w)
    ensures var s' := DoWrite(s, t, w);
            && s'.failed == s.failed
            && (forall u: Task :: u != t ==> At(s', u) == At(s, u))
            && forall e: Entry :: !Joining(At(s', t), e)
  {
  }

  lemma OwnJoin(s: State, t: Task, j: JoinStep)
    requires CanJoin(s, t, j) && |s.reg.owner| == |s.reg.sh.cells|
    ensures StillOwn(s, DoJoin(s, t, j), t)
  {
    if j == SetupDone(false) {
      assert Joining(At(s, t), At(s, t).mine);
    }
  }

  lemma OwnAbandon(s: State, t: Task, b: AbandonStep)
    requires CanAbandon(s, t, b)
    ensures StillOwn(s, DoAbandon(s, t, b), t)
  {
  }

  lemma OwnCall(s: State, t: Task, c: CallStep)
    requires CanCall(s, t, c)
    ensures StillOwn(s, DoCall(s, t, c), t)
  {
    CallerAwaitsNothing(s, t, c);
  }

  lemma CallerAwaitsNothing(s: State, t: Task, c: CallStep)
    requires CanCall(s, t, c)
    ensures var s' := DoCall(s, t, c);
            && s'.failed == s.failed && s'.reg.owner == s.reg.owner
            && (forall u: Task :: u != t ==> At(s', u) == At(s, u))
            && forall e: Entry :: !Joining(At(s', t), e)
  {
  }

  lemma OwnLeave(s: State, t: Task, l: LeaveStep)
    requires CanLeave(s, t, l)
    ensures StillOwn(s, DoLeave(s, t, l), t)
  {
  }

  lemma OwnRest(s: State, a: Action, t: Task)
    requires Ready(s, a) && (a.Pump? || a.Event?)
    ensures StillOwn(s, Apply(s, a), t)
  {
    assert Apply(s, a).pc == s.pc && Apply(s, a).failed == s.failed && Apply(s, a).reg.owner == s.reg.owner;
  }

  lemma OwnAction(s: State, a: Action)
    requires JoinsOwn(s) && Ready(s, a) && |s.reg.owner| == |s.reg.sh.cells|
    ensures JoinsOwn(Apply(s, a))
  {
    match a {
      case Write(t, w) => OwnWrite(s, t, w); OwnStep(s, Apply(s, a), t);
      case Join(t, j) => OwnJoin(s, t, j); OwnStep(s, Apply(s, a), t);
      case Abandon(t, b) => OwnAbandon(s, t, b); OwnStep(s, Apply(s, a), t);
      case Call(t, c) => OwnCall(s, t, c); OwnStep(s, Apply(s, a), t);
      case Leave(t, l) => OwnLeave(s, t, l); OwnStep(s, Apply(s, a), t);
      case _ => OwnRest(s, a, 0); OwnStep(s, Apply(s, a), 0);
    }
  }

  lemma {:induction false} OwnRun(actions: seq<Action>)
    requires Exec(OuterLock, INIT, actions).Some?
    ensures JoinsOwn(Exec(OuterLock, INIT, actions).value)
  {
    if actions != [] {
      var front := actions[..|actions| - 1];
      var s := Exec(OuterLock, INIT, front).value;
      OwnRun(front);
      ReachableInv(s);
      OwnAction(s, actions[|actions| - 1]);
    }
  }

  /**
   Outside a writer's critical section a pending id is awaited by the task that inserted its slot,
   exactly unless that task's join failed after inserting it.
   */
  lemma AwaitedExactly(s: State, id: Id)
    requires Reachable(OuterLock, s) && s.writer.None? && PendingAt(s.reg, id)
    ensures var e := s.reg.sh.conversations[id];
            && e < |s.reg.owner|
            && (Joining(At(s, s.reg.owner[e]), e) <==> e !in s.failed)
  {
    var actions :| Exec(OuterLock, INIT, actions) == Some(s);
    OwnRun(actions);
    PendingIsAwaited(s, id);
  }

  // ── Everything one id's fanout was handed ───────────────────────────────

  function DeliveredTo(d: seq<Delivery>, id: Id): seq<Event> {
    if d == [] then []
    else
      var rest := DeliveredTo(d[..|d| - 1], id);
      if d[|d| - 1].id == id then rest + [d[|d| - 1].ev] else rest
  }

  /** What the first `n` conversations handed over, one after the other, those of `id` only. */
  function ByInstance(d: seq<Delivery>, convs: seq<Conv>, id: Id, n: nat): seq<Event>
    requires n <= |convs|
  {
    if n == 0 then []
    else ByInstance(d, convs, id, n - 1) + if convs[n - 1].id == id then DeliveredOf(d, n - 1) else []
  }

  lemma {:induction false} ByInstanceEmpty(convs: seq<Conv>, id: Id, n: nat)
    requires n <= |convs|
    ensures ByInstance([], convs, id, n) == []
  {
    if n > 0 {
      ByInstanceEmpty(convs, id, n - 1);
    }
  }

  /** A delivery adds its event after all its id was handed before, if none of that is of a newer conversation. */
  lemma {:induction false} ByInstanceSnoc(d: seq<Delivery>, x: Delivery, convs: seq<Conv>, id: Id, n: nat)
    requires n <= |convs| && x.i < |convs| && convs[x.i].id == x.id
    requires forall k :: 0 <= k < |d| ==> d[k].i < |convs| && convs[d[k].i].id == d[k].id
    requires forall k :: 0 <= k < |d| && d[k].id == x.id ==> d[k].i <= x.i
    ensures ByInstance(d + [x], convs, id, n)
            == ByInstance(d, convs, id, n) + if x.id == id && x.i < n then [x.ev] else []
  {
    if n > 0 {
      ByInstanceSnoc(d, x, convs, id, n - 1);
      assert (d + [x])[..|d|] == d;
      if convs[n - 1].id == id && x.i < n - 1 && x.id == id {
        NothingDelivered(d, n - 1);
      }
    }
  }

  lemma {:induction false} ByInstanceIs(d: seq<Delivery>, convs: seq<Conv>, id: Id)
    requires InInstanceOrder(d)
    requires forall k :: 0 <= k < |d| ==> d[k].i < |convs| && convs[d[k].i].id == d[k].id
    ensures DeliveredTo(d, id) == ByInstance(d, convs, id, |convs|)
  {
    if d == [] {
      ByInstanceEmpty(convs, id, |convs|);
    } else {
      var front, x := d[..|d| - 1], d[|d| - 1];
      ByInstanceIs(front, convs, id);
      ByInstanceSnoc(front, x, convs, id, |convs|);
      assert front + [x] == d;
    }
  }

  /**
   For one id the fanout was handed the delivered prefix of each of its conversations, one whole
   after the other, in the order they were installed.
   */
  lemma DeliveriesConcatenate(s: State, id: Id)
    requires Reachable(OuterLock, s)
    ensures DeliveredTo(s.delivered, id) == ByInstance(s.delivered, s.reg.convs, id, |s.reg.convs|)
    ensures forall i :: 0 <= i < |s.reg.convs| ==> DeliveredOf(s.delivered, i) <= s.reg.convs[i].events
  {
    ReachableInv(s);
    forall k | 0 <= k < |s.delivered|
      ensures s.delivered[k].i < |s.reg.convs| && s.reg.convs[s.delivered[k].i].id == s.delivered[k].id
    {
      assert Installed(s.reg, s.delivered[k].i, s.delivered[k].id);
    }
    ByInstanceIs(s.delivered, s.reg.convs, id);
    forall i | 0 <= i < |s.reg.convs| ensures DeliveredOf(s.delivered, i) <= s.reg.convs[i].events {
      DeliveriesArePrefix(s, i);
    }
  }
}
