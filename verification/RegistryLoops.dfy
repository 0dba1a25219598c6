/** The loops around the registry: the wait of `join_group`, and the pump's replay of the lifecycle log. */
module RegistryLoops {
  import opened Wrappers
  import opened Registry
  import opened RegistryProtocol
  import opened RegistryTheorems

  /** What one round finds: the id is live, not found or pending, or the registry cannot be read. */
  datatype Reading = Joined | NotYet | Broken

  /** What `conversation_state` of `id` answers on that registry; `None` is one that cannot be read. */
  function ReadingOf(view: Option<Shared>, id: Id): Reading {
    match view
    case None => Broken
    case Some(sh) =>
      var e := Lookup(sh, id);
      if e.Some? && e.value < |sh.cells| && sh.cells[e.value].slot.Live? then Joined else NotYet
  }

  /** The same in round `k`; `views(k)` is the registry then. */
  function ReadingIn(views: nat -> Option<Shared>, id: Id, k: nat): Reading {
    ReadingOf(views(k), id)
  }

  ghost predicate LiveFirstIn(views: nat -> Option<Shared>, id: Id, k: nat) {
    ReadingIn(views, id, k).Joined? && forall j: nat :: j < k ==> ReadingIn(views, id, j).NotYet?
  }

  lemma NeverLive(views: nat -> Option<Shared>, id: Id, r: nat)
    requires ReadingIn(views, id, r).Broken?
    requires forall j: nat :: j < r ==> ReadingIn(views, id, j).NotYet?
    ensures forall k: nat :: !LiveFirstIn(views, id, k)
  {
    forall k: nat ensures !LiveFirstIn(views, id, k) {
      assert k > r ==> ReadingIn(views, id, r).Broken?;
    }
  }

  /** Other tasks run between the rounds, so the views are any. */
  method AwaitWelcome(views: nat -> Option<Shared>, id: Id) returns (joined: bool, rounds: nat)
    ensures rounds <= MAX_JOIN_ROUNDS
    ensures joined ==> rounds > 0 && LiveFirstIn(views, id, rounds - 1)
    ensures joined <==> exists k: nat :: k < MAX_JOIN_ROUNDS && LiveFirstIn(views, id, k)
    ensures !joined && rounds < MAX_JOIN_ROUNDS ==> rounds > 0 && ReadingIn(views, id, rounds - 1).Broken?
  {
    joined, rounds := false, 0;
    while rounds < MAX_JOIN_ROUNDS
      invariant rounds <= MAX_JOIN_ROUNDS && !joined
      invariant forall j: nat :: j < rounds ==> ReadingIn(views, id, j).NotYet?
    {
      var reading := ReadingIn(views, id, rounds);
      rounds := rounds + 1;
      if reading.Joined? {
        joined := true;
        assert LiveFirstIn(views, id, rounds - 1);
        break;
      }
      if reading.Broken? {
        NeverLive(views, id, rounds - 1);
        break;
      }
    }
  }

  /**
   The waiter's end: polling goes on exactly if some round found the id live and every round before
   it found it missing or pending; otherwise the pending slot is dropped. `user` is what the other
   tasks have made of the registry by then, which the views do not determine; what can happen in
   between is the machine's part.
   */
  method FinishJoin(user: User, id: Id, views: nat -> Option<Shared>) returns (polling: bool)
    requires user.Inv()
    modifies user
    ensures user.Inv()
    ensures polling <==> exists k: nat :: k < MAX_JOIN_ROUNDS && LiveFirstIn(views, id, k)
    ensures polling ==> user.View() == old(user.View())
    ensures !polling ==> user.View() == AfterAbandon(old(user.View()), id) && SlotOf(user.View(), id) != Some(Pending)
  {
    var joined, _ := AwaitWelcome(views, id);
    if !joined {
      user.AbandonPendingJoin(id);
    }
    polling := joined;
  }

  class Pump {
    var activeFanouts: set<Id>

    constructor ()
      ensures activeFanouts == {}
    {
      activeFanouts := {};
    }

    /** The first half of a tick. */
    method ReplayLifecycle(user: User)
      requires user.Inv()
      modifies this, user`pendingLifecycleEvents
      ensures user.pendingLifecycleEvents == []
      ensures activeFanouts == ApplyAll(old(activeFanouts), old(user.pendingLifecycleEvents))
    {
      var lifecycle := user.DrainLifecycleEvents();
      var k := 0;
      while k < |lifecycle|
        invariant 0 <= k <= |lifecycle| && user.pendingLifecycleEvents == []
        invariant activeFanouts == ApplyAll(old(activeFanouts), lifecycle[..k])
      {
        assert lifecycle[..k + 1][..k] == lifecycle[..k];
        match lifecycle[k] {
          case Created(name) => activeFanouts := activeFanouts + {name};
          case Removed(name) => activeFanouts := activeFanouts - {name};
        }
        k := k + 1;
      }
      assert lifecycle[..k] == lifecycle;
    }
  }
}
