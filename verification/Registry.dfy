/**
 The per-user conversation registry: what `User` keeps behind its locks, the inner-lock
 steps its operations are made of, and the operations themselves as methods of a class.

 A registry entry is an `Arc<RwLock<ConversationSlot>>`. It is modelled as an index into an
 arena of cells: copying the index is cloning the `Arc`, and a cell stays in the arena after
 its key was removed from the map, as an `Arc` held by some task keeps its slot alive.
 */
module Registry {
  import opened Wrappers

  type Id = string
  type Entry = nat
  /** The identity of one `Conversation` value; nothing else about it is visible here. */
  type Instance = nat

  datatype Slot = Pending | Live(instance: Instance)

  /** One arena cell. `key` remembers the id the entry was created for. */
  datatype Cell = Cell(key: Id, slot: Slot)

  datatype Lifecycle = Created(id: Id) | Removed(id: Id)

  datatype Shared = Shared(
    conversations: map<Id, Entry>,
    cells: seq<Cell>,
    lifecycle: seq<Lifecycle>)

  ghost predicate Valid(sh: Shared) {
    forall id :: id in sh.conversations ==>
      sh.conversations[id] < |sh.cells| && sh.cells[sh.conversations[id]].key == id
  }

  // ── Inner-lock steps ────────────────────────────────────────────────────
  // Each one runs under a single acquisition of the registry lock, of a slot lock or of the
  // lifecycle mutex. The protocol interleaves exactly these.

  function Lookup(sh: Shared, id: Id): Option<Entry> {
    if id in sh.conversations then Some(sh.conversations[id]) else None
  }

  function SlotOf(sh: Shared, id: Id): Option<Slot>
    requires Valid(sh)
  {
    if id in sh.conversations then Some(sh.cells[sh.conversations[id]].slot) else None
  }

  predicate LiveAt(sh: Shared, id: Id)
    requires Valid(sh)
  {
    SlotOf(sh, id).Some? && SlotOf(sh, id).value.Live?
  }

  function InsertPending(sh: Shared, id: Id): Shared {
    sh.(conversations := sh.conversations[id := |sh.cells|], cells := sh.cells + [Cell(id, Pending)])
  }

  function GetOrInsert(sh: Shared, id: Id): Shared {
    if id in sh.conversations then sh else InsertPending(sh, id)
  }

  function FillSlot(sh: Shared, e: Entry, i: Instance): Shared
    requires e < |sh.cells|
  {
    sh.(cells := sh.cells[e := sh.cells[e].(slot := Live(i))])
  }

  function RemoveKey(sh: Shared, id: Id): Shared {
    sh.(conversations := sh.conversations - {id})
  }

  function Emit(sh: Shared, ev: Lifecycle): Shared {
    sh.(lifecycle := sh.lifecycle + [ev])
  }

  // ── Whole operations, as one function of the shared state ───────────────

  function AfterInstall(sh: Shared, id: Id, i: Instance): Shared
    requires Valid(sh)
  {
    if LiveAt(sh, id) then sh
    else
      var listed := GetOrInsert(sh, id);
      Emit(FillSlot(listed, listed.conversations[id], i), Created(id))
  }

  function AfterAbandon(sh: Shared, id: Id): Shared
    requires Valid(sh)
  {
    if SlotOf(sh, id) == Some(Pending) then RemoveKey(sh, id) else sh
  }

  function AfterLeave(sh: Shared, id: Id): Shared {
    Emit(RemoveKey(sh, id), Removed(id))
  }

  /** `leave` is what the conversation answers if the id is live. */
  function AfterInbound(sh: Shared, id: Id, leave: bool): Shared
    requires Valid(sh)
  {
    if LiveAt(sh, id) && leave then AfterLeave(sh, id) else sh
  }

  // ── The operations of `User` ────────────────────────────────────────────

  datatype UserError =
    | ConversationAlreadyExists
    | ConversationNotFound
    | WelcomeNotForUs
    | Transport
    | Conversation

  /** What the opaque `process_inbound` answers. */
  datatype Dispatch = Failed | Processed | LeaveRequested

  /** Everything about the registry except the entry under `id` is as it was. */
  ghost predicate OnlyTouches(before: Shared, after: Shared, id: Id)
    requires Valid(before) && Valid(after)
  {
    forall other :: other != id ==> SlotOf(after, other) == SlotOf(before, other)
  }

  class User {
    const appId: seq<nat>
    var conversations: map<Id, Entry>
    var cells: seq<Cell>
    var pendingLifecycleEvents: seq<Lifecycle>

    ghost function View(): Shared
      reads this
    {
      Shared(conversations, cells, pendingLifecycleEvents)
    }

    ghost predicate Inv()
      reads this
    {
      Valid(View())
    }

    constructor (appId: seq<nat>)
      ensures Inv() && View() == Shared(map[], [], []) && this.appId == appId
    {
      this.appId := appId;
      conversations, cells, pendingLifecycleEvents := map[], [], [];
    }

    method LookupEntry(id: Id) returns (r: Option<Entry>)
      requires Inv()
      ensures r.Some? <==> id in conversations
      ensures r.Some? ==> r.value < |cells| && r == Some(conversations[id]) && cells[r.value].key == id
    {
      if id in conversations {
        r := Some(conversations[id]);
      } else {
        r := None;
      }
    }

    method BeginPendingJoin(id: Id) returns (r: Result<(), UserError>)
      requires Inv()
      modifies this
      ensures Inv() && OnlyTouches(old(View()), View(), id)
      ensures View() == GetOrInsert(old(View()), id)
      ensures pendingLifecycleEvents == old(pendingLifecycleEvents)
      ensures r == if SlotOf(old(View()), id).Some? then Err(ConversationAlreadyExists) else Ok(())
      ensures r.Err? ==> View() == old(View())
      ensures r.Ok? ==> SlotOf(View(), id) == Some(Pending)
    {
      if id in conversations {
        return Err(ConversationAlreadyExists);
      }
      conversations := conversations[id := |cells|];
      cells := cells + [Cell(id, Pending)];
      r := Ok(());
    }

    method AbandonPendingJoin(id: Id)
      requires Inv()
      modifies this
      ensures Inv() && OnlyTouches(old(View()), View(), id)
      ensures View() == AfterAbandon(old(View()), id)
      ensures SlotOf(View(), id) ==
              if SlotOf(old(View()), id) == Some(Pending) then None else SlotOf(old(View()), id)
    {
      var entry := LookupEntry(id);
      if entry.None? {
        return;
      }
      if cells[entry.value].slot.Pending? {
        conversations := conversations - {id};
      }
    }

    method EmitLifecycle(ev: Lifecycle)
      modifies this`pendingLifecycleEvents
      ensures View() == Emit(old(View()), ev)
    {
      pendingLifecycleEvents := pendingLifecycleEvents + [ev];
    }

    method DrainLifecycleEvents() returns (drained: seq<Lifecycle>)
      modifies this`pendingLifecycleEvents
      ensures drained == old(pendingLifecycleEvents) && pendingLifecycleEvents == []
    {
      drained := pendingLifecycleEvents;
      pendingLifecycleEvents := [];
    }

    /** `None` is the idempotent answer: the id was live and nothing changed. */
    method InstallConversation(id: Id, conversation: Instance) returns (r: Option<Entry>)
      requires Inv()
      modifies this
      ensures Inv() && OnlyTouches(old(View()), View(), id)
      ensures View() == AfterInstall(old(View()), id, conversation)
      ensures r.None? <==> LiveAt(old(View()), id)
      ensures r.None? ==> View() == old(View())
      ensures r.Some? ==>
        && SlotOf(View(), id) == Some(Live(conversation))
        && r == Lookup(View(), id)
        && pendingLifecycleEvents == old(pendingLifecycleEvents) + [Created(id)]
        // A pending slot is filled in place, so a task holding the entry sees the conversation.
        && (SlotOf(old(View()), id).Some? ==> conversations == old(conversations))
    {
      if id !in conversations {
        conversations := conversations[id := |cells|];
        cells := cells + [Cell(id, Pending)];
      }
      var entry := conversations[id];
      if !cells[entry].slot.Pending? {
        return None;
      }
      cells := cells[entry := cells[entry].(slot := Live(conversation))];
      EmitLifecycle(Created(id));
      r := Some(entry);
    }

    /** `create` is what the opaque constructor answered; it is asked only for a free id. */
    method RegisterConversation(id: Id, create: Result<Instance, UserError>)
      returns (r: Result<(), UserError>)
      requires Inv()
      modifies this
      ensures Inv() && OnlyTouches(old(View()), View(), id)
      ensures r == if SlotOf(old(View()), id).Some? then Err(ConversationAlreadyExists)
                   else if create.Err? then Err(create.error)
                   else Ok(())
      ensures r.Err? ==> View() == old(View())
      ensures r.Ok? ==> SlotOf(View(), id) == Some(Live(create.value))
                        && pendingLifecycleEvents == old(pendingLifecycleEvents) + [Created(id)]
    {
      if id in conversations {
        return Err(ConversationAlreadyExists);
      }
      if create.Err? {
        return Err(create.error);
      }
      var _ := InstallConversation(id, create.value);
      r := Ok(());
    }

    /** `join` is what `Conversation::join` answered: `Ok(None)` is a welcome for someone else. */
    method AcceptWelcome(join: Result<Option<(Id, Instance)>, UserError>, flushed: Result<(), UserError>)
      returns (r: Result<Id, UserError>)
      requires Inv()
      modifies this
      ensures Inv()
      ensures join.Err? ==> r == Err(join.error) && View() == old(View())
      ensures join.Ok? && join.value.None? ==> r == Err(WelcomeNotForUs) && View() == old(View())
      ensures join.Ok? && join.value.Some? ==>
        var (id, conversation) := join.value.value;
        && OnlyTouches(old(View()), View(), id)
        && (if LiveAt(old(View()), id) then r == Ok(id) && View() == old(View())
            else SlotOf(View(), id) == Some(Live(conversation))
                 && pendingLifecycleEvents == old(pendingLifecycleEvents) + [Created(id)]
                 && r == if flushed.Err? then Err(flushed.error) else Ok(id))
    {
      if join.Err? {
        return Err(join.error);
      }
      if join.value.None? {
        return Err(WelcomeNotForUs);
      }
      var (id, conversation) := join.value.value;
      var entry := InstallConversation(id, conversation);
      if entry.None? {
        return Ok(id);
      }
      if flushed.Err? {
        return Err(flushed.error);
      }
      r := Ok(id);
    }

    /** Eviction and `Removed` happen whatever the scope cleanup answered. */
    method FinalizeSelfLeave(id: Id, cleanup: Result<(), UserError>) returns (r: Result<(), UserError>)
      requires Inv()
      modifies this
      ensures Inv() && OnlyTouches(old(View()), View(), id)
      ensures View() == AfterLeave(old(View()), id)
      ensures SlotOf(View(), id) == None && r == cleanup
    {
      conversations := conversations - {id};
      EmitLifecycle(Removed(id));
      r := cleanup;
    }

    /** `leave` is the answer of the opaque `poll`; a failed flush takes its place. */
    method PollConversation(id: Id, leave: bool, flushed: Result<(), UserError>)
      returns (r: Result<bool, UserError>)
      requires Inv()
      ensures r == if !LiveAt(View(), id) then Err(ConversationNotFound)
                   else if flushed.Err? then Err(flushed.error)
                   else Ok(leave)
    {
      var entry := LookupEntry(id);
      if entry.None? || cells[entry.value].slot.Pending? {
        return Err(ConversationNotFound);
      }
      if flushed.Err? {
        return Err(flushed.error);
      }
      r := Ok(leave);
    }

    /** `outcome`, `cleanup` and `flushed` are what the opaque callees answer if they are reached. */
    method HandleInbound(id: Id, sender: seq<nat>, outcome: Dispatch,
                         cleanup: Result<(), UserError>, flushed: Result<(), UserError>)
      returns (r: Result<(), UserError>)
      requires Inv()
      modifies this
      ensures Inv() && OnlyTouches(old(View()), View(), id)
      ensures View() == if sender == appId then old(View()) else AfterInbound(old(View()), id, outcome.LeaveRequested?)
      ensures sender == appId ==> r == Ok(()) && View() == old(View())
      ensures sender != appId && SlotOf(old(View()), id).None? ==>
                r == Err(ConversationNotFound) && View() == old(View())
      ensures sender != appId && SlotOf(old(View()), id) == Some(Pending) ==>
                r == Ok(()) && View() == old(View())
      ensures sender != appId && LiveAt(old(View()), id) ==>
        if outcome.LeaveRequested? then
          && SlotOf(View(), id) == None
          && pendingLifecycleEvents == old(pendingLifecycleEvents) + [Removed(id)]
          && r == if cleanup.Err? then cleanup else flushed
        else
          && View() == old(View())
          && r == if outcome.Failed? then Err(Conversation) else flushed
    {
      if sender == appId {
        return Ok(());
      }
      var entry := LookupEntry(id);
      if entry.None? {
        return Err(ConversationNotFound);
      }
      if cells[entry.value].slot.Pending? {
        return Ok(());
      }
      if outcome.Failed? {
        return Err(Conversation);
      }
      if outcome.LeaveRequested? {
        var done := FinalizeSelfLeave(id, cleanup);
        if done.Err? {
          return done;
        }
      }
      r := flushed;
    }

    /** `invite` says whether the payload decodes, `sponsored` what the opaque `sponsor_member` answers. */
    method ReceiveKeyPackage(id: Id, sender: seq<nat>, invite: bool,
                             sponsored: Result<(), UserError>, flushed: Result<(), UserError>)
      returns (r: Result<(), UserError>)
      requires Inv()
      ensures r == if sender == appId || !LiveAt(View(), id) || !invite then Ok(())
                   else if sponsored.Err? then sponsored
                   else flushed
    {
      if sender == appId {
        return Ok(());
      }
      var entry := LookupEntry(id);
      if entry.None? || !invite || cells[entry.value].slot.Pending? {
        return Ok(());
      }
      r := if sponsored.Err? then sponsored else flushed;
    }

    /** Only opens the round: the entry goes later, with `FinalizeSelfLeave`. */
    method LeaveConversation(id: Id, left: Result<(), UserError>, flushed: Result<(), UserError>)
      returns (r: Result<(), UserError>)
      requires Inv()
      ensures r == if !LiveAt(View(), id) then Err(ConversationNotFound)
                   else if left.Err? then left
                   else flushed
    {
      var entry := LookupEntry(id);
      if entry.None? || cells[entry.value].slot.Pending? {
        return Err(ConversationNotFound);
      }
      r := if left.Err? then left else flushed;
    }
  }
}
