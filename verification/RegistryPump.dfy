/** What a tick of the pump does: the fanout of a conversation that stays listed is handed its events. */
module RegistryPump {
  import opened Wrappers
  import opened Registry
  import opened RegistryProtocol
  import opened RegistryInvariant
  import opened RegistryRuns
  import opened RegistryTheorems
  import opened RegistryHistory

  // ── What conversations emit ─────────────────────────────────────────────

  /** The events a run makes conversation `i` emit. */
  function Emitted(run: seq<Action>, i: Instance): seq<Event> {
    if run == [] then []
    else
      var before, a := Emitted(run[..|run| - 1], i), run[|run| - 1];
      if a.Event? && a.i == i then before + [a.ev] else before
  }

  /** The last step's share of it. */
  function EmittedBy(a: Action, i: Instance): seq<Event> {
    if a.Event? && a.i == i then [a.ev] else []
  }

  /** A conversation's events grow by what it emits, and only the pump drains them. */
  ghost predicate ConvGoesOn(s: State, s': State, i: Instance, more: seq<Event>)
    requires i < |s.reg.convs|
  {
    && i < |s'.reg.convs| && s'.reg.convs[i].events == s.reg.convs[i].events + more
    && s'.reg.convs[i].taken == s.reg.convs[i].taken
  }

  lemma WriteGoesOn(s: State, t: Task, w: WriteStep, i: Instance)
    requires CanWrite(s, t, w) && i < |s.reg.convs|
    ensures ConvGoesOn(s, DoWrite(s, t, w), i, [])
  {
  }

  lemma AbandonGoesOn(s: State, t: Task, b: AbandonStep, i: Instance)
    requires CanAbandon(s, t, b) && i < |s.reg.convs|
    ensures ConvGoesOn(s, DoAbandon(s, t, b), i, [])
  {
  }

  lemma CallGoesOn(s: State, t: Task, c: CallStep, i: Instance)
    requires CanCall(s, t, c) && i < |s.reg.convs|
    ensures ConvGoesOn(s, DoCall(s, t, c), i, [])
  {
    CallRest(s, t, c);
  }

  lemma LeaveGoesOn(s: State, t: Task, l: LeaveStep, i: Instance)
    requires CanLeave(s, t, l) && i < |s.reg.convs|
    ensures ConvGoesOn(s, DoLeave(s, t, l), i, [])
  {
  }

  lemma GoesOn(s: State, a: Action, i: Instance)
    requires Ready(s, a) && i < |s.reg.convs| && !a.Pump?
    ensures ConvGoesOn(s, Apply(s, a), i, EmittedBy(a, i))
  {
    match a {
      case Write(t, w) => WriteGoesOn(s, t, w, i);
      case Join(t, j) => assert DoJoin(s, t, j).reg.convs == s.reg.convs;
      case Abandon(t, b) => AbandonGoesOn(s, t, b, i);
      case Call(t, c) => CallGoesOn(s, t, c, i);
      case Leave(t, l) => LeaveGoesOn(s, t, l, i);
      case Event(_, _) =>
    }
  }

  lemma PumpEvents(s: State, p: PumpStep)
    requires CanPump(s, p)
    ensures |DoPump(s, p).reg.convs| == |s.reg.convs|
    ensures forall i :: 0 <= i < |s.reg.convs| ==> DoPump(s, p).reg.convs[i].events == s.reg.convs[i].events
  {
  }

  lemma StartsSilent(s: State, a: Action, i: Instance)
    requires Ready(s, a) && |s.reg.convs| <= i < |Apply(s, a).reg.convs|
    ensures Apply(s, a).reg.convs[i].events == [] && !a.Event?
  {
    match a {
      case Call(t, c) => CallRest(s, t, c);
      case Pump(p) => PumpEvents(s, p);
      case _ =>
    }
  }

  lemma EventsStep(s: State, a: Action, i: Instance, before: seq<Event>)
    requires Ready(s, a) && i < |Apply(s, a).reg.convs|
    requires before == if i < |s.reg.convs| then s.reg.convs[i].events else []
    ensures Apply(s, a).reg.convs[i].events == before + EmittedBy(a, i)
  {
    if i >= |s.reg.convs| {
      StartsSilent(s, a, i);
    } else if a.Pump? {
      PumpEvents(s, a.p);
    } else {
      GoesOn(s, a, i);
    }
  }

  lemma {:induction false} SilentBefore(run: seq<Action>, i: Instance)
    requires IsRun(run) && i >= |Final(run).reg.convs|
    ensures Emitted(run, i) == []
  {
    if run != [] {
      RunLast(run);
      var s, a := Final(run[..|run| - 1]), run[|run| - 1];
      ConvsGrow(s, a);
      SilentBefore(run[..|run| - 1], i);
    }
  }

  lemma ConvsGrow(s: State, a: Action)
    requires Ready(s, a)
    ensures |s.reg.convs| <= |Apply(s, a).reg.convs|
  {
    if |s.reg.convs| > 0 && !a.Pump? {
      GoesOn(s, a, |s.reg.convs| - 1);
    } else if a.Pump? {
      PumpEvents(s, a.p);
    }
  }

  /** A conversation holds exactly what the run made it emit, in order. */
  lemma {:induction false} EventsAreEmitted(run: seq<Action>, i: Instance)
    requires IsRun(run) && i < |Final(run).reg.convs|
    ensures Final(run).reg.convs[i].events == Emitted(run, i)
  {
    if run != [] {
      RunLast(run);
      var front := run[..|run| - 1];
      if i < |Final(front).reg.convs| {
        EventsAreEmitted(front, i);
      } else {
        SilentBefore(front, i);
      }
      EventsStep(Final(front), run[|run| - 1], i, Emitted(front, i));
    }
  }

  // ── A tick hands over all of it ─────────────────────────────────────────

  ghost predicate HasEmitted(s: State, i: Instance, events: seq<Event>) {
    i < |s.reg.convs| && events <= s.reg.convs[i].events
  }

  /** The tick under way will hand over, or has handed over, these events of conversation `i` under `id`. */
  ghost predicate OnTheWay(s: State, id: Id, i: Instance, events: seq<Event>) {
    || events <= DeliveredOf(s.delivered, i)
    || (s.pump.Scanning? && id in s.pump.todo)
    || (s.pump.Looked? && id in s.pump.todo)
    || (s.pump.Handing? && id in s.pump.todo)
    || (s.pump.Looked? && Holds(s.reg, s.pump.e, i))
    || (s.pump.Handing? && s.pump.i == i && i < |s.reg.convs| && |events| <= s.reg.convs[i].taken)
  }

  lemma DeliveredMore(d: seq<Delivery>, x: Delivery, i: Instance, events: seq<Event>)
    requires events <= DeliveredOf(d, i)
    ensures events <= DeliveredOf(d + [x], i)
  {
    DeliveredOne(d, x, i);
  }

  lemma LookOnTheWay(s: State, x: Id, id: Id, i: Instance, events: seq<Event>)
    requires CanPump(s, Look(x)) && ListedConv(s.reg, id) == Some(i)
    requires OnTheWay(s, id, i, events)
    ensures OnTheWay(DoPump(s, Look(x)), id, i, events)
  {
  }

  lemma TakeOnTheWay(s: State, id: Id, i: Instance, events: seq<Event>)
    requires CanPump(s, Take) && HasEmitted(s, i, events) && OnTheWay(s, id, i, events)
    ensures OnTheWay(DoPump(s, Take), id, i, events)
  {
  }

  lemma HandOnTheWay(s: State, id: Id, i: Instance, events: seq<Event>)
    requires CanPump(s, Hand) && OnTheWay(s, id, i, events)
    ensures OnTheWay(DoPump(s, Hand), id, i, events)
  {
    if events <= DeliveredOf(s.delivered, i) {
      DeliveredMore(s.delivered, Delivery(s.pump.id, s.pump.i, s.pump.batch[0]), i, events);
    }
  }

  /** With nothing of the batch left, all that was taken has been handed over. */
  lemma NextOnTheWay(s: State, id: Id, i: Instance, events: seq<Event>)
    requires Handed(s) && CanPump(s, Next) && HasEmitted(s, i, events) && OnTheWay(s, id, i, events)
    ensures OnTheWay(DoPump(s, Next), id, i, events)
  {
    assert DeliveredPrefix(s.reg.convs[i], s.delivered, s.pump, i);
    if s.pump.i == i && |events| <= s.reg.convs[i].taken {
      assert DeliveredOf(s.delivered, i) + [] == DeliveredOf(s.delivered, i);
    }
  }

  lemma PumpOnTheWay(s: State, p: PumpStep, id: Id, i: Instance, events: seq<Event>)
    requires Handed(s) && CanPump(s, p) && !p.Sleep? && ListedConv(s.reg, id) == Some(i)
    requires HasEmitted(s, i, events) && OnTheWay(s, id, i, events)
    ensures OnTheWay(DoPump(s, p), id, i, events)
  {
    match p {
      case Look(x) => LookOnTheWay(s, x, id, i, events);
      case Take => TakeOnTheWay(s, id, i, events);
      case Hand => HandOnTheWay(s, id, i, events);
      case Next => NextOnTheWay(s, id, i, events);
      case _ =>
    }
  }

  lemma PumpStandsStill(s: State, a: Action)
    requires Ready(s, a) && !a.Pump?
    ensures Apply(s, a).pump == s.pump && Apply(s, a).delivered == s.delivered
  {
    match a {
      case Write(t, w) => WriteKeepsPump(s, t, w);
      case Call(t, c) => CallRest(s, t, c);
      case _ =>
    }
  }

  lemma OthersOnTheWay(s: State, a: Action, id: Id, i: Instance, events: seq<Event>)
    requires Ready(s, a) && !a.Pump? && HasEmitted(s, i, events) && OnTheWay(s, id, i, events)
    ensures OnTheWay(Apply(s, a), id, i, events)
  {
    PumpStandsStill(s, a);
    GoesOn(s, a, i);
    if s.pump.Looked? && Holds(s.reg, s.pump.e, i) {
      LiveStays(s, a, s.pump.e);
    }
  }

  lemma StepOnTheWay(s: State, a: Action, id: Id, i: Instance, events: seq<Event>)
    requires Inv(s) && Ready(s, a) && a != Pump(Sleep) && ListedConv(s.reg, id) == Some(i)
    requires HasEmitted(s, i, events) && OnTheWay(s, id, i, events)
    ensures HasEmitted(Apply(s, a), i, events) && OnTheWay(Apply(s, a), id, i, events)
  {
    EmittedStays(s, a, i, events);
    if a.Pump? {
      PumpOnTheWay(s, a.p, id, i, events);
    } else {
      OthersOnTheWay(s, a, id, i, events);
    }
  }

  lemma EmittedStays(s: State, a: Action, i: Instance, events: seq<Event>)
    requires Ready(s, a) && HasEmitted(s, i, events)
    ensures HasEmitted(Apply(s, a), i, events)
  {
    if a.Pump? {
      PumpEvents(s, a.p);
    } else {
      GoesOn(s, a, i);
    }
  }

  predicate ListedAt(run: seq<Action>, k: nat, id: Id, i: Instance)
    requires k <= |run|
  {
    ListedConv(Before(run, k).reg, id) == Some(i)
  }

  ghost predicate ListedThrough(run: seq<Action>, a: nat, b: nat, id: Id, i: Instance)
    requires b <= |run|
  {
    forall k: nat :: a <= k <= b ==> ListedAt(run, k, id, i)
  }

  ghost predicate WayAt(run: seq<Action>, k: nat, id: Id, i: Instance, events: seq<Event>)
    requires k <= |run|
  {
    HasEmitted(Before(run, k), i, events) && OnTheWay(Before(run, k), id, i, events)
  }

  lemma ScanTakesAll(s: State, id: Id, i: Instance)
    requires CanPump(s, Scan) && id in s.fanouts && i < |s.reg.convs|
    ensures var events := s.reg.convs[i].events;
            HasEmitted(DoPump(s, Scan), i, events) && OnTheWay(DoPump(s, Scan), id, i, events)
  {
  }

  /** Step `k` does not end the tick, and the conversation is listed before it. */
  predicate TicksOn(run: seq<Action>, k: nat, id: Id, i: Instance)
    requires k < |run|
  {
    run[k] != Pump(Sleep) && ListedAt(run, k, id, i)
  }

  lemma {:induction false} StaysTrue(p: nat -> bool, a: nat, b: nat)
    requires a <= b && p(a) && forall k: nat :: a <= k < b && p(k) ==> p(k + 1)
    ensures p(b)
  {
    if a < b {
      StaysTrue(p, a, b - 1);
    }
  }

  lemma WayThrough(run: seq<Action>, a: nat, b: nat, id: Id, i: Instance, events: seq<Event>)
    requires a <= b <= |run| && WayAt(run, a, id, i, events)
    requires forall k: nat :: a <= k < b && WayAt(run, k, id, i, events) ==> WayAt(run, k + 1, id, i, events)
    ensures WayAt(run, b, id, i, events)
  {
    StaysTrue((k: nat) => k <= |run| && WayAt(run, k, id, i, events), a, b);
  }

  lemma WaySteps(run: seq<Action>, a: nat, b: nat, id: Id, i: Instance, events: seq<Event>)
    requires IsRun(run) && a <= b <= |run| && forall j: nat :: a <= j < b ==> TicksOn(run, j, id, i)
    ensures forall k: nat :: a <= k < b && WayAt(run, k, id, i, events) ==> WayAt(run, k + 1, id, i, events)
  {
    forall k: nat | a <= k < b && WayAt(run, k, id, i, events) ensures WayAt(run, k + 1, id, i, events) {
      WayStep(run, k, id, i, events);
    }
  }

  lemma WayStarts(run: seq<Action>, a: nat, id: Id, i: Instance)
    requires IsRun(run) && a < |run| && run[a] == Pump(Scan)
    requires id in Before(run, a).fanouts && ListedAt(run, a, id, i)
    ensures i < |Before(run, a).reg.convs| && WayAt(run, a + 1, id, i, Before(run, a).reg.convs[i].events)
  {
    ListedExists(Before(run, a).reg, id);
    RunPrefix(run, a);
    ScanTakesAll(Before(run, a), id, i);
  }

  lemma ListedExists(r: Reg, id: Id)
    requires ListedConv(r, id).Some?
    ensures ListedConv(r, id).value < |r.convs|
  {
  }

  lemma WayStep(run: seq<Action>, k: nat, id: Id, i: Instance, events: seq<Event>)
    requires IsRun(run) && k < |run| && TicksOn(run, k, id, i)
    requires WayAt(run, k, id, i, events)
    ensures WayAt(run, k + 1, id, i, events)
  {
    RunPrefix(run, k);
    FinalInv(run[..k]);
    StepOnTheWay(Before(run, k), run[k], id, i, events);
  }

  /**
   A tick, from its scan to its sleep, hands to the fanout of an id everything its conversation had
   emitted by the scan, if that conversation stays listed in between.
   */
  lemma TickDelivers(run: seq<Action>, a: nat, b: nat, id: Id, i: Instance)
    requires IsRun(run) && a < b < |run| && run[a] == Pump(Scan) && run[b] == Pump(Sleep)
    requires forall k :: a < k < b ==> run[k] != Pump(Sleep)
    requires id in Before(run, a).fanouts && ListedThrough(run, a, b, id, i)
    ensures i < |Before(run, a).reg.convs|
    ensures Before(run, a).reg.convs[i].events <= DeliveredOf(Before(run, b).delivered, i)
  {
    assert ListedAt(run, a, id, i);
    WayStarts(run, a, id, i);
    var events := Before(run, a).reg.convs[i].events;
    forall k: nat | a + 1 <= k < b ensures TicksOn(run, k, id, i) {
      assert ListedAt(run, k, id, i);
    }
    WaySteps(run, a + 1, b, id, i, events);
    WayThrough(run, a + 1, b, id, i, events);
    WayEnds(run, b, id, i, events);
  }

  lemma WayEnds(run: seq<Action>, b: nat, id: Id, i: Instance, events: seq<Event>)
    requires IsRun(run) && b < |run| && run[b] == Pump(Sleep) && WayAt(run, b, id, i, events)
    ensures events <= DeliveredOf(Before(run, b).delivered, i)
  {
    RunPrefix(run, b);
    SleepsWhenDone(Before(run, b), id, i, events);
  }

  lemma SleepsWhenDone(s: State, id: Id, i: Instance, events: seq<Event>)
    requires CanPump(s, Sleep) && OnTheWay(s, id, i, events)
    ensures events <= DeliveredOf(s.delivered, i)
  {
  }

  // ── A tick comes to its end ─────────────────────────────────────────────

  /** With no guard in its way the pump can always go on. */
  lemma PumpGoesOn(s: State) returns (p: PumpStep)
    requires Reachable(OuterLock, s) && s.writer.None? && s.registryLock.None?
    ensures Enabled(OuterLock, s, Pump(p))
  {
    ReachableInv(s);
    match s.pump {
      case Sleeping => p := Drain;
      case Replaying(rest) => p := if rest == [] then Scan else Replay;
      case Scanning(todo) =>
        if todo == {} {
          p := Sleep;
        } else {
          var id :| id in todo;
          p := Look(id);
        }
      case Looked(_, e, _) =>
        p := Take;
        TakePossible(s);
      case Handing(_, _, batch, _) => p := if batch == [] then Next else Hand;
    }
  }

  lemma TakePossible(s: State)
    requires Cells(s.reg) && Handed(s) && s.pump.Looked?
    ensures CanPump(s, Take)
  {
    var e := s.pump.e;
    if s.reg.sh.cells[e].slot.Live? {
      var i := s.reg.sh.cells[e].slot.instance;
      assert Holds(s.reg, e, i);
      assert DeliveredPrefix(s.reg.convs[i], s.delivered, s.pump, i);
    }
  }

  /** What a tick has left to do, most significant first. */
  datatype Left = Left(stage: nat, ids: nat, step: nat, events: nat)

  function TickLeft(p: Pump): Left {
    match p
    case Replaying(rest) => Left(2, |rest|, 0, 0)
    case Looked(_, _, todo) => Left(1, |todo|, 2, 0)
    case Handing(_, _, batch, todo) => Left(1, |todo|, 1, |batch|)
    case Scanning(todo) => Left(1, |todo|, 0, 0)
    case Sleeping => Left(0, 0, 0, 0)
  }

  predicate Less(x: Left, y: Left) {
    || x.stage < y.stage
    || (x.stage == y.stage && x.ids < y.ids)
    || (x.stage == y.stage && x.ids == y.ids && x.step < y.step)
    || (x.stage == y.stage && x.ids == y.ids && x.step == y.step && x.events < y.events)
  }

  /** Every step of a tick leaves strictly less to do, and no other task adds to it. */
  lemma TickFinishes(s: State, a: Action)
    requires Ready(s, a) && a != Pump(Drain)
    ensures if a.Pump? then Less(TickLeft(Apply(s, a).pump), TickLeft(s.pump)) else Apply(s, a).pump == s.pump
  {
    if a.Pump? {
      match a.p {
        case Look(id) => assert |s.pump.todo - {id}| < |s.pump.todo|;
        case _ =>
      }
    } else {
      PumpStandsStill(s, a);
    }
  }
}
