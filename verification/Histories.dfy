/** Windows over a growing log: two ways the program keeps the last few entries. */
module Windows {
  function Last<T>(log: seq<T>, k: nat): seq<T> {
    if |log| <= k then log else log[|log| - k..]
  }

  /** Push, then drop the oldest if that made one too many. */
  function PushTrim<T>(window: seq<T>, x: T, k: nat): seq<T> {
    if |window| + 1 > k then (window + [x])[1..] else window + [x]
  }

  /** Drop the oldest if there is no room, then push. */
  function TrimPush<T>(window: seq<T>, x: T, k: nat): seq<T>
    requires k > 0
  {
    (if |window| >= k then window[1..] else window) + [x]
  }

  lemma LastAt<T>(log: seq<T>, k: nat, j: nat)
    requires j < |Last(log, k)|
    ensures |Last(log, k)| <= |log| && Last(log, k)[j] == log[|log| - |Last(log, k)| + j]
  {
  }

  lemma PushTrimLast<T>(log: seq<T>, x: T, k: nat)
    requires k > 0
    ensures PushTrim(Last(log, k), x, k) == Last(log + [x], k)
  {
  }

  lemma TrimPushLast<T>(log: seq<T>, x: T, k: nat)
    requires k > 0
    ensures TrimPush(Last(log, k), x, k) == Last(log + [x], k)
  {
  }
}

/** The gateway's rolling history of committed batches, per conversation, and what the desktop is told of it. */
module EpochHistory {
  import opened Windows
  import opened Wrappers
  import ElectionText
  import Filters = TopicFilter

  const MAX_EPOCH_HISTORY := 10

  /** A committed proposal: the name of its kind, and its payload where it has one. */
  datatype Proposal = Proposal(action: string, payload: Option<ElectionText.Payload>)

  type Batch = seq<Proposal>

  datatype Event = CommitApplied(id: string, batch: Batch) | Leaving(id: string) | Other(id: string)

  type Store = map<string, seq<Batch>>

  function Entry(store: Store, id: string): seq<Batch> {
    if id in store then store[id] else []
  }

  /** Action and target of each proposal, leaving out those without a payload. */
  function Display(batch: Batch): seq<(string, string)> {
    if batch == [] then []
    else
      var p := batch[|batch| - 1];
      Display(batch[..|batch| - 1]) + if p.payload.Some? then [(p.action, ElectionText.FormatTarget(p.payload))] else []
  }

  function DisplayAll(batches: seq<Batch>): seq<seq<(string, string)>> {
    seq(|batches|, k requires 0 <= k < |batches| => Display(batches[k]))
  }

  /** What `Leaving` and `CommitApplied` send to the desktop; the notices of other events are not kept. */
  datatype Notice =
    | GroupRemoved(id: string)
    | RemovedMessage(id: string)
    | History(id: string, epochs: seq<seq<(string, string)>>)

  class Fanout {
    const topics: Filters.Filter
    var epochHistory: Store
    var sent: seq<Notice>

    constructor (topics: Filters.Filter)
      ensures this.topics == topics && epochHistory == map[] && sent == []
    {
      this.topics := topics;
      epochHistory, sent := map[], [];
    }

    method Handle(event: Event)
      modifies this, topics
      ensures epochHistory == After(old(epochHistory), event)
      ensures sent == old(sent) + Notices(epochHistory, event)
      ensures event.Leaving? ==>
                sent == old(sent) + [GroupRemoved(event.id), RemovedMessage(event.id)] && event.id !in epochHistory
      ensures event.Other? || (event.CommitApplied? && event.batch == []) ==>
                sent == old(sent) && epochHistory == old(epochHistory)
      ensures topics.keys == if event.Leaving? then Filters.Without(old(topics.keys), event.id) else old(topics.keys)
    {
      match event {
        case Leaving(id) =>
          topics.RemoveMany(id);
          epochHistory := epochHistory - {id};
          sent := sent + [GroupRemoved(id)];
          sent := sent + [RemovedMessage(id)];
        case CommitApplied(id, batch) =>
          if batch == [] {
            return;
          }
          var entry := if id in epochHistory then epochHistory[id] else [];
          if |entry| >= MAX_EPOCH_HISTORY {
            entry := entry[1..];
          }
          entry := entry + [batch];
          epochHistory := epochHistory[id := entry];
          sent := sent + [History(id, DisplayAll(entry))];
        case Other(_) =>
      }
    }
  }

  /** What goes out for an event that leaves `store` behind. */
  function Notices(store: Store, event: Event): seq<Notice> {
    match event
    case Leaving(id) => [GroupRemoved(id), RemovedMessage(id)]
    case CommitApplied(id, batch) => if batch == [] then [] else [History(id, DisplayAll(Entry(store, id)))]
    case Other(_) => []
  }

  function After(store: Store, event: Event): Store {
    match event
    case Leaving(id) => store - {id}
    case CommitApplied(id, batch) =>
      if batch == [] then store else store[id := TrimPush(Entry(store, id), batch, MAX_EPOCH_HISTORY)]
    case Other(_) => store
  }

  function Run(events: seq<Event>): Store {
    if events == [] then map[] else After(Run(events[..|events| - 1]), events[|events| - 1])
  }

  /** The unbounded log: every non-empty batch of `id` since its last `Leaving`. */
  function Committed(events: seq<Event>, id: string): seq<Batch> {
    if events == [] then []
    else
      var before := Committed(events[..|events| - 1], id);
      match events[|events| - 1]
      case Leaving(x) => if x == id then [] else before
      case CommitApplied(x, batch) => if x == id && batch != [] then before + [batch] else before
      case Other(_) => before
  }

  /** The history is the last ten non-empty batches since the last `Leaving`; there is one exactly if there are any. */
  lemma {:induction false} HistoryIsLastTen(events: seq<Event>, id: string)
    ensures Entry(Run(events), id) == Last(Committed(events, id), MAX_EPOCH_HISTORY)
    ensures id in Run(events) <==> Committed(events, id) != []
  {
    if events != [] {
      HistoryIsLastTen(events[..|events| - 1], id);
      var last := events[|events| - 1];
      if last.CommitApplied? && last.id == id && last.batch != [] {
        TrimPushLast(Committed(events[..|events| - 1], id), last.batch, MAX_EPOCH_HISTORY);
      }
    }
  }

  /** Each commit sends the history tab the last ten batches since the last `Leaving`, as displayed. */
  lemma SendsTheLastTen(events: seq<Event>, id: string, batch: Batch)
    requires batch != []
    ensures var now := events + [CommitApplied(id, batch)];
            Notices(Run(now), CommitApplied(id, batch))
            == [History(id, DisplayAll(Last(Committed(now, id), MAX_EPOCH_HISTORY)))]
  {
    HistoryIsLastTen(events + [CommitApplied(id, batch)], id);
  }

  // ── What is displayed of a batch ────────────────────────────────────────

  /** `places` are those of the proposals with a payload, in order. */
  ghost predicate Places(batch: Batch, places: seq<nat>) {
    && (forall j, k :: 0 <= j < k < |places| ==> places[j] < places[k])
    && (forall p: nat :: p in places <==> p < |batch| && batch[p].payload.Some?)
  }

  /** One line per proposal with a payload, in the order of the batch: its kind, and its target. */
  ghost predicate Displays(batch: Batch, lines: seq<(string, string)>, places: seq<nat>) {
    && Places(batch, places) && |lines| == |places|
    && forall k :: 0 <= k < |places| ==>
         places[k] < |batch|
         && lines[k].0 == batch[places[k]].action
         && lines[k].1 == ElectionText.FormatTarget(batch[places[k]].payload)
  }

  lemma DisplaysSnoc(batch: Batch, p: Proposal, lines: seq<(string, string)>, places: seq<nat>)
    requires Displays(batch, lines, places)
    ensures p.payload.None? ==> Displays(batch + [p], lines, places)
    ensures p.payload.Some? ==>
              Displays(batch + [p], lines + [(p.action, ElectionText.FormatTarget(p.payload))], places + [|batch|])
  {
    PlacesSnoc(batch, p, places);
  }

  lemma PlacesSnoc(batch: Batch, p: Proposal, places: seq<nat>)
    requires Places(batch, places)
    ensures p.payload.None? ==> Places(batch + [p], places)
    ensures p.payload.Some? ==> Places(batch + [p], places + [|batch|])
  {
    assert forall k :: 0 <= k < |places| ==> places[k] in places;
    assert forall q: nat :: q < |batch| ==> (batch + [p])[q] == batch[q];
  }

  lemma {:induction false} DisplayIs(batch: Batch) returns (places: seq<nat>)
    ensures Displays(batch, Display(batch), places)
  {
    if batch == [] {
      places := [];
    } else {
      var front, p := batch[..|batch| - 1], batch[|batch| - 1];
      places := DisplayIs(front);
      DisplaysSnoc(front, p, Display(front), places);
      assert front + [p] == batch;
      assert Display(front) + [] == Display(front);
      if p.payload.Some? {
        places := places + [|front|];
      }
    }
  }

  ghost predicate ShowsBatch(batch: Batch, lines: seq<(string, string)>) {
    exists places :: Displays(batch, lines, places)
  }

  /** So what a commit sends is, batch by batch, a line for each proposal that has a payload. */
  lemma SendsTheirProposals(events: seq<Event>, id: string, batch: Batch)
    requires batch != []
    ensures var now := events + [CommitApplied(id, batch)];
            var kept := Last(Committed(now, id), MAX_EPOCH_HISTORY);
            exists epochs ::
              && Notices(Run(now), CommitApplied(id, batch)) == [History(id, epochs)]
              && |epochs| == |kept|
              && forall k :: 0 <= k < |kept| ==> ShowsBatch(kept[k], epochs[k])
  {
    var now := events + [CommitApplied(id, batch)];
    var kept := Last(Committed(now, id), MAX_EPOCH_HISTORY);
    SendsTheLastTen(events, id, batch);
    var epochs := DisplayAll(kept);
    forall k | 0 <= k < |kept| ensures ShowsBatch(kept[k], epochs[k]) {
      var places := DisplayIs(kept[k]);
    }
  }
}

/** The desktop's consensus panel: votes to cast, and the outcomes it has recorded. */
module ConsensusPanel {
  import opened Windows
  import opened Wrappers

  const MAX_VISIBLE_ELECTIONS := 20
  const MAX_VISIBLE_REJECTED := 20

  datatype Verdict = Reached(result: bool) | Failed

  datatype Vote = Vote(conversation: string, proposal: nat)

  datatype Cached = Cached(action: string, address: string)

  datatype Election = Election(details: string, accepted: bool, reason: Option<string>)

  datatype Rejected = Rejected(action: string, address: string, reason: string)

  datatype Event =
    | Open(group: string)
    | GroupRemoved(group: string)
    | VoteRequested(vote: Vote, cached: Cached)
    | OwnProposalSubmitted(group: string, proposal: nat, cached: Cached)
    | Decided(group: string, proposal: nat, verdict: Verdict)
    | Cast(proposal: nat)

  datatype Panel = Panel(
    onScreen: Option<string>,
    cache: map<nat, Cached>,
    pending: seq<Vote>,
    elections: seq<Election>,
    rejected: seq<Rejected>)

  const EMPTY := Panel(None, map[], [], [], [])

  function Accepted(v: Verdict): bool {
    v.Reached? && v.result
  }

  function Reason(v: Verdict): Option<string> {
    match v
    case Reached(result) => if result then None else Some("Rejected")
    case Failed => Some("Timed out")
  }

  predicate IsElection(action: string) {
    |action| >= 16 && action[..16] == "Steward Election"
  }

  function ElectionOf(c: Cached, v: Verdict): Election {
    Election(c.address, Accepted(v), Reason(v))
  }

  function RejectedOf(c: Cached, v: Verdict): Rejected {
    Rejected(c.action, c.address, match Reason(v) case None => "Rejected" case Some(r) => r)
  }

  /** An election is accepted, without a reason, exactly if the vote reached a yes. */
  predicate ShownAs(e: Election, c: Cached, v: Verdict) {
    && e.details == c.address
    && (e.accepted <==> v == Reached(true))
    && (e.reason == None <==> v == Reached(true))
    && (e.reason == Some("Rejected") <==> v == Reached(false))
    && (e.reason == Some("Timed out") <==> v == Failed)
  }

  predicate RejectedAs(x: Rejected, c: Cached, v: Verdict) {
    && x.action == c.action && x.address == c.address
    && (x.reason == "Rejected" <==> v == Reached(false))
    && (x.reason == "Timed out" <==> v == Failed)
  }

  function Without(pending: seq<Vote>, proposal: nat): seq<Vote> {
    if pending == [] then []
    else
      var last := |pending| - 1;
      Without(pending[..last], proposal) + if pending[last].proposal != proposal then [pending[last]] else []
  }

  predicate Has(pending: seq<Vote>, proposal: nat) {
    exists k :: 0 <= k < |pending| && pending[k].proposal == proposal
  }

  class Home {
    var onScreen: Option<string>
    var proposalCache: map<nat, Cached>
    var pendingVotes: seq<Vote>
    var elections: seq<Election>
    var rejected: seq<Rejected>

    ghost function View(): Panel
      reads this
    {
      Panel(onScreen, proposalCache, pendingVotes, elections, rejected)
    }

    constructor ()
      ensures View() == EMPTY
    {
      onScreen, proposalCache, pendingVotes, elections, rejected := None, map[], [], [], [];
    }

    method AnyPending(proposal: nat) returns (found: bool)
      ensures found <==> Has(pendingVotes, proposal)
    {
      found := false;
      var k := 0;
      while k < |pendingVotes| && !found
        invariant 0 <= k <= |pendingVotes|
        invariant found <==> Has(pendingVotes[..k], proposal)
      {
        found := pendingVotes[k].proposal == proposal;
        assert pendingVotes[..k + 1][k] == pendingVotes[k];
        assert forall j :: 0 <= j < k ==> pendingVotes[..k + 1][j] == pendingVotes[..k][j];
        k := k + 1;
      }
      if !found {
        assert pendingVotes[..k] == pendingVotes;
      } else {
        var j :| 0 <= j < k && pendingVotes[..k][j].proposal == proposal;
        assert pendingVotes[j].proposal == proposal;
      }
    }

    /** `retain`, keeping the votes on other proposals. */
    method RetainOthers(proposal: nat)
      modifies this`pendingVotes
      ensures pendingVotes == Without(old(pendingVotes), proposal)
    {
      var kept: seq<Vote> := [];
      var k := 0;
      while k < |pendingVotes|
        invariant 0 <= k <= |pendingVotes| && pendingVotes == old(pendingVotes)
        invariant kept == Without(pendingVotes[..k], proposal)
      {
        assert pendingVotes[..k + 1][..k] == pendingVotes[..k];
        if pendingVotes[k].proposal != proposal {
          kept := kept + [pendingVotes[k]];
        }
        k := k + 1;
      }
      assert pendingVotes[..k] == pendingVotes;
      pendingVotes := kept;
    }

    method OnVoteRequested(vote: Vote, cached: Cached)
      modifies this
      ensures View() == Reduce(old(View()), VoteRequested(vote, cached))
    {
      if onScreen == Some(vote.conversation) {
        proposalCache := proposalCache[vote.proposal := cached];
        var found := AnyPending(vote.proposal);
        if !found {
          pendingVotes := pendingVotes + [vote];
        }
      }
    }

    method OnDecided(group: string, proposal: nat, verdict: Verdict)
      modifies this
      ensures View() == Reduce(old(View()), Decided(group, proposal, verdict))
      ensures old(onScreen == Some(group) && proposal in proposalCache) ==>
        var cached := old(proposalCache)[proposal];
        && proposal !in proposalCache
        && (if "Steward Election" <= cached.action
            then elections != [] && ShownAs(elections[|elections| - 1], cached, verdict) && rejected == old(rejected)
            else if verdict == Reached(true)
            then elections == old(elections) && rejected == old(rejected)
            else elections == old(elections)
                 && rejected != [] && RejectedAs(rejected[|rejected| - 1], cached, verdict))
    {
      if onScreen == Some(group) && proposal in proposalCache {
        var cached := proposalCache[proposal];
        proposalCache := proposalCache - {proposal};
        if IsElection(cached.action) {
          elections := elections + [ElectionOf(cached, verdict)];
          if |elections| > MAX_VISIBLE_ELECTIONS {
            elections := elections[1..];
          }
        } else if !Accepted(verdict) {
          rejected := rejected + [RejectedOf(cached, verdict)];
          if |rejected| > MAX_VISIBLE_REJECTED {
            rejected := rejected[1..];
          }
        }
      }
      RetainOthers(proposal);
    }

    method OnOther(event: Event)
      requires !event.VoteRequested? && !event.Decided?
      modifies this
      ensures View() == Reduce(old(View()), event)
    {
      match event {
        case Open(group) => onScreen := Some(group);
        case GroupRemoved(group) =>
          if onScreen == Some(group) {
            onScreen := None;
          }
        case OwnProposalSubmitted(group, proposal, cached) =>
          if onScreen == Some(group) {
            proposalCache := proposalCache[proposal := cached];
          }
        case Cast(proposal) => RetainOthers(proposal);
      }
    }
  }

  predicate Current(p: Panel, group: string) {
    p.onScreen == Some(group)
  }

  function Reduce(p: Panel, e: Event): Panel {
    match e
    case Open(group) => p.(onScreen := Some(group))
    case GroupRemoved(group) => if Current(p, group) then p.(onScreen := None) else p
    case VoteRequested(vote, cached) =>
      if !Current(p, vote.conversation) then p
      else p.(cache := p.cache[vote.proposal := cached],
              pending := if Has(p.pending, vote.proposal) then p.pending else p.pending + [vote])
    case OwnProposalSubmitted(group, proposal, cached) =>
      if Current(p, group) then p.(cache := p.cache[proposal := cached]) else p
    case Decided(group, proposal, verdict) =>
      var pending := Without(p.pending, proposal);
      if !Current(p, group) || proposal !in p.cache then p.(pending := pending)
      else
        var c := p.cache[proposal];
        p.(cache := p.cache - {proposal}, pending := pending,
           elections := if IsElection(c.action)
                        then PushTrim(p.elections, ElectionOf(c, verdict), MAX_VISIBLE_ELECTIONS) else p.elections,
           rejected := if !IsElection(c.action) && !Accepted(verdict)
                       then PushTrim(p.rejected, RejectedOf(c, verdict), MAX_VISIBLE_REJECTED) else p.rejected)
    case Cast(proposal) => p.(pending := Without(p.pending, proposal))
  }

  function Run(events: seq<Event>): Panel {
    if events == [] then EMPTY else Reduce(Run(events[..|events| - 1]), events[|events| - 1])
  }

  // ── Against the history of events ───────────────────────────────────────

  /** The group on screen after those events. */
  function OpenedBy(events: seq<Event>): Option<string> {
    if events == [] then None
    else
      var before := OpenedBy(events[..|events| - 1]);
      match events[|events| - 1]
      case Open(group) => Some(group)
      case GroupRemoved(group) => if before == Some(group) then None else before
      case _ => before
  }

  /** Event `k` puts `proposal` into the cache. */
  predicate Caches(events: seq<Event>, k: nat, proposal: nat)
    requires k < |events|
  {
    match events[k]
    case VoteRequested(vote, _) => vote.proposal == proposal && OpenedBy(events[..k]) == Some(vote.conversation)
    case OwnProposalSubmitted(group, p, _) => p == proposal && OpenedBy(events[..k]) == Some(group)
    case _ => false
  }

  /** Event `k` decides `proposal` in the group on screen. */
  predicate Decides(events: seq<Event>, k: nat, proposal: nat)
    requires k < |events|
  {
    match events[k]
    case Decided(group, p, _) => p == proposal && OpenedBy(events[..k]) == Some(group)
    case _ => false
  }

  /** The caching event still in force for `proposal`: none, once a decision has used it. */
  function InForce(events: seq<Event>, proposal: nat): Option<nat> {
    if events == [] then None
    else
      var last := |events| - 1;
      if Caches(events, last, proposal) then Some(last)
      else if Decides(events, last, proposal) then None
      else InForce(events[..last], proposal)
  }

  /** A recorded decision: event `at` used up what event `cachedAt` had cached. */
  datatype Record = Record(at: nat, proposal: nat, cachedAt: nat, cached: Cached, verdict: Verdict)

  function Records(events: seq<Event>): seq<Record> {
    if events == [] then []
    else
      var last := |events| - 1;
      Records(events[..last]) +
      match events[last]
      case Decided(group, p, verdict) =>
        var k := InForce(events[..last], p);
        if OpenedBy(events[..last]) == Some(group) && k.Some? && k.value < last
        then [Record(last, p, k.value, CachedBy(events[k.value]), verdict)] else []
      case _ => []
  }

  function CachedBy(e: Event): Cached {
    match e
    case VoteRequested(_, cached) => cached
    case OwnProposalSubmitted(_, _, cached) => cached
    case _ => Cached("", "")
  }

  lemma {:induction false} InForceIs(events: seq<Event>, proposal: nat)
    ensures InForce(events, proposal).Some? ==>
              var k := InForce(events, proposal).value;
              k < |events| && Caches(events, k, proposal)
              && forall j :: k < j < |events| ==> !Decides(events, j, proposal) && !Caches(events, j, proposal)
    ensures InForce(events, proposal).None? ==>
              forall k :: 0 <= k < |events| && Caches(events, k, proposal) ==>
                exists j :: k < j < |events| && Decides(events, j, proposal)
  {
    if events != [] {
      var last := |events| - 1;
      InForceIs(events[..last], proposal);
      Prefix(events, proposal);
      if InForce(events, proposal).None? && !Decides(events, last, proposal) {
        forall k | 0 <= k < |events| && Caches(events, k, proposal)
          ensures exists j :: k < j < |events| && Decides(events, j, proposal)
        {
          assert Caches(events[..last], k, proposal);
          var j :| k < j < last && Decides(events[..last], j, proposal);
          assert Decides(events, j, proposal);
        }
      }
    }
  }

  lemma Prefix(events: seq<Event>, proposal: nat)
    requires events != []
    ensures var front := events[..|events| - 1];
            forall k :: 0 <= k < |front| ==>
              (Caches(front, k, proposal) <==> Caches(events, k, proposal))
              && (Decides(front, k, proposal) <==> Decides(events, k, proposal))
  {
    var front := events[..|events| - 1];
    forall k | 0 <= k < |front|
      ensures (Caches(front, k, proposal) <==> Caches(events, k, proposal))
              && (Decides(front, k, proposal) <==> Decides(events, k, proposal))
    {
      assert front[..k] == events[..k];
    }
  }

  lemma {:induction false} OpenedIs(events: seq<Event>)
    ensures Run(events).onScreen == OpenedBy(events)
  {
    if events != [] {
      OpenedIs(events[..|events| - 1]);
    }
  }

  /** The cache holds, for each proposal, what the caching event in force put there. */
  lemma {:induction false} CacheIs(events: seq<Event>, proposal: nat)
    ensures proposal in Run(events).cache <==> InForce(events, proposal).Some?
    ensures InForce(events, proposal).Some? ==>
              var k := InForce(events, proposal).value;
              k < |events| && Run(events).cache[proposal] == CachedBy(events[k])
  {
    if events != [] {
      CacheIs(events[..|events| - 1], proposal);
      OpenedIs(events[..|events| - 1]);
    }
  }

  // ── The recorded outcomes ───────────────────────────────────────────────

  /** The decision at `r.at` in the group on screen, and the caching event in force before it. */
  predicate IsRecord(events: seq<Event>, r: Record) {
    && r.at < |events|
    && Decides(events, r.at, r.proposal)
    && InForce(events[..r.at], r.proposal) == Some(r.cachedAt)
    && r.cachedAt < r.at
    && r.cached == CachedBy(events[r.cachedAt])
    && r.verdict == events[r.at].verdict
  }

  lemma RecordPrefix(events: seq<Event>, r: Record)
    requires events != [] && r.at < |events| - 1
    ensures IsRecord(events[..|events| - 1], r) <==> IsRecord(events, r)
  {
    var front := events[..|events| - 1];
    assert front[..r.at] == events[..r.at];
  }

  lemma {:induction false} RecordsInOrder(events: seq<Event>)
    ensures forall k :: 0 <= k < |Records(events)| ==> Records(events)[k].at < |events|
    ensures forall j, k :: 0 <= j < k < |Records(events)| ==> Records(events)[j].at < Records(events)[k].at
  {
    if events != [] {
      RecordsInOrder(events[..|events| - 1]);
    }
  }

  /** Every decision in the group on screen of a proposal still cached is recorded, and nothing else. */
  lemma {:induction false} RecordsExactly(events: seq<Event>, r: Record)
    ensures r in Records(events) <==> IsRecord(events, r)
  {
    if events != [] {
      var last := |events| - 1;
      var front := events[..last];
      RecordsExactly(front, r);
      if r.at < last {
        RecordPrefix(events, r);
      }
      if events[last].Decided? {
        InForceIs(front, events[last].proposal);
      }
    }
  }

  /** What one caching put there is recorded at most once. */
  lemma RecordedOnce(events: seq<Event>, j: nat, k: nat)
    requires j < k < |Records(events)|
    ensures Records(events)[j].cachedAt != Records(events)[k].cachedAt
  {
    var r, x := Records(events)[j], Records(events)[k];
    RecordsExactly(events, r);
    RecordsExactly(events, x);
    RecordsInOrder(events);
    InForceIs(events[..x.at], x.proposal);
    InForceIs(events[..r.at], r.proposal);
    assert Caches(events[..x.at], x.cachedAt, x.proposal) && Caches(events[..r.at], r.cachedAt, r.proposal);
    if r.proposal == x.proposal {
      assert events[..x.at][..r.at] == events[..r.at];
      assert Decides(events[..x.at], r.at, x.proposal);
      assert r.at <= x.cachedAt;
    }
  }

  function Elections(records: seq<Record>): seq<Election> {
    if records == [] then []
    else
      var r := records[|records| - 1];
      Elections(records[..|records| - 1]) +
      if IsElection(r.cached.action) then [ElectionOf(r.cached, r.verdict)] else []
  }

  function Rejections(records: seq<Record>): seq<Rejected> {
    if records == [] then []
    else
      var r := records[|records| - 1];
      Rejections(records[..|records| - 1]) +
      if !IsElection(r.cached.action) && !Accepted(r.verdict) then [RejectedOf(r.cached, r.verdict)] else []
  }

  /** A decision is recorded exactly when its group is on screen and its proposal is cached. */
  lemma RecordsStep(events: seq<Event>)
    requires events != []
    ensures var front, e := events[..|events| - 1], events[|events| - 1];
            var p := Run(front);
            if e.Decided? && Current(p, e.group) && e.proposal in p.cache then
              exists k :: Records(events)
                          == Records(front) + [Record(|front|, e.proposal, k, p.cache[e.proposal], e.verdict)]
            else Records(events) == Records(front)
  {
    var front, e := events[..|events| - 1], events[|events| - 1];
    OpenedIs(front);
    if e.Decided? {
      CacheIs(front, e.proposal);
      InForceIs(front, e.proposal);
      var k := InForce(front, e.proposal);
      if OpenedBy(front) == Some(e.group) && k.Some? {
        assert CachedBy(events[k.value]) == Run(front).cache[e.proposal];
        assert Records(events)
            == Records(front) + [Record(|front|, e.proposal, k.value, Run(front).cache[e.proposal], e.verdict)];
      }
    }
  }

  lemma OutcomesSnoc(records: seq<Record>, r: Record)
    ensures Elections(records + [r])
            == if IsElection(r.cached.action) then Elections(records) + [ElectionOf(r.cached, r.verdict)]
               else Elections(records)
    ensures Rejections(records + [r])
            == if !IsElection(r.cached.action) && !Accepted(r.verdict)
               then Rejections(records) + [RejectedOf(r.cached, r.verdict)] else Rejections(records)
  {
    assert (records + [r])[..|records|] == records;
  }

  ghost predicate Shows(p: Panel, records: seq<Record>) {
    && p.elections == Last(Elections(records), MAX_VISIBLE_ELECTIONS)
    && p.rejected == Last(Rejections(records), MAX_VISIBLE_REJECTED)
  }

  lemma ShowsDecision(p: Panel, records: seq<Record>, e: Event, r: Record)
    requires Shows(p, records) && e.Decided? && Current(p, e.group) && e.proposal in p.cache
    requires r.cached == p.cache[e.proposal] && r.verdict == e.verdict
    ensures Shows(Reduce(p, e), records + [r])
  {
    OutcomesSnoc(records, r);
    PushTrimLast(Elections(records), ElectionOf(r.cached, r.verdict), MAX_VISIBLE_ELECTIONS);
    PushTrimLast(Rejections(records), RejectedOf(r.cached, r.verdict), MAX_VISIBLE_REJECTED);
  }

  lemma ShowsOther(p: Panel, records: seq<Record>, e: Event)
    requires Shows(p, records) && !(e.Decided? && Current(p, e.group) && e.proposal in p.cache)
    ensures Shows(Reduce(p, e), records)
  {
  }

  lemma {:induction false} ShowsRecords(events: seq<Event>)
    ensures Shows(Run(events), Records(events))
  {
    if events != [] {
      var front, e := events[..|events| - 1], events[|events| - 1];
      var p := Run(front);
      ShowsRecords(front);
      RecordsStep(events);
      if e.Decided? && Current(p, e.group) && e.proposal in p.cache {
        var c := p.cache[e.proposal];
        var k :| Records(events) == Records(front) + [Record(|front|, e.proposal, k, c, e.verdict)];
        ShowsDecision(p, Records(front), e, Record(|front|, e.proposal, k, c, e.verdict));
      } else {
        ShowsOther(p, Records(front), e);
      }
    }
  }

  /** The panel shows the last twenty elections and the last twenty rejections ever recorded. */
  lemma OutcomesAreTheLast(events: seq<Event>)
    ensures Run(events).elections == Last(Elections(Records(events)), MAX_VISIBLE_ELECTIONS)
    ensures Run(events).rejected == Last(Rejections(Records(events)), MAX_VISIBLE_REJECTED)
  {
    ShowsRecords(events);
  }

  // ── What is shown of a decision ─────────────────────────────────────────

  predicate ShowsRecord(e: Election, r: Record) {
    ShownAs(e, r.cached, r.verdict)
  }

  predicate ListsRecord(x: Rejected, r: Record) {
    RejectedAs(x, r.cached, r.verdict)
  }

  /** The recorded decisions on steward elections. */
  function OnElections(records: seq<Record>): seq<Record> {
    if records == [] then []
    else
      var r := records[|records| - 1];
      OnElections(records[..|records| - 1]) + if "Steward Election" <= r.cached.action then [r] else []
  }

  /** The recorded decisions on anything else that are not a yes. */
  function TurnedDown(records: seq<Record>): seq<Record> {
    if records == [] then []
    else
      var r := records[|records| - 1];
      TurnedDown(records[..|records| - 1]) +
      if !("Steward Election" <= r.cached.action) && r.verdict != Reached(true) then [r] else []
  }

  lemma {:induction false} ElectionsShow(records: seq<Record>)
    ensures |Elections(records)| == |OnElections(records)|
    ensures forall k :: 0 <= k < |Elections(records)| ==> ShowsRecord(Elections(records)[k], OnElections(records)[k])
  {
    if records != [] {
      ElectionsShow(records[..|records| - 1]);
    }
  }

  lemma {:induction false} RejectionsShow(records: seq<Record>)
    ensures |Rejections(records)| == |TurnedDown(records)|
    ensures forall k :: 0 <= k < |Rejections(records)| ==> ListsRecord(Rejections(records)[k], TurnedDown(records)[k])
  {
    if records != [] {
      RejectionsShow(records[..|records| - 1]);
    }
  }

  lemma {:induction false} ShownAreRecorded(records: seq<Record>, r: Record)
    ensures r in OnElections(records) <==> r in records && "Steward Election" <= r.cached.action
    ensures r in TurnedDown(records)
            <==> r in records && !("Steward Election" <= r.cached.action) && r.verdict != Reached(true)
  {
    if records != [] {
      ShownAreRecorded(records[..|records| - 1], r);
    }
  }

  /** The last twenty of those decisions, one for one and in order. */
  ghost predicate LastElections(shown: seq<Election>, all: seq<Record>) {
    && |shown| == (if |all| <= 20 then |all| else 20)
    && forall k :: 0 <= k < |shown| ==> ShowsRecord(shown[k], all[|all| - |shown| + k])
  }

  ghost predicate LastRejections(shown: seq<Rejected>, all: seq<Record>) {
    && |shown| == (if |all| <= 20 then |all| else 20)
    && forall k :: 0 <= k < |shown| ==> ListsRecord(shown[k], all[|all| - |shown| + k])
  }

  lemma ShowsTheLast(log: seq<Election>, all: seq<Record>)
    requires |log| == |all| && forall k :: 0 <= k < |log| ==> ShowsRecord(log[k], all[k])
    ensures LastElections(Last(log, MAX_VISIBLE_ELECTIONS), all)
  {
    var shown := Last(log, MAX_VISIBLE_ELECTIONS);
    forall k | 0 <= k < |shown| ensures ShowsRecord(shown[k], all[|all| - |shown| + k]) {
      LastAt(log, MAX_VISIBLE_ELECTIONS, k);
    }
  }

  lemma ListsTheLast(log: seq<Rejected>, all: seq<Record>)
    requires |log| == |all| && forall k :: 0 <= k < |log| ==> ListsRecord(log[k], all[k])
    ensures LastRejections(Last(log, MAX_VISIBLE_REJECTED), all)
  {
    var shown := Last(log, MAX_VISIBLE_REJECTED);
    forall k | 0 <= k < |shown| ensures ListsRecord(shown[k], all[|all| - |shown| + k]) {
      LastAt(log, MAX_VISIBLE_REJECTED, k);
    }
  }

  lemma LastOnElections(records: seq<Record>)
    ensures LastElections(Last(Elections(records), MAX_VISIBLE_ELECTIONS), OnElections(records))
  {
    ElectionsShow(records);
    ShowsTheLast(Elections(records), OnElections(records));
  }

  lemma LastTurnedDown(records: seq<Record>)
    ensures LastRejections(Last(Rejections(records), MAX_VISIBLE_REJECTED), TurnedDown(records))
  {
    RejectionsShow(records);
    ListsTheLast(Rejections(records), TurnedDown(records));
  }

  /**
   Over every event sequence the elections on screen are the last twenty recorded decisions on steward
   elections, each shown as `ShownAs` says.
   */
  lemma ElectionsOnScreen(events: seq<Event>)
    ensures LastElections(Run(events).elections, OnElections(Records(events)))
  {
    OutcomesAreTheLast(events);
    LastOnElections(Records(events));
  }

  /** And the rejections the last twenty recorded decisions on anything else that were no yes. */
  lemma RejectionsOnScreen(events: seq<Event>)
    ensures LastRejections(Run(events).rejected, TurnedDown(Records(events)))
  {
    OutcomesAreTheLast(events);
    LastTurnedDown(Records(events));
  }

  /** Each of these was decided in the group on screen, of a proposal then cached. */
  lemma ShownWereDecided(events: seq<Event>, r: Record)
    requires r in OnElections(Records(events)) || r in TurnedDown(Records(events))
    ensures IsRecord(events, r)
  {
    ShownAreRecorded(Records(events), r);
    RecordsExactly(events, r);
  }

  // ── Records across groups ───────────────────────────────────────────────

  /** The group a caching event speaks for. */
  function CachedFor(e: Event): string {
    match e
    case VoteRequested(vote, _) => vote.conversation
    case OwnProposalSubmitted(group, _, _) => group
    case _ => ""
  }

  /** Decided in the group it was cached for. */
  predicate OwnGroup(events: seq<Event>, r: Record) {
    r.cachedAt < r.at < |events| && events[r.at].Decided? && events[r.at].group == CachedFor(events[r.cachedAt])
  }

  /** At event `k`, a decision in the group on screen finds what another group cached under its number. */
  predicate FindsAnother(events: seq<Event>, k: nat)
    requires k < |events|
  {
    && events[k].Decided? && Decides(events, k, events[k].proposal)
    && var c := InForce(events[..k], events[k].proposal);
       c.Some? && c.value < k && CachedFor(events[c.value]) != events[k].group
  }

  /** Every recorded outcome is of its own group exactly if no such decision was ever made. */
  lemma RecordsOwnGroupExactly(events: seq<Event>)
    ensures (forall r :: r in Records(events) ==> OwnGroup(events, r))
            <==> forall k: nat :: k < |events| ==> !FindsAnother(events, k)
  {
    if forall r :: r in Records(events) ==> OwnGroup(events, r) {
      forall k: nat | k < |events| ensures !FindsAnother(events, k) {
        if FindsAnother(events, k) {
          var r := RecordOfDecision(events, k);
        }
      }
    }
    if forall k: nat :: k < |events| ==> !FindsAnother(events, k) {
      forall r | r in Records(events) ensures OwnGroup(events, r) {
        RecordsExactly(events, r);
        assert !FindsAnother(events, r.at);
      }
    }
  }

  lemma RecordOfDecision(events: seq<Event>, k: nat) returns (r: Record)
    requires k < |events| && FindsAnother(events, k)
    ensures r in Records(events) && !OwnGroup(events, r)
  {
    var c := InForce(events[..k], events[k].proposal).value;
    r := Record(k, events[k].proposal, c, CachedBy(events[c]), events[k].verdict);
    RecordsExactly(events, r);
  }

  /** It is made where two groups use one number: "b" decides its proposal 1, and "a"'s is recorded. */
  lemma DecisionUsesAnotherGroupsCaching(c: Cached)
    ensures var events := [Open("a"), VoteRequested(Vote("a", 1), c), Open("b"), Decided("b", 1, Reached(false))];
            && Record(3, 1, 1, c, Reached(false)) in Records(events)
            && !OwnGroup(events, Record(3, 1, 1, c, Reached(false)))
  {
    var asked := [Open("a"), VoteRequested(Vote("a", 1), c)];
    var moved := asked + [Open("b")];
    var decided := moved + [Decided("b", 1, Reached(false))];
    assert asked[..1] == [Open("a")] && asked[..1][..0] == [];
    assert moved[..2] == asked && decided[..3] == moved;
    assert OpenedBy(asked[..1]) == Some("a");
    assert Caches(asked, 1, 1);
    assert InForce(asked, 1) == Some(1);
    assert InForce(moved, 1) == Some(1);
    assert OpenedBy(moved) == Some("b");
    assert Decides(decided, 3, 1);
    RecordsExactly(decided, Record(3, 1, 1, c, Reached(false)));
    assert decided == [Open("a"), VoteRequested(Vote("a", 1), c), Open("b"), Decided("b", 1, Reached(false))];
  }

  /** Where no two groups use one number, every recorded outcome is of its own group. */
  lemma UnsharedNumbers(events: seq<Event>, r: Record)
    requires forall j: nat, k: nat, p: nat ::
               j < k < |events| && Caches(events, j, p) && Decides(events, k, p) ==>
                 CachedFor(events[j]) == events[k].group
    requires r in Records(events)
    ensures OwnGroup(events, r)
  {
    RecordsExactly(events, r);
    InForceIs(events[..r.at], r.proposal);
    CachesBefore(events, r.at, r.cachedAt, r.proposal);
    assert Caches(events, r.cachedAt, r.proposal);
  }

  lemma CachesBefore(events: seq<Event>, n: nat, k: nat, proposal: nat)
    requires k < n <= |events|
    ensures Caches(events[..n], k, proposal) <==> Caches(events, k, proposal)
  {
    assert events[..n][..k] == events[..k];
  }

  // ── The pending votes ───────────────────────────────────────────────────

  /** Event `k` asks for a vote on `proposal` in the group on screen. */
  predicate Asks(events: seq<Event>, k: nat, proposal: nat)
    requires k < |events|
  {
    events[k].VoteRequested? && events[k].vote.proposal == proposal
    && OpenedBy(events[..k]) == Some(events[k].vote.conversation)
  }

  /** The user voted on it, or it was decided: in whatever group. */
  predicate Settles(e: Event, proposal: nat) {
    e == Cast(proposal) || (e.Decided? && e.proposal == proposal)
  }

  /** Asked for by event `k`, and not settled since. */
  ghost predicate StandsFrom(events: seq<Event>, k: nat, proposal: nat) {
    k < |events| && Asks(events, k, proposal) && forall j :: k < j < |events| ==> !Settles(events[j], proposal)
  }

  ghost predicate Unsettled(events: seq<Event>, proposal: nat) {
    exists k: nat :: StandsFrom(events, k, proposal)
  }

  lemma {:induction false} WithoutIs(pending: seq<Vote>, gone: nat, proposal: nat)
    ensures Has(Without(pending, gone), proposal) <==> proposal != gone && Has(pending, proposal)
    ensures forall v :: v in Without(pending, gone) ==> v in pending
  {
    if pending != [] {
      var last := |pending| - 1;
      WithoutIs(pending[..last], gone, proposal);
      HasSnoc(pending[..last], pending[last], proposal);
      assert pending[..last] + [pending[last]] == pending;
      assert Without(pending[..last], gone) + [] == Without(pending[..last], gone);
      HasSnoc(Without(pending[..last], gone), pending[last], proposal);
    }
  }

  lemma HasSnoc(pending: seq<Vote>, v: Vote, proposal: nat)
    ensures Has(pending + [v], proposal) <==> Has(pending, proposal) || v.proposal == proposal
  {
    var more := pending + [v];
    if Has(pending, proposal) {
      var k :| 0 <= k < |pending| && pending[k].proposal == proposal;
      assert more[k].proposal == proposal;
    }
    assert more[|pending|] == v;
  }

  ghost predicate Distinct(pending: seq<Vote>) {
    forall j, k :: 0 <= j < k < |pending| ==> pending[j].proposal != pending[k].proposal
  }

  lemma {:induction false} WithoutDistinct(pending: seq<Vote>, gone: nat)
    requires Distinct(pending)
    ensures Distinct(Without(pending, gone))
  {
    if pending != [] {
      var last := |pending| - 1;
      WithoutDistinct(pending[..last], gone);
      WithoutIs(pending[..last], gone, pending[last].proposal);
      assert !Has(pending[..last], pending[last].proposal);
    }
  }

  /** At most one pending vote a proposal, in every run. */
  lemma {:induction false} PendingDistinct(events: seq<Event>)
    ensures Distinct(Run(events).pending)
  {
    if events != [] {
      var p, e := Run(events[..|events| - 1]), events[|events| - 1];
      PendingDistinct(events[..|events| - 1]);
      match e {
        case Decided(_, proposal, _) => WithoutDistinct(p.pending, proposal);
        case Cast(proposal) => WithoutDistinct(p.pending, proposal);
        case _ =>
      }
    }
  }

  lemma StandsBefore(events: seq<Event>, k: nat, proposal: nat)
    requires k + 1 < |events|
    ensures StandsFrom(events, k, proposal)
            <==> StandsFrom(events[..|events| - 1], k, proposal) && !Settles(events[|events| - 1], proposal)
  {
    var front, last := events[..|events| - 1], |events| - 1;
    assert front[..k] == events[..k];
    assert forall j :: k < j < last ==> front[j] == events[j];
  }

  lemma UnsettledSnoc(events: seq<Event>, proposal: nat)
    requires events != []
    ensures var front, last := events[..|events| - 1], |events| - 1;
            Unsettled(events, proposal) <==>
              Asks(events, last, proposal) || (!Settles(events[last], proposal) && Unsettled(front, proposal))
  {
    var front, last := events[..|events| - 1], |events| - 1;
    if Asks(events, last, proposal) {
      assert StandsFrom(events, last, proposal);
    } else if Unsettled(front, proposal) && !Settles(events[last], proposal) {
      var k: nat :| StandsFrom(front, k, proposal);
      StandsBefore(events, k, proposal);
    } else if Unsettled(events, proposal) {
      var k: nat :| StandsFrom(events, k, proposal);
      StandsBefore(events, k, proposal);
    }
  }

  /**
   Some vote under a proposal number is pending exactly when one was asked for in the group on screen
   and the number neither cast nor decided since. In particular a decided number is absent right
   after its decision, even when the decision is of a group not on screen.
   */
  lemma {:induction false} PendingExactly(events: seq<Event>, proposal: nat)
    ensures Has(Run(events).pending, proposal) <==> Unsettled(events, proposal)
  {
    if events != [] {
      var front, e := events[..|events| - 1], events[|events| - 1];
      var p := Run(front);
      PendingExactly(front, proposal);
      OpenedIs(front);
      UnsettledSnoc(events, proposal);
      match e {
        case Decided(_, gone, _) => WithoutIs(p.pending, gone, proposal);
        case Cast(gone) => WithoutIs(p.pending, gone, proposal);
        case VoteRequested(vote, _) => HasSnoc(p.pending, vote, proposal);
        case _ =>
      }
    }
  }

  // ── Which vote is pending ───────────────────────────────────────────────

  /** Event `k` asks for this very vote while none under its number stands, and it is not settled since. */
  ghost predicate HeldFrom(events: seq<Event>, k: nat, v: Vote) {
    StandsFrom(events, k, v.proposal) && events[k].vote == v && !Unsettled(events[..k], v.proposal)
  }

  ghost predicate Held(events: seq<Event>, v: Vote) {
    exists k: nat :: HeldFrom(events, k, v)
  }

  lemma HeldBefore(events: seq<Event>, k: nat, v: Vote)
    requires k + 1 < |events|
    ensures HeldFrom(events, k, v)
            <==> HeldFrom(events[..|events| - 1], k, v) && !Settles(events[|events| - 1], v.proposal)
  {
    StandsBefore(events, k, v.proposal);
    assert events[..|events| - 1][..k] == events[..k];
  }

  lemma HeldSnoc(events: seq<Event>, v: Vote)
    requires events != []
    ensures var front, last := events[..|events| - 1], |events| - 1;
            Held(events, v) <==>
              || (!Settles(events[last], v.proposal) && Held(front, v))
              || (events[last] == VoteRequested(v, CachedBy(events[last]))
                  && OpenedBy(front) == Some(v.conversation) && !Unsettled(front, v.proposal))
  {
    var front, last := events[..|events| - 1], |events| - 1;
    if Held(front, v) && !Settles(events[last], v.proposal) {
      var k: nat :| HeldFrom(front, k, v);
      HeldBefore(events, k, v);
    } else if events[last] == VoteRequested(v, CachedBy(events[last]))
              && OpenedBy(front) == Some(v.conversation) && !Unsettled(front, v.proposal) {
      assert HeldFrom(events, last, v);
    } else if Held(events, v) {
      var k: nat :| HeldFrom(events, k, v);
      if k < last {
        HeldBefore(events, k, v);
      }
    }
  }

  lemma {:induction false} WithoutHas(pending: seq<Vote>, gone: nat, v: Vote)
    ensures v in Without(pending, gone) <==> v in pending && v.proposal != gone
  {
    if pending != [] {
      var last := |pending| - 1;
      WithoutHas(pending[..last], gone, v);
      assert pending == pending[..last] + [pending[last]];
    }
  }

  /** How one event changes whether this very vote is pending. */
  lemma PendingStep(p: Panel, e: Event, v: Vote)
    ensures v in Reduce(p, e).pending <==>
              || (!Settles(e, v.proposal) && v in p.pending)
              || (e == VoteRequested(v, CachedBy(e)) && Current(p, v.conversation) && !Has(p.pending, v.proposal))
  {
    match e {
      case Decided(_, gone, _) => WithoutHas(p.pending, gone, v);
      case Cast(gone) => WithoutHas(p.pending, gone, v);
      case _ =>
    }
  }

  /**
   A vote is pending exactly when it was asked for in the group on screen while none stood under its
   number, and that number was neither cast nor decided since.
   */
  lemma PendingVoteExactly(events: seq<Event>, v: Vote)
    ensures v in Run(events).pending <==>
              exists k: nat :: k < |events| && Asks(events, k, v.proposal) && events[k].vote == v
                && !Unsettled(events[..k], v.proposal)
                && forall j :: k < j < |events| ==> !Settles(events[j], v.proposal)
  {
    HeldVote(events, v);
    if Held(events, v) {
      var k: nat :| HeldFrom(events, k, v);
      assert Asks(events, k, v.proposal);
    }
    if k: nat :| k < |events| && Asks(events, k, v.proposal) && events[k].vote == v
                 && !Unsettled(events[..k], v.proposal)
                 && forall j :: k < j < |events| ==> !Settles(events[j], v.proposal) {
      assert HeldFrom(events, k, v);
    }
  }

  lemma {:induction false} HeldVote(events: seq<Event>, v: Vote)
    ensures v in Run(events).pending <==> Held(events, v)
  {
    if events != [] {
      var front, e := events[..|events| - 1], events[|events| - 1];
      HeldVote(front, v);
      HeldSnoc(events, v);
      PendingExactly(front, v.proposal);
      OpenedIs(front);
      PendingStep(Run(front), e, v);
    }
  }

  /** Where two groups use one number, the second vote asked for on screen is never pending. */
  lemma SecondGroupsVoteIsMissing(c: Cached)
    ensures var events := [Open("a"), VoteRequested(Vote("a", 1), c), Open("b"), VoteRequested(Vote("b", 1), c)];
            && Run(events).pending == [Vote("a", 1)]
            && StandsFrom(events, 3, 1) && events[3].vote == Vote("b", 1)
  {
    var asked := [Open("a"), VoteRequested(Vote("a", 1), c)];
    var moved := asked + [Open("b")];
    var again := moved + [VoteRequested(Vote("b", 1), c)];
    assert asked[..1] == [Open("a")] && asked[..1][..0] == [];
    assert moved[..2] == asked && again[..3] == moved;
    assert Run(asked[..1]) == EMPTY.(onScreen := Some("a"));
    assert Run(asked).pending == [Vote("a", 1)];
    assert Run(moved).pending == [Vote("a", 1)] && Current(Run(moved), "b");
    assert Has(Run(moved).pending, 1) by {
      assert Run(moved).pending[0].proposal == 1;
    }
    assert OpenedBy(moved) == Some("b");
    assert again == [Open("a"), VoteRequested(Vote("a", 1), c), Open("b"), VoteRequested(Vote("b", 1), c)];
  }
}

/** The error banner: the newest alerts, minus those dismissed. */
module Alerts {
  import opened Windows

  const MAX_VISIBLE_ALERTS := 5

  datatype Alert = Alert(id: nat, message: string)

  datatype Event = Record(message: string) | Dismiss(id: nat)

  function Without(alerts: seq<Alert>, id: nat): seq<Alert> {
    if alerts == [] then []
    else
      var last := |alerts| - 1;
      Without(alerts[..last], id) + if alerts[last].id != id then [alerts[last]] else []
  }

  class AlertsState {
    var nextId: nat
    var errors: seq<Alert>

    constructor ()
      ensures nextId == 1 && errors == []
    {
      nextId, errors := 1, [];
    }

    method RecordError(message: string)
      modifies this
      ensures nextId == old(nextId) + 1
      ensures errors == PushTrim(old(errors), Alert(old(nextId), message), MAX_VISIBLE_ALERTS)
    {
      errors := errors + [Alert(nextId, message)];
      nextId := nextId + 1;
      if |errors| > MAX_VISIBLE_ALERTS {
        errors := errors[1..];
      }
    }

    method DismissError(id: nat)
      modifies this`errors
      ensures errors == Without(old(errors), id)
    {
      var kept: seq<Alert> := [];
      var k := 0;
      while k < |errors|
        invariant 0 <= k <= |errors| && errors == old(errors)
        invariant kept == Without(errors[..k], id)
      {
        assert errors[..k + 1][..k] == errors[..k];
        if errors[k].id != id {
          kept := kept + [errors[k]];
        }
        k := k + 1;
      }
      assert errors[..k] == errors;
      errors := kept;
    }
  }

  /** The two methods' state, and beside it the unbounded log of the alerts not dismissed. */
  datatype Screen = Screen(recorded: nat, shown: seq<Alert>, log: seq<Alert>)

  function Apply(s: Screen, e: Event): Screen {
    match e
    case Record(message) =>
      var alert := Alert(s.recorded + 1, message);
      Screen(s.recorded + 1, PushTrim(s.shown, alert, MAX_VISIBLE_ALERTS), s.log + [alert])
    case Dismiss(id) => Screen(s.recorded, Without(s.shown, id), Without(s.log, id))
  }

  function Run(events: seq<Event>): Screen {
    if events == [] then Screen(0, [], []) else Apply(Run(events[..|events| - 1]), events[|events| - 1])
  }

  lemma {:induction false} WithoutConcat(a: seq<Alert>, b: seq<Alert>, id: nat)
    ensures Without(a + b, id) == Without(a, id) + Without(b, id)
  {
    if b == [] {
      assert a + b == a;
    } else {
      var last := |b| - 1;
      assert (a + b)[..|a + b| - 1] == a + b[..last];
      WithoutConcat(a, b[..last], id);
    }
  }

  lemma {:induction false} WithoutShrinks(alerts: seq<Alert>, id: nat)
    ensures |Without(alerts, id)| <= |alerts|
  {
    if alerts != [] {
      WithoutShrinks(alerts[..|alerts| - 1], id);
    }
  }

  /** `window` is the end of `log`. */
  predicate Newest(window: seq<Alert>, log: seq<Alert>) {
    |window| <= |log| && log[|log| - |window|..] == window
  }

  lemma NewestPush(window: seq<Alert>, log: seq<Alert>, x: Alert)
    requires Newest(window, log) && |window| <= MAX_VISIBLE_ALERTS
    ensures Newest(PushTrim(window, x, MAX_VISIBLE_ALERTS), log + [x])
  {
    var n := |log| - |window|;
    assert (log + [x])[n..] == window + [x];
    assert (log + [x])[n + 1..] == (window + [x])[1..];
  }

  lemma NewestWithout(window: seq<Alert>, log: seq<Alert>, id: nat)
    requires Newest(window, log)
    ensures Newest(Without(window, id), Without(log, id))
  {
    var older := log[..|log| - |window|];
    assert log == older + window;
    WithoutConcat(older, window, id);
  }

  lemma ShowsPush(window: seq<Alert>, log: seq<Alert>, y: Alert)
    requires Newest(window, log) && |window| <= MAX_VISIBLE_ALERTS
    ensures Newest(PushTrim(window, y, MAX_VISIBLE_ALERTS), log + [y])
    ensures |PushTrim(window, y, MAX_VISIBLE_ALERTS)| <= MAX_VISIBLE_ALERTS
  {
    NewestPush(window, log, y);
  }

  lemma ShowsDismiss(window: seq<Alert>, log: seq<Alert>, id: nat)
    requires Newest(window, log) && |window| <= MAX_VISIBLE_ALERTS
    ensures Newest(Without(window, id), Without(log, id)) && |Without(window, id)| <= MAX_VISIBLE_ALERTS
  {
    NewestWithout(window, log, id);
    WithoutShrinks(window, id);
  }

  /** How many alerts of the log came after the one with this id. */
  function Newer(log: seq<Alert>, id: nat): nat {
    if log == [] then 0
    else Newer(log[..|log| - 1], id) + if log[|log| - 1].id > id then 1 else 0
  }

  predicate Increasing(log: seq<Alert>) {
    forall j, k :: 0 <= j < k < |log| ==> log[j].id < log[k].id
  }

  lemma {:induction false} WithoutIs(alerts: seq<Alert>, id: nat, x: Alert)
    ensures x in Without(alerts, id) <==> x in alerts && x.id != id
  {
    if alerts != [] {
      var last := |alerts| - 1;
      WithoutIs(alerts[..last], id, x);
      assert alerts == alerts[..last] + [alerts[last]];
    }
  }

  lemma {:induction false} WithoutIncreasing(alerts: seq<Alert>, id: nat)
    requires Increasing(alerts)
    ensures Increasing(Without(alerts, id))
  {
    if alerts != [] {
      var front, x := alerts[..|alerts| - 1], alerts[|alerts| - 1];
      WithoutIncreasing(front, id);
      if x.id != id {
        var kept := Without(front, id);
        forall k | 0 <= k < |kept| ensures kept[k].id < x.id {
          WithoutIs(front, id, kept[k]);
        }
        IncreasingSnoc(kept, x);
      } else {
        assert Without(alerts, id) == Without(front, id);
      }
    }
  }

  lemma IncreasingSnoc(log: seq<Alert>, x: Alert)
    requires Increasing(log) && forall k :: 0 <= k < |log| ==> log[k].id < x.id
    ensures Increasing(log + [x])
  {
  }

  lemma {:induction false} NewerShrinks(alerts: seq<Alert>, id: nat, n: nat)
    ensures Newer(Without(alerts, id), n) <= Newer(alerts, n)
  {
    if alerts != [] {
      var front, x := alerts[..|alerts| - 1], alerts[|alerts| - 1];
      NewerShrinks(front, id, n);
      if x.id != id {
        assert (Without(front, id) + [x])[..|Without(front, id)|] == Without(front, id);
      } else {
        assert Without(alerts, id) == Without(front, id);
      }
    }
  }

  lemma {:induction false} NewerAt(log: seq<Alert>, k: nat)
    requires Increasing(log) && k < |log|
    ensures Newer(log, log[k].id) == |log| - 1 - k
  {
    var last := |log| - 1;
    if k < last {
      NewerAt(log[..last], k);
    } else {
      NoneNewer(log[..last], log[last].id);
    }
  }

  lemma {:induction false} NoneNewer(log: seq<Alert>, id: nat)
    requires forall x :: x in log ==> x.id <= id
    ensures Newer(log, id) == 0
  {
    if log != [] {
      NoneNewer(log[..|log| - 1], id);
    }
  }

  lemma NewestIn(window: seq<Alert>, log: seq<Alert>, x: Alert)
    requires Newest(window, log) && x !in log
    ensures x !in window
  {
  }

  /** On screen are exactly the last ones of the log, by position. */
  lemma NewestHas(window: seq<Alert>, log: seq<Alert>, k: nat)
    requires Newest(window, log) && Increasing(log) && k < |log|
    ensures log[k] in window <==> k >= |log| - |window|
  {
    var n := |log| - |window|;
    assert k >= n ==> window[k - n] == log[k];
    if log[k] in window {
      var j :| 0 <= j < |window| && window[j] == log[k];
      assert log[n + j] == window[j];
    }
  }

  /** Whether an alert already in the log survives the next one being pushed. */
  lemma PushKeeps(window: seq<Alert>, log: seq<Alert>, k: nat, y: Alert)
    requires Newest(window, log) && Increasing(log) && Increasing(log + [y]) && |window| <= MAX_VISIBLE_ALERTS
    requires k < |log|
    ensures log[k] in PushTrim(window, y, MAX_VISIBLE_ALERTS)
            <==> log[k] in window && Newer(log + [y], log[k].id) < MAX_VISIBLE_ALERTS
  {
    assert (log + [y])[k] == log[k];
    NewestHas(window, log, k);
    NewestPush(window, log, y);
    NewestHas(PushTrim(window, y, MAX_VISIBLE_ALERTS), log + [y], k);
    NewerAt(log + [y], k);
  }

  lemma PushShowsNew(window: seq<Alert>, y: Alert, x: Alert)
    requires |window| <= MAX_VISIBLE_ALERTS && x !in window
    ensures x in PushTrim(window, y, MAX_VISIBLE_ALERTS) <==> x == y
  {
    var pushed := PushTrim(window, y, MAX_VISIBLE_ALERTS);
    assert pushed[|pushed| - 1] == y;
  }

  /** What is known of screen and log when `y` is about to be recorded. */
  ghost predicate Ready(window: seq<Alert>, log: seq<Alert>, y: Alert) {
    && Newest(window, log) && |window| <= MAX_VISIBLE_ALERTS
    && Increasing(log) && forall x :: x in log ==> x.id < y.id
  }

  lemma PushedOld(window: seq<Alert>, log: seq<Alert>, x: Alert, y: Alert)
    requires Ready(window, log, y) && x in log
    ensures x in PushTrim(window, y, MAX_VISIBLE_ALERTS)
            <==> x in window && Newer(log + [y], x.id) < MAX_VISIBLE_ALERTS
  {
    var k :| 0 <= k < |log| && log[k] == x;
    IncreasingSnoc(log, y);
    PushKeeps(window, log, k, y);
  }

  /** The pushed alert itself is on screen, and nothing has come after it. */
  lemma PushedNew(window: seq<Alert>, log: seq<Alert>, y: Alert)
    requires Ready(window, log, y)
    ensures y in PushTrim(window, y, MAX_VISIBLE_ALERTS) && Newer(log + [y], y.id) == 0
  {
    NewestIn(window, log, y);
    PushShowsNew(window, y, y);
    NoneNewer(log + [y], y.id);
  }

  lemma PushedOther(window: seq<Alert>, log: seq<Alert>, x: Alert, y: Alert)
    requires Ready(window, log, y) && x !in log && x != y
    ensures x !in PushTrim(window, y, MAX_VISIBLE_ALERTS)
  {
    NewestIn(window, log, x);
    PushShowsNew(window, y, x);
  }

  lemma PushedAny(window: seq<Alert>, log: seq<Alert>, x: Alert, y: Alert, kept: bool)
    requires Ready(window, log, y) && (x in window <==> x in log && kept) && (x == y ==> kept)
    ensures x in PushTrim(window, y, MAX_VISIBLE_ALERTS)
            <==> x in log + [y] && kept && Newer(log + [y], x.id) < MAX_VISIBLE_ALERTS
  {
    if x in log {
      PushedOld(window, log, x, y);
    } else if x == y {
      PushedNew(window, log, y);
    } else {
      PushedOther(window, log, x, y);
    }
  }

  // ── Over every sequence of errors and dismissals ────────────────────────

  /** The screen is the end of the log, five at most, and ids were handed out in order. */
  ghost predicate Good(s: Screen) {
    && Newest(s.shown, s.log) && |s.shown| <= MAX_VISIBLE_ALERTS
    && Increasing(s.log) && forall x :: x in s.log ==> x.id <= s.recorded
  }

  lemma GoodRecord(s: Screen, message: string)
    requires Good(s)
    ensures Good(Apply(s, Record(message)))
  {
    var y := Alert(s.recorded + 1, message);
    var longer := s.log + [y];
    ShowsPush(s.shown, s.log, y);
    IncreasingSnoc(s.log, y);
    forall x | x in longer ensures x.id <= s.recorded + 1 {
    }
  }

  lemma GoodDismiss(s: Screen, id: nat)
    requires Good(s)
    ensures Good(Apply(s, Dismiss(id)))
  {
    ShowsDismiss(s.shown, s.log, id);
    WithoutIncreasing(s.log, id);
    forall x | x in Without(s.log, id) ensures x in s.log {
      WithoutIs(s.log, id, x);
    }
  }

  lemma {:induction false} RunGood(events: seq<Event>)
    ensures Good(Run(events))
  {
    if events != [] {
      RunGood(events[..|events| - 1]);
      match events[|events| - 1] {
        case Record(message) => GoodRecord(Run(events[..|events| - 1]), message);
        case Dismiss(id) => GoodDismiss(Run(events[..|events| - 1]), id);
      }
    }
  }

  /** On screen are always the newest of the alerts not dismissed, in order, five at most. */
  lemma ShowsTheNewest(events: seq<Event>)
    ensures |Run(events).shown| <= MAX_VISIBLE_ALERTS && Newest(Run(events).shown, Run(events).log)
  {
    RunGood(events);
  }

  lemma RecordGives(s: Screen, message: string)
    ensures var s', y := Apply(s, Record(message)), Alert(s.recorded + 1, message);
            s'.shown == PushTrim(s.shown, y, MAX_VISIBLE_ALERTS) && s'.log == s.log + [y]
  {
  }

  lemma GoodReady(s: Screen, message: string)
    requires Good(s)
    ensures Ready(s.shown, s.log, Alert(s.recorded + 1, message))
  {
  }

  /** Whether one alert stays on screen over one event; `kept` says that nothing crowded it out before. */
  lemma ShownStep(s: Screen, e: Event, x: Alert, kept: bool)
    requires Good(s) && (x in s.shown <==> x in s.log && kept) && (x.id > s.recorded ==> kept)
    ensures var s' := Apply(s, e);
            x in s'.shown <==> x in s'.log && kept && Newer(s'.log, x.id) < MAX_VISIBLE_ALERTS
  {
    match e {
      case Record(message) => ShownRecord(s, message, x, kept);
      case Dismiss(id) => DismissedAny(s.shown, s.log, x, id, kept);
    }
  }

  lemma ShownRecord(s: Screen, message: string, x: Alert, kept: bool)
    requires Good(s) && (x in s.shown <==> x in s.log && kept) && (x.id > s.recorded ==> kept)
    ensures var s' := Apply(s, Record(message));
            x in s'.shown <==> x in s'.log && kept && Newer(s'.log, x.id) < MAX_VISIBLE_ALERTS
  {
    GoodReady(s, message);
    PushedAny(s.shown, s.log, x, Alert(s.recorded + 1, message), kept);
    RecordGives(s, message);
  }

  lemma DismissedAny(window: seq<Alert>, log: seq<Alert>, x: Alert, id: nat, kept: bool)
    requires Newest(window, log) && Increasing(log) && |window| <= MAX_VISIBLE_ALERTS
    requires x in window <==> x in log && kept
    ensures x in Without(window, id)
            <==> x in Without(log, id) && kept && Newer(Without(log, id), x.id) < MAX_VISIBLE_ALERTS
  {
    WithoutIs(log, id, x);
    WithoutIs(window, id, x);
    if x in window {
      OnScreenNewer(window, log, x);
      NewerShrinks(log, id, x.id);
    }
  }

  lemma OnScreenNewer(window: seq<Alert>, log: seq<Alert>, x: Alert)
    requires Newest(window, log) && Increasing(log) && |window| <= MAX_VISIBLE_ALERTS && x in window
    ensures Newer(log, x.id) < MAX_VISIBLE_ALERTS
  {
    var k :| 0 <= k < |window| && window[k] == x;
    assert log[|log| - |window| + k] == x;
    NewerAt(log, |log| - |window| + k);
  }

  predicate RoomAt(events: seq<Event>, j: nat, id: nat)
    requires j <= |events|
  {
    Newer(Run(events[..j]).log, id) < MAX_VISIBLE_ALERTS
  }

  /** At no time have five alerts not dismissed come after it. */
  ghost predicate NeverCrowdedOut(events: seq<Event>, id: nat) {
    forall j: nat :: j <= |events| ==> RoomAt(events, j, id)
  }

  lemma RoomBefore(events: seq<Event>, j: nat, id: nat)
    requires j < |events|
    ensures RoomAt(events[..|events| - 1], j, id) <==> RoomAt(events, j, id)
  {
    assert events[..|events| - 1][..j] == events[..j];
  }

  lemma RoomNow(events: seq<Event>, id: nat)
    ensures RoomAt(events, |events|, id) <==> Newer(Run(events).log, id) < MAX_VISIBLE_ALERTS
  {
    assert events[..|events|] == events;
  }

  lemma CrowdedSnoc(events: seq<Event>, id: nat)
    requires events != []
    ensures NeverCrowdedOut(events, id) <==> NeverCrowdedOut(events[..|events| - 1], id) && RoomAt(events, |events|, id)
  {
    var front := events[..|events| - 1];
    if NeverCrowdedOut(front, id) && RoomAt(events, |events|, id) {
      forall j: nat | j <= |events| ensures RoomAt(events, j, id) {
        if j < |events| {
          RoomBefore(events, j, id);
          assert RoomAt(front, j, id);
        }
      }
    }
    if NeverCrowdedOut(events, id) {
      forall j: nat | j <= |front| ensures RoomAt(front, j, id) {
        RoomBefore(events, j, id);
        assert RoomAt(events, j, id);
      }
    }
  }

  lemma {:induction false} NewCrowdsNone(events: seq<Event>, id: nat)
    requires id > Run(events).recorded
    ensures NeverCrowdedOut(events, id)
  {
    RunGood(events);
    NoneNewer(Run(events).log, id);
    RoomNow(events, id);
    if events != [] {
      NewCrowdsNone(events[..|events| - 1], id);
      CrowdedSnoc(events, id);
    }
  }

  /**
   An alert is on screen exactly if it was recorded and not dismissed, and never had five others
   after it that were not dismissed at the time.
   */
  lemma {:induction false} ShownExactly(events: seq<Event>, x: Alert)
    ensures x in Run(events).shown <==> x in Run(events).log && NeverCrowdedOut(events, x.id)
  {
    if events != [] {
      var front := events[..|events| - 1];
      ShownExactly(front, x);
      RunGood(front);
      if x.id > Run(front).recorded {
        NewCrowdsNone(front, x.id);
      }
      ShownStep(Run(front), events[|events| - 1], x, NeverCrowdedOut(front, x.id));
      CrowdedSnoc(events, x.id);
      RoomNow(events, x.id);
    } else {
      RoomNow(events, x.id);
    }
  }

  /** With nothing dismissed they are exactly the last five recorded. */
  lemma {:induction false} ShowsTheLastFive(events: seq<Event>)
    requires forall e :: e in events ==> e.Record?
    ensures Run(events).shown == Last(Run(events).log, MAX_VISIBLE_ALERTS) && |Run(events).log| == |events|
  {
    if events != [] {
      var s := Run(events[..|events| - 1]);
      ShowsTheLastFive(events[..|events| - 1]);
      PushTrimLast(s.log, Alert(s.recorded + 1, events[|events| - 1].message), MAX_VISIBLE_ALERTS);
    }
  }
}
