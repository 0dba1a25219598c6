# The DE-MLS gateway, modelled in Dafny

The repository is the integrator around an external MLS conversation library: a per-user registry of
conversations shared by many tasks, the pumps that carry events and packets in and out of it, a Waku
delivery service, and the codecs both ends speak. This project models that integrator and proves what
its design relies on. `dafny verify dfyconfig.toml` checks all of it.

## How it is laid out

| files | what they hold |
|---|---|
| `Registry.dfy` | `User` as a class: the operations on the registry, each tied to a function of the whole shared state |
| `RegistryProtocol.dfy` | the same registry as a concurrent machine: a program counter per task, one step per lock acquisition, the outer read/write guard, the registry lock, the pump |
| `RegistryInvariant.dfy`, `RegistrySteps.dfy`, `RegistryRuns.dfy` | its inductive invariant, and that every step of every run keeps it |
| `RegistryTheorems.dfy`, `RegistryExact.dfy` | what follows for the end of every run, and two exact forms |
| `RegistryHistory.dfy` | what follows for runs as a whole: how often a join reads, whose slot an abandon drops, which leave signals are lost |
| `RegistryPump.dfy`, `RegistryJoins.dfy` | what a tick of the pump delivers; the machine's joins against the loop of `join_group` |
| `RegistryCounterexamples.dfy`, `RegistryLoops.dfy` | runs that show where a property ends; the join wait and the lifecycle replay as loops |
| `Outbound.dfy`, `OutboundRuns.dfy` | `flush` and the pump's publishing loop, and any number of drainers competing for one transport; each drainer's batch over whole runs |
| `FanOut.dfy`, `Pipeline.dfy`, `PipelineRuns.dfy` | the callback's fan-out to bounded queues; queue, thread, broadcast ring, filter and routing end to end; what becomes of each packet over whole runs |
| `PublishChannel.dfy` | the publish request/reply channel between any number of handles and the node thread |
| `Packets.dfy`, `ContentTopic.dfy`, `TopicFilter.dfy`, `Base64.dfy`, `WakuMessage.dfy` | packets, content topics, the allowlist, and the JSON message a packet travels in |
| `Protobuf.dfy`, `WelcomeEnvelope.dfy` | the wire format and the welcome envelope |
| `Text.dfy`, `ElectionText.dfy` | the steward-election text: printed by one crate, parsed by another |
| `Clock.dfy` | the clamped wall clock under any number of threads |
| `Histories.dfy` | the bounded histories: committed epochs, recorded decisions, pending votes, alerts |

## What is assumed

- A `Conversation` is an opaque instance with its own identity, an append-only event buffer and an
  append-only outbound buffer, each drained by one atomic take, and it signals leaving at most once.
- The answers of code outside the repository (creating or joining a conversation, dispatching a
  message, the relay, the system clock) are parameters or arbitrary choices of a step.
- Locks are never poisoned and tasks are never cancelled. Sleeping and timeouts are arbitrary
  scheduling; only the count of 24 join rounds is kept.
- The wire decoder is a library. It is modelled from the format's definition: unknown fields are
  skipped, a group up to its own end key, to a depth of 100, and any other end key is an error.
- The welcome's own message codec is a parameter; the round trip of the envelope is stated for every
  welcome that codec round-trips.

## Where a property ends

- Leaving: a poll whose flush fails drops the leave signal with it (`FlushDropsTheSignal`), and the
  conversation then stays listed in every continuation (`LostSignalStrands`). That rests on the
  assumption above that a conversation signals at most once: a second signal could still evict it.
  `LostExactly` says that a signal is lost exactly if a poll told of it failed to flush, and `EvictableExactly` that a
  conversation that asked to leave can still be evicted exactly if that did not happen.
- Joining: a join that fails after inserting its slot leaves the id pending with nobody waiting, and
  further joins of it are refused however the run goes on, until a leave of it (`FailedJoinStrandsTheId`,
  `RefusedUntilLeft`); that takes a welcome for the id first. `AwaitedExactly` says these are the only
  such slots. An abandon may drop the slot of a later join of the same id (`AbandonDropsALaterJoin`),
  which the comment on it does not mention. `AbandonsItsOwnExactly` says when it drops its own: if no
  leave and no abandon of the id removed anything since its join began. `OwnSlotWentBefore` and
  `WhoseSlotIsDropped` say what became of its own slot otherwise, and whose it drops instead.
- The inner locks do not suffice: without the outer guard an abandon removes a live conversation
  (`InnerLocksLoseAWelcome`).
- Order: two drainers of one conversation can publish its packets out of order (`DrainersCanReorder`);
  `OrderKeptExactly` gives the condition.
- Topics: an id with a slash is read back as another conversation (`SlashIdReadsAs`); `Crosstalk` and
  `AdmittedAcross` say exactly when it lands in a live one.
- Welcomes: the comment on `decode` promises nothing for any bytes but an envelope's. The code accepts
  every message with a mergeable field 2 among other well-formed fields, skipped groups included
  (`WelcomeAmongOthers`, `GroupIsSkipped`); `DecodesExactly` gives the condition and the welcome.
- Proposal numbers: the panel keeps votes and cached proposals by number alone. Where two groups use
  one number, the second group's vote asked for on screen is missing (`SecondGroupsVoteIsMissing`), and
  a decision can be recorded with what the other group cached (`DecisionUsesAnotherGroupsCaching`).
  `PendingVoteExactly` and `RecordsOwnGroupExactly` give the conditions.
- Election text: a single empty steward id reads as no steward (`StewardsReadBackExactly`).

## Model

| member | source | states |
|---|---|---|
| Registry.User.LookupEntry | crates/de_mls_gateway/src/user/registry.rs:16-26 | found exactly when listed, and then the entry created for that very id |
| Registry.User.BeginPendingJoin | crates/de_mls_gateway/src/user/registry.rs:46-59 | refused without any change exactly when the id is listed, pending or live; otherwise the id is pending; no other id and no lifecycle event is touched |
| Registry.User.AbandonPendingJoin | crates/de_mls_gateway/src/user/registry.rs:64-80 | a pending id is unlisted, a live or missing one is left alone, no other id is touched |
| Registry.User.EmitLifecycle | crates/de_mls_gateway/src/user/state.rs:576-584 | appends to the log and changes nothing else |
| Registry.User.DrainLifecycleEvents | crates/de_mls_gateway/src/user/state.rs:204-214 | hands out the whole log in order and leaves it empty |
| Registry.User.InstallConversation | crates/de_mls_gateway/src/user/state.rs:544-571 | a live id changes nothing; otherwise the id is live with this instance, a pending entry is filled in place so holders see it, and exactly one `Created` is logged |
| Registry.User.RegisterConversation | crates/de_mls_gateway/src/user/lifecycle.rs:38-69 | error order and no change on error; on success the id is live and logged |
| Registry.User.AcceptWelcome | crates/de_mls_gateway/src/user/state.rs:150-177 | failed or foreign welcomes change nothing; a re-delivered one answers the id and changes nothing; a new one installs even if its flush then fails |
| Registry.User.FinalizeSelfLeave | crates/de_mls_gateway/src/user/inbound.rs:108-120 | the id is unlisted and `Removed` logged whatever the scope cleanup answers |
| Registry.User.HandleInbound | crates/de_mls_gateway/src/user/inbound.rs:38-64 | own echoes and pending ids are dropped silently, unknown ids are errors, a leave request evicts and logs once, everything else leaves the registry alone |
| RegistryRuns.ReachableInv | crates/de_mls_gateway/src/group.rs:30-143 | in every run at lock granularity, failed creations and welcomes included: lock ownership, cell/instance/log agreement, what each task knows at its program counter, who holds each leave signal, and the pump's bookkeeping |
| RegistryRuns.StepKeeps | crates/de_mls_gateway/src/group.rs:30-143 | every enabled step of any task, of the pump or of a conversation keeps that invariant under the outer lock |
| RegistryTheorems.FanoutsFollowRegistry | crates/de_mls_gateway/src/lib.rs:281-300 | in every run, applying the drained-but-unapplied and then the buffered log to the pump's fanouts gives the live ids, up to a fill not yet logged and leaves not yet logged |
| RegistryTheorems.QuietFanouts | crates/de_mls_gateway/src/lib.rs:281-300 | with no call between change and log, and the log drained and applied, the fanouts are exactly the live conversations |
| RegistryTheorems.LifecycleAlternates | crates/de_mls_gateway/src/user/inbound.rs:108-120 | for every id the whole log alternates `Created`, `Removed`, starting with `Created` |
| RegistryTheorems.LeaveEvictsItsConversation | crates/de_mls_gateway/src/group.rs:125-141 | the removal of a leave hits the very instance that signalled to that task, live and listed, although polling and finalizing hold two guards |
| RegistryTheorems.SignalAccounted | crates/de_mls_gateway/src/user/inbound.rs:42-61 | an installed instance is listed exactly until evicted, and its leave signal is in exactly one task's hands, lost with a failed flush, or acted on |
| RegistryTheorems.LiveSlotStays | crates/de_mls_gateway/src/user/state.rs:549-565 | no step replaces or unlists a live instance except the removal by its own leave: not a re-delivered welcome, a second creation, or an abandon |
| RegistryTheorems.LostSignalStrands | crates/de_mls_gateway/src/user/state.rs:275-285 | once a signal is lost the instance stays listed in every continuation of the run |
| RegistryTheorems.FillsListedDropsPending | crates/de_mls_gateway/src/user/registry.rs:64-80 | an installer about to fill holds the listed entry, never a detached one; an abandon about to remove holds a listed pending one |
| RegistryTheorems.PendingIsAwaited | crates/de_mls_gateway/src/group.rs:58-115 | every pending id is awaited by the unfinished join that inserted its slot, was left by a failed one, or was inserted by the one writer now about to fill that very slot |
| RegistryTheorems.JoinEnds | crates/de_mls_gateway/src/group.rs:76-109 | a join keeps its id and slot and ends only by a failed announcement, having seen the id live, or having run an abandon after which the id is not pending; and a join that sees it live does end so |
| RegistryJoins.JoinIsItsLoop | crates/de_mls_gateway/src/group.rs:74-114 | over every run a join ends polling its id exactly if one of its at most 24 rounds found it live and none before did, as `AwaitWelcome` has it, that round being its last; otherwise its announcement failed before any round, or all 24 found it missing or pending and the abandon has run |
| RegistryJoins.SeesLiveExactly | crates/de_mls_gateway/src/group.rs:83-86 | in every reachable state a round that looks at a slot goes on to poll exactly if the slot is live, and else to the next round |
| RegistryTheorems.InstallSteps | crates/de_mls_gateway/src/user/state.rs:549-570 | the machine's steps of an install, run without interruption, do to the registry what the method does |
| RegistryTheorems.RegisterSteps | crates/de_mls_gateway/src/user/lifecycle.rs:38-69 | a create goes on to build exactly for a free id, a welcome always may, refusing changes nothing, and building leads to the install steps |
| RegistryTheorems.BeginSteps | crates/de_mls_gateway/src/user/registry.rs:46-59 | the machine's one step of `begin_pending_join` does to the registry what the method does, and gives up exactly on a listed id |
| RegistryTheorems.AbandonSteps | crates/de_mls_gateway/src/user/registry.rs:64-80 | the machine's steps of an abandon do to the registry what the method does |
| RegistryTheorems.LeaveSteps | crates/de_mls_gateway/src/user/inbound.rs:113-119 | the machine's removal and log steps do to the registry what `FinalizeSelfLeave` does |
| RegistryTheorems.InboundSteps | crates/de_mls_gateway/src/user/inbound.rs:38-64 | the machine's steps of a dispatch do to the registry what `HandleInbound` does: a leave is finalized at once, before any flush |
| RegistryTheorems.PollSteps | crates/de_mls_gateway/src/user/state.rs:275-285 | one poll ends the polling of a missing or pending id; otherwise polling goes on, unless the conversation leaves and the flush succeeds |
| RegistryTheorems.PollEnds | crates/de_mls_gateway/src/group.rs:125-141 | a polling task keeps polling its id through every step of every task, failed flushes included, up to exactly these ends |
| RegistryTheorems.NeverStuck | crates/de_mls_gateway/src/group.rs:30-143 | in every reachable state with a task inside a call, some task can take its next step: the locks never deadlock |
| RegistryTheorems.DeliveriesArePrefix | crates/de_mls_gateway/src/lib.rs:303-324 | what the fanout was handed of an instance is a prefix of what it emitted, in order and without repetition |
| RegistryPump.TickDelivers | crates/de_mls_gateway/src/lib.rs:303-324 | over every run, a tick from its scan to its sleep hands the fanout of an id everything its conversation had emitted by the scan, if that one stays listed in between |
| RegistryPump.EventsAreEmitted | crates/de_mls_gateway/src/lib.rs:303-324 | a conversation holds exactly the events the run made it emit, in order |
| RegistryPump.PumpGoesOn | crates/de_mls_gateway/src/lib.rs:281-324 | with no guard in its way the pump can always take a step |
| RegistryPump.TickFinishes | crates/de_mls_gateway/src/lib.rs:281-324 | every step of a tick leaves strictly less of it, and no task adds to it |
| RegistryTheorems.DeliveriesInInstanceOrder | crates/de_mls_gateway/src/lib.rs:303-324 | under one id no event of an older instance follows one of a newer |
| RegistryExact.DeliveriesConcatenate | crates/de_mls_gateway/src/lib.rs:303-324 | all that one id's fanout was handed is the delivered prefixes of its instances, one whole after the other in install order |
| RegistryExact.AwaitedExactly | crates/de_mls_gateway/src/group.rs:58-64 | with no writer at work, a pending id is awaited by the join that inserted its slot exactly unless that join failed after inserting it |
| RegistryHistory.JoinReadsAtMost | crates/de_mls_gateway/src/group.rs:74-95 | in every run, for every slot a join inserted, the join's state reads for it number at most 24 |
| RegistryHistory.AbandonsItsOwnExactly | crates/de_mls_gateway/src/user/registry.rs:64-80 | in every run, an abandon about to remove drops its own join's slot exactly if no leave and no abandon of the id removed anything since that join began |
| RegistryHistory.OwnSlotWentBefore | crates/de_mls_gateway/src/group.rs:97-108 | when it drops another slot, its own is that of a conversation that has left, or another task's abandon dropped it |
| RegistryHistory.WhoseSlotIsDropped | crates/de_mls_gateway/src/group.rs:97-108 | and the slot dropped was left by a failed join, or another task's join still waits for it |
| RegistryHistory.StaysListed | crates/de_mls_gateway/src/user/registry.rs:64-80 | over any stretch of a run a listed entry stays listed exactly until a leave or an abandon of its id: nothing lists it again |
| RegistryHistory.OnlyALeaveFrees | crates/de_mls_gateway/src/user/registry.rs:46-59 | in every run, what first takes a listed id that nobody is joining off the map is a leave, not an abandon |
| RegistryHistory.RefusedUntilLeft | crates/de_mls_gateway/src/user/registry.rs:46-59 | so a join of such an id is refused without any change in every continuation until a leave of it |
| RegistryHistory.LostExactly | crates/de_mls_gateway/src/user/state.rs:279-284 | in every run a leave signal is lost exactly if some poll that was told of it failed to flush |
| RegistryHistory.EvictableExactly | crates/de_mls_gateway/src/group.rs:125-141 | an instance that asked to leave and is not evicted has a continuation that evicts it exactly if no poll dropped its signal |
| RegistryCounterexamples.InnerLocksLoseAWelcome | crates/de_mls_gateway/src/user/registry.rs:64-80 | without the outer guard a run exists in which an abandon unlists a working conversation |
| RegistryCounterexamples.FailedJoinStrandsTheId | crates/de_mls_gateway/src/group.rs:58-64 | a run in which a failed announcement leaves the id pending and every task idle; in every continuation of it a join of the id is refused, without any change, until a leave of the id |
| RegistryCounterexamples.AbandonDropsALaterJoin | crates/de_mls_gateway/src/group.rs:97-108 | a run under the outer guard in which an old join's timeout removes the slot another join waits for |
| RegistryCounterexamples.FlushDropsTheSignal | crates/de_mls_gateway/src/user/state.rs:279-284 | a run under the outer guard in which a failed flush loses the leave signal of a listed conversation |
| RegistryLoops.AwaitWelcome | crates/de_mls_gateway/src/group.rs:74-95 | joined exactly when one of the 24 rounds finds the id live and all before it find it missing or pending; it then stops there, and otherwise early only after a registry that cannot be read |
| RegistryLoops.FinishJoin | crates/de_mls_gateway/src/group.rs:97-114 | polling goes on exactly when some round found the id live and all before it found it missing or pending, and then nothing is changed; otherwise the id is not pending any more and live ids are spared. The registry a round sees is any, also against the one at the end |
| RegistryLoops.Pump.ReplayLifecycle | crates/de_mls_gateway/src/lib.rs:281-300 | the log is emptied and the fanouts are what applying it in order makes of them |
| Outbound.Transport.Publish | crates/de_mls_ds/src/waku/mod.rs:339-352 | a packet is on the transport exactly when its publish answered Ok |
| Outbound.Outbox.DrainOutbound | crates/de_mls_gateway/src/lib.rs:331-337 | the whole buffer in order, which is then empty |
| Outbound.Flush | crates/de_mls_gateway/src/user/state.rs:591-609 | Ok exactly when everything was published; otherwise the transport got exactly the packets before the reported one, whose publish failed, and the rest is gone |
| Outbound.PumpOutbound | crates/de_mls_gateway/src/lib.rs:331-350 | the transport got, in order, exactly the packets whose own publish succeeded |
| Outbound.DrainConserves | crates/de_mls_gateway/src/lib.rs:331-337 | with any number of drainers, what a conversation produced is its batches in drain order followed by its buffer: nothing lost, copied or reordered by draining |
| Outbound.PublishedOnce | crates/de_mls_gateway/src/user/state.rs:603-607 | nothing is on the transport twice, and there is exactly what the batches published |
| Outbound.OnePlace | crates/de_mls_gateway/src/user/state.rs:591-609 | a drained packet is in exactly one of: on the transport, in its drainer's hands, lost |
| Outbound.BatchesContiguous | crates/de_mls_gateway/src/user/state.rs:599-607 | each batch is one contiguous run on the transport, in its own order |
| Outbound.WhatABatchLoses | crates/de_mls_gateway/src/lib.rs:338-350 | a finished flush lost exactly the failed packet and all after it, a finished tick exactly the failed packets |
| Outbound.BatchIsItsLoop | crates/de_mls_gateway/src/user/state.rs:599-608 | a finished batch left on the transport what its loop run alone would have |
| OutboundRuns.DrainedAs | crates/de_mls_gateway/src/user/state.rs:591-609 | over every run a drained batch is for good of the conversation drained, has the drainer's kind, and holds what was buffered |
| OutboundRuns.FlushedAs | crates/de_mls_gateway/src/user/state.rs:603-607 | of what a flush drained every publish but the last succeeded, and it is over exactly when all were tried or the last failed |
| OutboundRuns.NothingAfterAFailure | crates/de_mls_gateway/src/user/state.rs:603-607 | after a failed publish nothing more of a flush is published |
| OutboundRuns.TickedAs | crates/de_mls_gateway/src/lib.rs:338-350 | what the pump drained is all tried, whatever the answers, and only then is it over |
| OutboundRuns.AnnouncedAs | crates/de_mls_gateway/src/user/state.rs:591-609 | a packet published outside every buffer is a batch of itself, tried at most once |
| OutboundRuns.ProducedIsBuffered | crates/de_mls_gateway/src/lib.rs:331-337 | what a conversation has produced is what the run made it buffer |
| OutboundRuns.ResultsAreAnswers | crates/de_mls_gateway/src/user/state.rs:603-607 | a batch's results are the relay's answers to its own publishes |
| OutboundRuns.LogIsAccepted | crates/de_mls_gateway/src/user/state.rs:603-607 | the transport holds exactly the accepted publishes, in the order made |
| OutboundRuns.NeverStuck | crates/de_mls_gateway/src/user/state.rs:599-607 | while a batch is not done the transport's holder can publish or a waiting task can take it |
| OutboundRuns.PublishingFinishes | crates/de_mls_gateway/src/user/state.rs:599-607 | each such step leaves strictly less to do |
| Outbound.OrderKeptExactly | crates/de_mls_gateway/src/user/state.rs:599-602 | one conversation's packets are published in drain order exactly when the batches that published took the mutex in drain order |
| Outbound.DrainersCanReorder | crates/de_mls_gateway/src/lib.rs:331-340 | a run in which a later batch is published before an earlier one of the same conversation |
| FanOut.Channel.Offer | crates/de_mls_ds/src/waku/mod.rs:221-225 | disconnected exactly if the receiver is gone, full exactly if it is there and 256 are queued, otherwise the packet is last in the queue; the first two leave the queue alone |
| FanOut.Subscribers.FanOut | crates/de_mls_ds/src/waku/mod.rs:212-227 | every listed channel is offered the packet once, and the list keeps exactly the connected ones in order |
| FanOut.Subscribers.InboundReceiver | crates/de_mls_ds/src/waku/mod.rs:324-333 | a new, empty, connected channel goes to the end of the list |
| FanOut.MissesOnlyWhenFull | crates/de_mls_ds/src/waku/mod.rs:212-227 | for every run, consumed plus queued is, in order, exactly the packets since subscription that did not find 256 queued |
| FanOut.MissesNothingExactly | crates/de_mls_ds/src/waku/mod.rs:212-227 | a receiver has every packet since it subscribed exactly when its queue was never at capacity at one |
| FanOut.ListIsTheConnected | crates/de_mls_ds/src/waku/mod.rs:221-225 | the list is, in subscription order, exactly the connected receivers and those dropped since the last packet: full ones stay, dropped ones go at the next |
| FanOut.ReceiversDidThat | crates/de_mls_ds/src/waku/mod.rs:212-227 | over every run a receiver is connected until it is dropped, and has consumed one packet for each of its receives |
| FanOut.PacketsAreParsed | crates/de_mls_ds/src/waku/mod.rs:212-227 | the packets are those the run parsed, in order |
| FanOut.EventIsFanOut | crates/de_mls_ds/src/waku/mod.rs:212-227 | in every run the machine's packet step does to the listed queues what one pass of the callback does |
| FanOut.CallbackIsEvent | crates/de_mls_ds/src/waku/mod.rs:212-227 | channels whose queues mirror the machine's list still do after the callback has run over them |
| Pipeline.EveryPacketInOnePlace | crates/de_mls_gateway/src/bootstrap.rs:80-96 | packets parsed since subscription are, as a multiset, those routed, received, unread, in the thread's hand, queued, filtered out, or lost to a full queue, an unheard send or lag |
| Pipeline.NothingOvertakes | crates/de_mls_gateway/src/forwarder.rs:173-189 | what is routed, followed by all that is still on the way, is strictly in parse order |
| Pipeline.RoutedExactly | crates/de_mls_gateway/src/forwarder.rs:182-189 | a packet out of the ring is routed exactly when, by the history of adds and removes, the peer then held its conversation and the subtopic is a known one |
| Pipeline.QueueIsAReceiver | crates/de_mls_gateway/src/bootstrap.rs:67-96 | the pipeline's queue takes each packet as one connected channel of the fan-out does |
| Pipeline.LagLosesTheOldest | crates/de_mls_gateway/src/forwarder.rs:174-181 | a packet is lost to lag only if at least 512 newer ones were sent on the ring |
| PipelineRuns.FateExactly | crates/de_mls_gateway/src/forwarder.rs:173-189 | over every run a packet is lost to a full queue, unheard, overwritten, rejected or routed exactly if a step met it in the one state that leads there |
| PipelineRuns.HistoryIsTheRun | crates/de_mls_gateway/src/bootstrap.rs:67-96 | packets and filter changes are the run's, the forwarder listens exactly once it has subscribed, and the pipeline has subscribed exactly once it was set up |
| PipelineRuns.MissingExactly | crates/de_mls_gateway/src/bootstrap.rs:80-96 | of the packets parsed since the pipeline subscribed, those neither on the way nor routed are exactly those that met one of the four losses |
| PipelineRuns.SendsAreHeard | crates/de_mls_gateway/src/bootstrap.rs:86-88 | once the forwarder listens every send puts exactly the packet in hand on the ring |
| PipelineRuns.NothingUnheardAfter | crates/de_mls_gateway/src/forwarder.rs:170 | and nothing is unheard from then on |
| PipelineRuns.SentIsHeard | crates/de_mls_gateway/src/bootstrap.rs:86-88 | the ring has carried exactly the sends made since the forwarder subscribed, in order |
| PipelineRuns.CheckedWhenDispatched | crates/de_mls_gateway/src/forwarder.rs:182 | a packet is checked against all filter changes made before its dispatch |
| PipelineRuns.NeverStuck | crates/de_mls_gateway/src/forwarder.rs:173-189 | while the forwarder listens, something moves on whatever is on the way |
| PipelineRuns.MovingFinishes | crates/de_mls_gateway/src/forwarder.rs:173-189 | each such step leaves strictly less to do |
| Pipeline.WelcomeArrives | crates/de_mls_gateway/src/forwarder.rs:191-212 | a welcome published for a clean id is parsed, decoded and routed as that very welcome |
| Pipeline.OthersArrive | crates/de_mls_gateway/src/forwarder.rs:214-226 | application traffic, and announcements without a field 2, arrive unchanged and are never taken for a welcome |
| PublishChannel.RelayedInQueueOrder | crates/de_mls_ds/src/waku/mod.rs:233-237 | the relay answers commands in queue order, each at most once; only a panic drops any |
| PublishChannel.OwnAnswer | crates/de_mls_ds/src/waku/mod.rs:339-352 | every caller gets the relay's answer to its own command: Ok exactly if the relay took that packet, the same error if not, closed exactly if it was never answered |
| PublishChannel.OwnPacket | crates/de_mls_ds/src/waku/mod.rs:234-237 | over every run a call returns Ok exactly if the relay so answered the very packet the call was begun with, and an error exactly if it gave that one |
| PublishChannel.HandlesAreOpen | crates/de_mls_ds/src/waku/mod.rs:339-352 | the live handles are those cloned and not closed since |
| PublishChannel.StoppedExactly | crates/de_mls_ds/src/waku/mod.rs:233-237 | the node thread has stopped exactly if it ended or unwound |
| PublishChannel.AllClosed | crates/de_mls_ds/src/waku/mod.rs:233-237 | unless it unwound, it stopped with every handle closed |
| PublishChannel.SlotAlwaysFree | crates/de_mls_ds/src/waku/mod.rs:236 | no answer ever finds its one-slot channel full or its caller gone |
| PublishChannel.ClosedOnlyByPanic | crates/de_mls_ds/src/waku/mod.rs:346-350 | a closed channel is reported only after the node thread unwound, and never for a relayed packet |
| PublishChannel.NeverStuck | crates/de_mls_ds/src/waku/mod.rs:233-237 | while any call is unfinished some step that serves a call is possible |
| PublishChannel.ServingFinishes | crates/de_mls_ds/src/waku/mod.rs:339-352 | every such step leaves strictly less to do, so calls return after finitely many |
| ContentTopic.SplitJoin | crates/de_mls_ds/src/waku/mod.rs:308 | splitting undoes joining for pieces free of the separator |
| ContentTopic.JoinSplit | crates/de_mls_ds/src/waku/mod.rs:308 | joining undoes splitting for every string, and no piece holds the separator |
| ContentTopic.TopicPieces | crates/de_mls_ds/src/waku/mod.rs:35-41 | the five pieces of the topic of slash-free names, in order |
| ContentTopic.TopicRoundTrip | crates/de_mls_ds/src/waku/mod.rs:35-41 | for every slash-free version, a topic reads back as its pair of names exactly when both are non-empty and slash-free |
| ContentTopic.OwnTopicRoundTrip | crates/de_mls_ds/src/waku/mod.rs:307-317 | with the repository's version and subtopics that is exactly when the id is non-empty and slash-free |
| ContentTopic.TopicsDistinct | crates/de_mls_ds/src/waku/mod.rs:35-41 | distinct pairs of such names have distinct topics |
| ContentTopic.OwnTopicsDistinct | crates/de_mls_ds/src/waku/mod.rs:35-41 | with the repository's version and subtopics they do for all ids, empty ones and ones with a slash included |
| ContentTopic.SlashIdReadsAs | crates/de_mls_ds/src/waku/mod.rs:307-317 | the pair any id with a slash is read as, which is never its own |
| ContentTopic.Crosstalk | crates/de_mls_ds/src/waku/mod.rs:307-317 | such an id is read as a known subtopic of another conversation exactly when its first and third pieces spell them |
| ContentTopic.CrosstalkHappens | crates/de_mls_ds/src/waku/mod.rs:307-317 | every conversation has ids whose packets are read as its own |
| TopicFilter.Filter.AddMany | crates/de_mls_ds/src/topic_filter.rs:34-43 | exactly the id's subtopics are added |
| TopicFilter.Filter.RemoveMany | crates/de_mls_ds/src/topic_filter.rs:46-52 | exactly the id's entries go |
| TopicFilter.Filter.Contains | crates/de_mls_ds/src/topic_filter.rs:55-66 | allowed exactly when the pair is held |
| TopicFilter.FilterRefines | crates/de_mls_ds/src/topic_filter.rs:34-66 | after any adds and removes the filter is the ids added and not removed since, times the subtopics |
| TopicFilter.AdmittedExactly | crates/de_mls_ds/src/topic_filter.rs:55-66 | a packet published for a clean id passes a peer's filter exactly while that peer holds the id |
| TopicFilter.AdmittedAcross | crates/de_mls_ds/src/topic_filter.rs:55-66 | a packet of an id with a slash passes exactly when the id spells out a held conversation and a known subtopic |
| Base64.DecodesExactly | crates/de_mls_ds/src/waku/mod.rs:249-254 | decoding gives some bytes exactly for their own encoding: a round trip both ways, as section 4 of RFC 4648 with strict padding |
| Base64.PacksTheBits | crates/de_mls_ds/src/waku/mod.rs:249-254 | every three bytes are, as one number, their four symbols' values: section 4 of RFC 4648 |
| Base64.PacksTheRest | crates/de_mls_ds/src/waku/mod.rs:249-254 | one or two bytes left over are padded with zero bits |
| Base64.TextIs | crates/de_mls_ds/src/waku/mod.rs:249-254 | a symbol for each value, then `=` up to a multiple of four |
| Base64.SymbolsAreTheAlphabet | crates/de_mls_ds/src/waku/mod.rs:249-254 | the alphabet of Table 1 of RFC 4648 |
| WakuMessage.PacketRoundTrip | crates/de_mls_ds/src/waku/mod.rs:247-263 | whatever wraps the message, the packet arrives with the same payload, names and sender exactly when its names are clean |
| WakuMessage.ArrivesAs | crates/de_mls_ds/src/waku/mod.rs:274-303 | for every packet, clean or not, what arrives |
| WakuMessage.MessageFields | crates/de_mls_ds/src/waku/mod.rs:256-263 | the message's five fields by name, the version 2, and what payload and metadata decode to |
| WakuMessage.TimestampKept | crates/de_mls_ds/src/waku/mod.rs:281-284 | the clock reading survives exactly below 2^63 |
| WakuMessage.ForeignId | crates/de_mls_ds/src/waku/mod.rs:292 | a packet of an id with a slash never arrives under that id |
| WakuMessage.AcceptedEvent | crates/de_mls_ds/src/waku/mod.rs:274-303 | any accepted event has clean names, a 64-bit timestamp and a canonically encoded payload |
| WakuMessage.Republish | crates/de_mls_ds/src/waku/mod.rs:247-303 | publishing an accepted packet again reproduces it up to the timestamp |
| Protobuf.VarintRoundTrip | crates/de_mls_gateway/src/welcome_envelope.rs:20-25 | every 64-bit number reads back and what follows is untouched: "Base 128 Varints" of Protocol Buffers Encoding |
| Protobuf.VarintFits | crates/de_mls_gateway/src/welcome_envelope.rs:30-32 | no byte string reads as a number past 64 bits |
| Protobuf.VarintDigits | crates/de_mls_gateway/src/welcome_envelope.rs:20-25 | seven bits a byte, lowest first, the top bit on all but the last |
| Protobuf.DocumentedRecords | crates/de_mls_gateway/src/welcome_envelope.rs:20-25 | the two records "Protocol Buffers Encoding" spells out |
| Protobuf.ReadsBack | crates/de_mls_gateway/src/welcome_envelope.rs:13-32 | any sequence of well-formed records, groups included, reads back as written exactly when none nests past 100: "Length-Delimited Records" and the other wire types |
| Protobuf.ReadIsWellFormed | crates/de_mls_gateway/src/welcome_envelope.rs:30-32 | whatever bytes read at all read as well-formed records within that depth |
| WelcomeEnvelope.WelcomeRoundTrip | crates/de_mls_gateway/src/welcome_envelope.rs:20-32 | every welcome its own codec round-trips comes back from its envelope |
| WelcomeEnvelope.EnvelopeBytes | crates/de_mls_gateway/src/welcome_envelope.rs:13-25 | the bytes of an envelope: the key of field 2, the length, the welcome |
| WelcomeEnvelope.WelcomeAmongOthers | crates/de_mls_gateway/src/welcome_envelope.rs:30-32 | it also comes back from among any other well-formed fields, groups included, exactly if none nests past 100 |
| WelcomeEnvelope.GroupIsSkipped | crates/de_mls_gateway/src/welcome_envelope.rs:30-32 | in particular bytes that are not an envelope's, an empty group before one, decode to its welcome |
| WelcomeEnvelope.DecodesExactly | crates/de_mls_gateway/src/welcome_envelope.rs:27-32 | which bytes decode, and to what: those that read as records with a field 2, none of them of another wire type, and to what merging all of them in order makes of the empty welcome |
| WelcomeEnvelope.OtherMessages | crates/de_mls_gateway/src/welcome_envelope.rs:27-32 | every well-formed message, however deep its groups, whose field numbers all differ from 2 decodes to none |
| WelcomeEnvelope.NoWelcomeField | crates/de_mls_gateway/src/welcome_envelope.rs:27-32 | the same for any readable bytes, however encoded |
| WelcomeEnvelope.SecondWelcomeMerges | crates/de_mls_gateway/src/welcome_envelope.rs:30-32 | two envelopes in a row are one welcome merged twice |
| Text.EncodeHex | crates/de_mls_ui_protocol/src/lib.rs:17-27 | the loop's result as a function of the bytes |
| Text.HexInjective | crates/de_mls_ui_protocol/src/lib.rs:17-27 | distinct byte strings print differently, the empty one included |
| Text.HexAt | crates/de_mls_ui_protocol/src/lib.rs:17-27 | `0x`, then two lower-case digits for each byte, the high one first |
| ElectionText.ElectionReadsBack | apps/de_mls_desktop_ui/src/main.rs:159-171 | for every epoch, retry round and steward list the banner shows exactly them, a single empty id excepted |
| ElectionText.StewardsReadBackExactly | apps/de_mls_desktop_ui/src/main.rs:165-169 | the stewards read back exactly unless the list is one empty id |
| ElectionText.ElectionsDistinct | crates/de_mls_ui_protocol/src/lib.rs:46-55 | two elections print the same exactly when they are the same up to that one collision |
| ElectionText.OnlyElectionsLookLikeOne | crates/de_mls_ui_protocol/src/lib.rs:33-58 | no other request prints like an election |
| ElectionText.SubjectsDistinct | crates/de_mls_ui_protocol/src/lib.rs:35-45 | two other requests print the same exactly when they are about the same member, or both about none |
| Clock.SystemClock.Now | crates/de_mls_gateway/src/mls.rs:48-56 | what is returned is what is stored: the larger of the last value and the clamped reading |
| Clock.ClampLossless | crates/de_mls_gateway/src/mls.rs:49-53 | the cast behind the clamp drops no bits |
| Clock.NowIsTheLargestReading | crates/de_mls_gateway/src/mls.rs:54-55 | for any threads and readings, in `fetch_max` order each call returns the largest clamped reading so far |
| Clock.CallsUseTheirReadings | crates/de_mls_gateway/src/mls.rs:48-55 | the value a call compares is what its own thread last read, clamped to 64 bits |
| Clock.NeverBackwards | crates/de_mls_gateway/src/mls.rs:48-56 | returned values never decrease across threads, whatever the system clock does |
| Clock.CallsAreNow | crates/de_mls_gateway/src/mls.rs:54-55 | the interleaved calls return what one `Now` after another would |
| EpochHistory.Fanout.Handle | crates/de_mls_gateway/src/handler.rs:57-138 | the new store, what is sent to the desktop, and the topics: `Leaving` drops exactly the id's, nothing else changes them |
| EpochHistory.SendsTheLastTen | crates/de_mls_gateway/src/handler.rs:121-138 | after any events a commit sends the last ten non-empty batches since the last `Leaving`, each without its payload-less proposals |
| EpochHistory.DisplayIs | crates/de_mls_gateway/src/forwarder.rs:27-33 | of a batch one pair for each proposal with a payload, in order: its kind and its target |
| EpochHistory.SendsTheirProposals | crates/de_mls_gateway/src/handler.rs:121-138 | so what a commit sends is, batch by batch, exactly those pairs |
| EpochHistory.HistoryIsLastTen | crates/de_mls_gateway/src/handler.rs:57-138 | over every event sequence the history of an id is the last ten non-empty batches since its last `Leaving`, and absent exactly if there are none |
| ConsensusPanel.Home.AnyPending | apps/de_mls_desktop_ui/src/main.rs:491-494 | true exactly if some pending vote has that proposal |
| ConsensusPanel.Home.RetainOthers | apps/de_mls_desktop_ui/src/main.rs:559 | the votes on other proposals stay, in order |
| ConsensusPanel.Home.OnVoteRequested | apps/de_mls_desktop_ui/src/main.rs:480-499 | the whole new panel state |
| ConsensusPanel.Home.OnDecided | apps/de_mls_desktop_ui/src/main.rs:514-560 | the whole new panel state; a cached decision on screen ends as an election shown accepted exactly for a yes, as a rejection with its reason, or, a yes on anything else, as neither |
| ConsensusPanel.Home.OnOther | apps/de_mls_desktop_ui/src/main.rs:500-513 | the whole new panel state for the remaining events: caching an own proposal, opening or losing a group, casting a vote |
| ConsensusPanel.CacheIs | apps/de_mls_desktop_ui/src/main.rs:490-533 | a proposal is cached exactly while some caching event is not used up, and with what the latest one said |
| ConsensusPanel.RecordsExactly | apps/de_mls_desktop_ui/src/main.rs:518-554 | recorded are exactly the decisions in the group on screen of a proposal still cached |
| ConsensusPanel.RecordedOnce | apps/de_mls_desktop_ui/src/main.rs:533 | no caching is recorded twice |
| ConsensusPanel.RecordsOwnGroupExactly | apps/de_mls_desktop_ui/src/main.rs:514-533 | over every event sequence, all recorded outcomes are of the group they were cached for exactly if no on-screen decision found another group's caching in force |
| ConsensusPanel.DecisionUsesAnotherGroupsCaching | apps/de_mls_desktop_ui/src/main.rs:514-533 | a sequence in which one does: "b" decides, and what "a" was asked about is recorded |
| ConsensusPanel.UnsharedNumbers | apps/de_mls_desktop_ui/src/main.rs:514-533 | no record mixes groups if no decision on screen has the number of another group's earlier caching |
| ConsensusPanel.OutcomesAreTheLast | apps/de_mls_desktop_ui/src/main.rs:533-553 | elections and rejections on screen are the last twenty ever recorded of each |
| ConsensusPanel.ElectionsOnScreen | apps/de_mls_desktop_ui/src/main.rs:519-540 | over every event sequence the elections on screen are the last twenty recorded decisions on actions that start with "Steward Election": accepted, without a reason, exactly for a yes, "Rejected" exactly for a no, "Timed out" exactly for no result |
| ConsensusPanel.RejectionsOnScreen | apps/de_mls_desktop_ui/src/main.rs:519-553 | the rejections are the last twenty recorded decisions on other actions that were no yes, with the reason to match |
| ConsensusPanel.ShownWereDecided | apps/de_mls_desktop_ui/src/main.rs:514-533 | each was decided in the group on screen, of a proposal then cached |
| ConsensusPanel.PendingDistinct | apps/de_mls_desktop_ui/src/main.rs:491-497 | pending votes are pairwise distinct by proposal |
| ConsensusPanel.PendingExactly | apps/de_mls_desktop_ui/src/main.rs:480-560 | a vote of some number is pending exactly if one was asked for in the group on screen and the number neither cast nor decided since, in any group |
| ConsensusPanel.PendingVoteExactly | apps/de_mls_desktop_ui/src/main.rs:480-560 | which vote that is: this very vote is pending exactly if it was asked for on screen while no earlier vote of its number stood, and the number neither cast nor decided since |
| ConsensusPanel.SecondGroupsVoteIsMissing | apps/de_mls_desktop_ui/src/main.rs:491-497 | a sequence in which the vote asked for in the group on screen stands and is not pending: another group's holds its number |
| Alerts.AlertsState.RecordError | apps/de_mls_desktop_ui/src/main.rs:101-114 | the new window and the next id |
| Alerts.AlertsState.DismissError | apps/de_mls_desktop_ui/src/main.rs:116-118 | every other alert stays, in order |
| Alerts.ShownExactly | apps/de_mls_desktop_ui/src/main.rs:101-118 | over every sequence of errors and dismissals an alert is on screen exactly if it is not dismissed and never had five later ones, not dismissed at the time, after it |
| Alerts.ShowsTheNewest | apps/de_mls_desktop_ui/src/main.rs:101-118 | those on screen are the end of the log of alerts not dismissed, in order, five at most |
| Alerts.ShowsTheLastFive | apps/de_mls_desktop_ui/src/main.rs:101-114 | with nothing dismissed, exactly the last five |

## Left out

- Release of a guard is one step with the last inner operation of the call that held it; between the two nothing of the modelled state can be observed.
- The pump reads `app_id` and drains the log under two read guards; the first has no effect and is not a step.
- Polling, delivery and pump loops without end are steps of the machines rather than methods; only their bounded parts are loops.
- `User` keeps its slots in one arena of cells, so a held entry is an index, not an object; detaching and filling in place are kept.
- That a conversation's last `Leaving` event reaches the UI: a leave may evict the entry before the pump looks it up, so deliveries are stated as prefixes.
- That every live conversation is polled: a welcome after an abandoned join installs one with no loop.
- That abandoning a join removes its topics: the code does not.
- `de_mls::Conversation`, MLS, consensus and scoring are opaque; `MemberInvite` and `MemberWelcome` messages are not part of this model.
- Lock poisoning, panics (other than of the node thread) and cancellation; the join wait's `Broken` reading is the only trace of poisoning.
- JSON text syntax, node start-up, the relay's FFI and the pubsub topic: the message is a JSON value, and what the relay wraps around it is arbitrary.
- Action names and the steward badge: the kind of a proposal is carried as a string. Notices of events other than `Leaving` and `CommitApplied`.
- `PollConversation`, `LeaveConversation` and `ReceiveKeyPackage` of `User` decide on answers of opaque calls and change no registry state; they have no row.
- The panel's approved queue, member list, epoch and freeze counters are overwritten by single events and have no history to state.
- `summarize_error` and id exhaustion of the alert counter; alerts carry the summary they were given.
- Thin `User` getters, credential and key-package minting, settings, several logins at once.
- WakuMessage.TimestampKept: the sender's clock is any number of nanoseconds; reading it is not modelled.
