# Nowhere: a verified model of its flow pairing, DATAGRAM and framing cores

Nowhere carries TCP and UDP flows between a *vector* (client side) and a *portal* (server side) over TLS/TCP
connections and QUIC connections. A flow may be split: its uplink travels on one carrier and its downlink on
the other. This project models the parts of it that keep state and have to get interleavings, budgets and byte
boundaries right, and proves what they promise. `dafny verify dfyconfig.toml` checks all of it.

Each source operation is a function of the state it works on. Where the source changes an object in place there
is also a class whose methods are proved to compute those functions, loops included. Choices the source leaves to
hash order (which of several equally old entries is evicted, in which order a purge visits its flows) are explicit
`hint` arguments, so every statement holds for all of them. Time, I/O results, chunk sizes and cancellation points
are arguments too.

| files | what they model |
|---|---|
| `Links`, `Pairing`, `PairingRegistry` | the pairing registry: half-open flows, claims, QUIC generations, tombstones, permits |
| `PairingInvariant`, `PairingSteps`, `PairingSubmit`, `PairingRuns`, `PairingTheorems` | what every call keeps, and the promises over whole runs |
| `PairingOrder`, `PairingReplacement`, `PairingTombstones` | arrival order, carrier replacement, what a replacement leaves behind |
| `PairingTable`, `PairingLocality`, `PairingTimers`, `PairingEndings` | the exact outcome of every submission, how far one call reaches, epochs and timers, what ends a flow |
| `PairingWitnesses` | legal runs in which the registry does less than one might expect |
| `PairingFrames`, `Barrier` | the generation barrier, with calls split into the sections that interleave |
| `Datagram`, `Reassembly`, `ReassemblyRuns`, `SlotLifetime`, `FragmentRoundTrip`, `DatagramReassembler` | frames, fragment plans, reassembly |
| `DatagramSession`, `SessionRuns`, `PortalSession` | flow map, READY gating, queues and byte budget of the portal's QUIC session |
| `SessionDelivery` | which packet reaches which queue, at both ends |
| `VectorRoutes`, `VectorSession` | the same at the vector, where a closed sender takes its route away |
| `PacketSender`, `RetryDelivery` | sending with MTU retry and what the receiver makes of it |
| `Uot`, `TargetCodec`, `Flow` | UDP-over-stream framing, target codec, flow headers |
| `IdCycle`, `FlowId`, `RateBucket` | flow identifiers and the token bucket |
| `Wrappers`, `Counting` | options, bytes, counting and summing over maps |

## What turned out not to hold as one might expect

- `cancel_udp` does not look at the kind of the flow it names. A CLOSE with the id of a half-open *TCP* flow takes
  its claim away and leaves the half behind. `CloseKeepsIffNotTcp` proves that this is exactly when the books break,
  and `CloseCanOrphan` gives a run.
- A replacement may insert a tombstone and evict it again in the same purge. `KeepsAllIffRoom` gives the exact
  condition under which every silenced flow keeps its tombstone whatever the hash order, and `TombstoneCanBeLost`
  a legal run without it. The model reads one clock for the whole purge while the source reads it for each flow, so
  the loss needs equal readings, or rejections by other calls in between.
- A receiver gives up its flow *id* when it is dropped, not its own entry. If the id was installed again in between,
  the newer route goes. `DropTakesOnlyItsOwn` gives the exact condition, `LateDropTakesNewRoute` a run.
- The flow-id allocator's last error can occur, but only when all 2^32 - 1 identifiers are live and the limit is
  larger still (`Allocate`).
- The check for fewer than two fragments can never fail (`PlanExists`), nor can the missing-piece branch of
  reassembly be taken (`OnePieceMore`).

## Model

| member | source | states |
|---|---|---|
| Barrier.GenerationBarrier | src/portal/pairing.rs:275-323 | however install, activate, taking a generation, swapping it in, guard drop, cancel pass and all other calls interleave, a running uncancelled flow owns only QUIC generations that are current or whose cancel pass is outstanding, and none whose pass has run; displaced generations never become current again |
| Barrier.PassedForGood | src/portal/pairing.rs:1158-1187 | once the cancel pass of g has run, no later step lets a running flow of that session own g |
| Barrier.OnlyOwnersAreStopped | src/portal/pairing/link.rs:90-134 | a running flow is cancelled only by shutdown, by its own CLOSE, or by the cancel pass of a generation it owns: a late guard drop for g never cancels a flow built on other carriers |
| Barrier.ActivatedIsCurrent | src/portal/pairing.rs:283-315 | activation compares generations and marks the claim in one step, so what a newly running flow owns is current |
| Barrier.StepBarred | src/portal/pairing.rs:275-323 | each section keeps the barrier invariant, and passes done stay done |
| Barrier.CallIsItsSections | src/portal/pairing/link.rs:165-207 | every public call equals its sections run in a row, with nothing in flight and nothing owed afterwards |
| Barrier.RunningFlowsAreCurrent | src/portal/pairing/link.rs:165-207 | between whole calls, every running flow owns current generations only, after every run |
| PairingTheorems.Bookkeeping | src/portal/pairing.rs:193-273 | after every run: pending maps disjoint, together exactly the inactive claims, agreeing on metadata, epoch, target and generations; at most `max_pending` inactive claims per session and tombstones; a tombstone's key has neither claim nor half |
| PairingTheorems.PermitsConserved | src/portal/pairing.rs:325-347 | after every run, free permits plus those of half-open uplinks plus those of live leases equal `max_udp_flows`, for each session budget |
| PairingTheorems.ResultsAreSingle | src/portal/pairing.rs:707-726 | after every run, no downlink was told twice how its setup ended and none a relay owns was told |
| PairingTheorems.PairsAreCoherent | src/portal/pairing.rs:656-703 | whatever ran before, a submission trips no `expect`, meets no missing claim or permit, and a pair it returns is made of an OPEN and an ATTACH (or one DUPLEX) of the run: same key and metadata, uplink and target of the one, downlink of the other, QUIC halves current |
| PairingTheorems.HistoryIsRun | src/portal/pairing.rs:417-426 | the submissions the registry has seen are exactly those of its run |
| PairingWitnesses.CloseCanOrphan | src/portal/pairing.rs:1129-1146 | a legal run after which CLOSE with the id of a half-open TCP flow leaves a half without a claim |
| PairingRuns.CloseKeepsIffNotTcp | src/portal/pairing.rs:1129-1146 | CLOSE keeps the registry in order if and only if no half-open TCP flow has that key |
| PairingRuns.RunKeepsInvariant | src/portal/pairing.rs:85-111 | the full invariant (books, permits, downlinks, provenance, link accounting) after every legal run |
| PairingRuns.StepKeeps | src/portal/pairing.rs:417-1238 | every call keeps the full invariant |
| PairingRuns.TimeoutKeeps | src/portal/pairing.rs:1075-1127 | a timer, stale or due, keeps the invariant (what it does is in `StaleTimerDoesNothing` and `TimeoutUnfolds`) |
| PairingRuns.TimeoutUnfolds | src/portal/pairing.rs:1075-1127 | a due timer forgets its flow entirely and tells its downlink, or leaves a tombstone when only the uplink was there |
| PairingRuns.DropLeaseKeeps | src/portal/pairing/state.rs:226-247 | dropping a lease, live or gone, keeps the invariant |
| PairingRuns.LeaseEndsItsFlow | src/portal/pairing/state.rs:226-247 | dropping a live lease takes away exactly the running claim it was given for, the only one with its epoch, and adds its permit to the budget it came from; nothing else changes, and a lease that is gone changes nothing |
| PairingRuns.RegisterQuicKeeps | src/portal/pairing/link.rs:165-207 | replacing a carrier keeps the invariant |
| PairingRuns.DropQuicGuardKeeps | src/portal/pairing/link.rs:90-134 | a guard drop, late or current, keeps the invariant |
| PairingRuns.RejectAllKeeps | src/portal/pairing.rs:1199-1224 | purging any set of flows in any order keeps the invariant |
| PairingRuns.CancelAllKeeps | src/portal/pairing.rs:1189-1238 | shutdown keeps the invariant and returns the permits of all half-open flows |
| PairingTable.TableDecides | src/portal/pairing.rs:417-1073 | the exact table of a submission over the registry it meets: paired, waiting under the next epoch with its half in place, or refused with which code and with or without giving the flow up, each if and only if its condition on header, target, carrier, stream halves, tombstone, permit, claim and session limit holds |
| PairingTable.ValidationIs | src/portal/pairing.rs:145-191 | validation refuses exactly a header for the other protocol or a misplaced target as invalid, and then a wrong or replaced carrier; a role's stream halves are exactly those it needs |
| PairingTable.DuplexPairs | src/portal/pairing.rs:463-512 | a duplex submission the table lets through returns its pair at once: both halves its own, one fresh epoch, its permit in its lease, and the whole new state |
| PairingTable.RefusedIsTold | src/portal/pairing.rs:366-411 | a refused ATTACH or DUPLEX is told its code; a flow that is given up is gone, with the code at its waiting downlink or in a tombstone |
| PairingTable.RejectsExactly | src/portal/pairing.rs:366-411 | `reject_flow_setup` leaves a running flow alone and forgets any other, telling the waiting downlink or burying the code, never both |
| PairingTable.TombstoneAnswers | src/portal/pairing.rs:349-361 | every half that meets a live tombstone is refused with its code; ATTACH and DUPLEX use it up, OPEN leaves it; nothing else changes |
| PairingTimers.SubmitIsLocal | src/portal/pairing.rs:417-1073 | a submission touches no flow but its own; a wait gets a fresh epoch and exactly its timer; leases and downlinks go out only with a pair |
| PairingTimers.StaleTimerDoesNothing | src/portal/pairing.rs:1075-1127 | a timer whose flow does not wait, or waits under another epoch, changes nothing |
| PairingTimers.TimerEndsItsWait | src/portal/pairing.rs:1075-1127 | a timer ends exactly the wait whose kind, key and epoch it carries, and leaves every other half-open flow and its claim as it is |
| PairingTimers.OldTimersAreHarmless | src/portal/pairing.rs:1075-1127 | over whole runs, a timer whose wait is over never matches a later wait of the same flow |
| PairingEndings.CloseExactly | src/portal/pairing.rs:1129-1146 | CLOSE cancels exactly the token of a running flow, takes a half-open UDP flow with its claim and returns its permit, takes the claim of a half-open TCP flow, and does nothing to an unknown one |
| PairingEndings.RefusedGivesUp | src/portal/pairing.rs:275-323 | activation is refused exactly when a generation was replaced or the claim is gone; then the claim is given up, the downlink told once and the permit returned, and nothing else changes |
| PairingEndings.ShutdownStopsAll | src/portal/pairing.rs:1189-1238 | after shutdown no flow runs uncancelled and none waits; running flows keep their claims |
| PairingSubmit.SubmitKeeps | src/portal/pairing.rs:417-1073 | one submission of any role, kind and carrier keeps the invariant, fails no `expect`, raises no internal error, and returns only coherent pairs (which outcome it has is in `TableDecides`) |
| PairingSubmit.JoinPair | src/portal/pairing.rs:577-687 | the second half of a waiting flow completes it: the entry goes, the claim runs with exactly the two halves' generations, and the lease holds the uplink's permit |
| PairingSubmit.JoinNew | src/portal/pairing.rs:577-704 | the first half claims the flow, is stored whole and waits under a fresh epoch |
| PairingSubmit.JoinDuplicate | src/portal/pairing.rs:623-649 | a second OPEN or ATTACH for a waiting flow is a conflict: it leaves the registry as it is, keeps its own permit in hand and asks for the whole flow to be given up |
| PairingSubmit.DuplexApart | src/portal/pairing.rs:796-820 | the claim a duplex submission finds is a running flow's or has other metadata, so it never joins a half-open flow |
| PairingSteps.RejectKeeps | src/portal/pairing.rs:366-411 | `reject_flow_setup` keeps the invariant for any key, known or not |
| PairingSteps.BuryFits | src/portal/pairing.rs:385-405 | the tombstone table never exceeds `max_pending`, whichever of the oldest is evicted |
| PairingSteps.ClearStaleKeeps | src/portal/pairing.rs:523-575 | clearing stale halves keeps the invariant and returns their permit |
| PairingOrder.ArrivalOrderDoesNotMatter | src/portal/pairing.rs:514-706 | with no event in between, OPEN then ATTACH and ATTACH then OPEN return the same flow and leave the same registry, for TCP and UDP |
| PairingOrder.LateAttachLearnsTheCode | src/portal/pairing.rs:349-361 | an ATTACH that finds a live tombstone is answered with the code of the failed OPEN, uses it up, and changes nothing else |
| PairingReplacement.ReplacementLeavesNothingStale | src/portal/pairing.rs:1199-1224 | when `register_quic_link` has displaced g, no half-open flow of the session refers to g, all other flows are untouched, every purged downlink got SessionReplaced, and exactly the running owners of g were cancelled |
| PairingReplacement.ReplacementLeavesTombstones | src/portal/pairing.rs:385-405 | with room for them, every purged flow without a downlink has its SessionReplaced tombstone when the replacement is done |
| PairingTombstones.KeepsAllIffRoom | src/portal/pairing.rs:385-405 | all those tombstones survive under every hash order if and only if there is at most one of them or room for all beside the tombstones made at that instant or later |
| PairingTombstones.LoseSome | src/portal/pairing.rs:394-403 | without that room some hash order loses one of them |
| PairingWitnesses.TombstoneCanBeLost | src/portal/pairing.rs:385-405 | for every limit of two or more there is a legal run from the empty registry after which replacing the carrier silences two flows and, in some hash order, leaves a tombstone for only one of them |
| PairingReplacement.NoSnapshotNoGeneration | src/portal/pairing.rs:596-608 | the QUIC generation of a waiting half always equals the entry's snapshot |
| Links.RegisterTcpKeepsInv | src/portal/pairing/link.rs:138-163 | counts equal live guards, entries exist exactly while they have a carrier, and the link statistics are the true numbers |
| Links.SwapQuicKeepsInv | src/portal/pairing/link.rs:171-190 | the same across a generation swap |
| Links.DropTcpKeepsInv | src/portal/pairing/link.rs:90-134 | the same across a TCP guard drop, and `saturating_sub` never saturates |
| Links.DropQuicKeepsInv | src/portal/pairing/link.rs:90-134 | the same across a QUIC guard drop, displaced or current |
| Links.RegisterTcpCounts | src/portal/pairing/link.rs:138-163 | one TCP carrier and guard more, the generation and every other session as before, a budget made with a new session |
| Links.DropTcpCounts | src/portal/pairing/link.rs:90-134 | one TCP carrier and guard fewer; the session goes exactly with its last carrier |
| Links.SwapQuicCounts | src/portal/pairing/link.rs:171-190 | the next generation becomes current, the one before it is reported, no other session changes |
| Links.DropQuicCounts | src/portal/pairing/link.rs:90-134 | the current generation's guard takes it away, any other leaves all carriers alone |
| Pairing.Victim | src/portal/pairing.rs:394-403 | the evicted tombstone is one of the oldest, and any of the oldest can be it |
| Pairing.NextKey | src/portal/pairing.rs:1199-1224 | a purge may visit its flows in any order |
| PairingRegistry.FindOldest | src/portal/pairing.rs:394-403 | the scan finds an oldest tombstone |
| PairingRegistry.PairingRegistry.constructor | src/portal/pairing.rs:99-111 | a new registry is empty and in order |
| PairingRegistry.PairingRegistry.Submit | src/portal/pairing.rs:417-1073 | `submit_tcp` and `submit_udp` compute the submission function, keep the invariant, never panic, return coherent pairs, and end exactly as the table says, telling whom it says |
| PairingRegistry.CountInactive | src/portal/pairing.rs:226-231 | the scan counts exactly the inactive claims of the session |
| PairingRegistry.PairingRegistry.ReserveClaim | src/portal/pairing.rs:193-250 | a grant leaves an inactive claim with that metadata and generation and touches no other; a claim is made exactly for a free key below the session's limit; the limit is kept |
| PairingRegistry.PairingRegistry.ActivateClaim | src/portal/pairing.rs:275-323 | refuses when some generation is not current or the claim is gone, otherwise marks the claim |
| PairingRegistry.Prune | src/portal/pairing.rs:349-361 | the scan takes out exactly the expired tombstones |
| PairingRegistry.PairingRegistry.AddTombstone | src/portal/pairing.rs:385-405 | prune, evict an oldest one from a full table, insert |
| PairingRegistry.PairingRegistry.RejectFlowSetup | src/portal/pairing.rs:366-411 | keeps the invariant |
| PairingRegistry.PairingRegistry.FireTimer | src/portal/pairing.rs:1075-1127 | a due timer ends its wait, a stale one changes nothing but the set of timers; the invariant is kept |
| PairingRegistry.PairingRegistry.CloseUdp | src/portal/pairing.rs:1129-1146 | cancels exactly the token of a running flow, takes a half-open UDP flow and its claim, leaves an unknown flow alone; the invariant survives exactly when no half-open TCP flow has the key |
| PairingRegistry.PairingRegistry.DropFlowLease | src/portal/pairing/state.rs:241-247 | finishes the flow of the lease and returns its permit |
| PairingRegistry.PairingRegistry.CancelOwners | src/portal/pairing.rs:1177-1187 | the loop over all claims cancels exactly the running owners of the generation |
| PairingRegistry.CollectStale | src/portal/pairing.rs:1199-1214 | the scan finds exactly the flows of the session opened under the generation |
| PairingRegistry.PairingRegistry.PurgeStale | src/portal/pairing.rs:1199-1224 | the loop rejects every stale flow of both maps once |
| PairingRegistry.PairingRegistry.Purge | src/portal/pairing.rs:1199-1224 | keeps the invariant |
| PairingRegistry.PairingRegistry.RegisterTcp | src/portal/pairing/link.rs:138-163 | keeps the invariant |
| PairingRegistry.PairingRegistry.RegisterQuic | src/portal/pairing/link.rs:165-207 | swap, cancel pass, purge, then the guard of a fresh generation, which is the current one |
| PairingRegistry.PairingRegistry.DropTcpGuard | src/portal/pairing/link.rs:90-134 | keeps the invariant |
| PairingRegistry.PairingRegistry.DropQuic | src/portal/pairing/link.rs:90-134 | a displaced guard leaves the table alone, the current one takes its link away; both run the cancel pass |
| PairingRegistry.Refund | src/portal/pairing.rs:1226-1228 | dropping the half-open flows one by one gives every budget as many units back as it has permits among them |
| PairingRegistry.CancelClaims | src/portal/pairing.rs:1189-1238 | the scan cancels every claim and keeps exactly the running ones |
| PairingRegistry.PairingRegistry.CancelEverything | src/portal/pairing.rs:1189-1238 | drops all half-open flows and tombstones and leaves no flow running uncancelled |
| Datagram.DecodeInvertsEncode | src/protocol/datagram.rs:228-308 | every valid frame decodes to itself |
| Datagram.EncodeInvertsDecode | src/protocol/datagram.rs:228-308 | every accepted DATAGRAM is valid and the one encoding of its frame |
| Datagram.PlanExists | src/protocol/datagram.rs:149-181 | a plan exists exactly for packets too long for one frame, within 65535 bytes and 255 fragments, with a limit above 13; the lower count check never fails |
| Datagram.FramesFitAndDecode | src/protocol/datagram.rs:196-217 | every frame of a plan fits the limit and decodes to its fragment |
| Datagram.PieceValid | src/protocol/datagram.rs:277-308 | every fragment leaves one byte for each of the others, so the decoder accepts it |
| Datagram.PiecesMakeThePacket | src/protocol/datagram.rs:196-217 | the fragments in index order are the packet |
| Datagram.UdpFragments.Next | src/protocol/datagram.rs:196-217 | the lazy iterator yields the frames in order and then stops |
| Datagram.EncodePacket | src/protocol/datagram.rs:127-146 | exactly when a packet can be sent at all, and that all frames fit and decode to it |
| Reassembly.PushKeeps | src/protocol/datagram.rs:501-627 | every fragment, valid or not, keeps the invariant; reserved bytes equal the sum of slot lengths within `max_bytes`, slots within `max_slots`; free budget plus slots plus what leaves with a packet is conserved; a complete packet has its announced length |
| Reassembly.OnePieceMore | src/protocol/datagram.rs:541-580 | received and retained count what the slot holds, and when the last piece comes none is missing |
| Reassembly.DropKeeps | src/protocol/datagram.rs:629-636 | removing a slot subtracts exactly its length: saturation never happens |
| Reassembly.RemoveFlowKeeps | src/protocol/datagram.rs:452-464 | takes all slots of the flow and no other, and returns their bytes |
| Reassembly.ClearKeeps | src/protocol/datagram.rs:467-471 | returns all bytes |
| Reassembly.ExpireIsScan | src/protocol/datagram.rs:473-497 | despite its cached deadline and early exit, `expire` removes precisely the slots older than the TTL, and reports whether there were any |
| Reassembly.ExpireKeeps | src/protocol/datagram.rs:473-497 | keeps the invariant, the cached deadline a lower bound that is absent exactly when there are no slots |
| Reassembly.Oldest | src/protocol/datagram.rs:585-594 | the evicted slot is one of the oldest, and any of them can be it |
| ReassemblyRuns.CompletePacketsAreSound | src/protocol/datagram.rs:529-580 | after every run, a completed packet has its announced length and is the index-order concatenation of payloads pushed for that flow, packet id, count and length since its slot opened |
| ReassemblyRuns.StepSlots | src/protocol/datagram.rs:529-627 | a slot that is there after a step was there before and is unchanged, or the step brought a fragment of its packet and added that piece or opened it |
| SlotLifetime.StaysIff | src/protocol/datagram.rs:473-627 | the exact condition, for every state and call, under which a slot outlives the call: it is not older than the TTL, it is not the one evicted for another packet, its flow and session are not closed, and a fragment of its own packet agrees with it and leaves a piece missing |
| SlotLifetime.OpensIff | src/protocol/datagram.rs:582-626 | a fragment without a live slot opens one exactly when there is a place in the table and a share of both byte limits for its packet |
| SlotLifetime.PushDecides | src/protocol/datagram.rs:501-627 | the exact answer to a fragment: which malformed, conflicting, overlong or unaffordable one is dropped for which reason, which completes, which is pending, and whether something expired or made room |
| ReassemblyRuns.SlotsAreSourced | src/protocol/datagram.rs:611-626 | every piece of every slot was pushed since that slot opened, for that packet, cut the same way |
| FragmentRoundTrip.RoundTrip | src/protocol/datagram.rs:501-627 | the fragments of any plan, in any order, with duplicates and any other calls in between: if the first is admitted and no call closes, outlasts or evicts the packet, the last missing one yields exactly the original payload if and only if it comes within the TTL of the first |
| FragmentRoundTrip.SurvivesIffKept | src/protocol/datagram.rs:473-627 | those conditions on calls, clock and limits hold if and only if one slot has held all that arrived ever since the first fragment |
| FragmentRoundTrip.FewPacketsSurvive | src/protocol/datagram.rs:585-594 | with no more packets about than slots, nothing is evicted: the clock and the closing calls alone decide |
| DatagramReassembler.DatagramReassembler.Push | src/protocol/datagram.rs:501-627 | `push_with` in place: computes the push function, keeps the invariant, conserves the budget |
| DatagramReassembler.DatagramReassembler.Expire | src/protocol/datagram.rs:473-497 | the cached form removes what a plain scan would |
| DatagramReassembler.DatagramReassembler.RemoveFlow | src/protocol/datagram.rs:452-464 | the summing loop and the retain |
| DatagramReassembler.DatagramReassembler.Clear | src/protocol/datagram.rs:467-471 | releases everything |
| DatagramReassembler.DatagramReassembler.PushNew | src/protocol/datagram.rs:582-626 | limits, eviction, reservation, new slot |
| DatagramReassembler.Glue | src/protocol/datagram.rs:568-574 | the loop concatenates all pieces, or finds one missing |
| DatagramReassembler.SumOf | src/protocol/datagram.rs:453-458 | the loop adds up exactly the given slots |
| DatagramReassembler.FindOldest | src/protocol/datagram.rs:585-594 | the scan finds an oldest slot |
| DatagramReassembler.FindStale | src/protocol/datagram.rs:483-489 | the scan finds exactly the slots older than the TTL |
| DatagramReassembler.NextDeadline | src/protocol/datagram.rs:491-495 | the deadline of an oldest slot, absent exactly when there is none |
| DatagramReassembler.Budget.TryAcquire | src/common/datagram.rs:36-42 | takes the length, at least one unit, or nothing |
| SessionRuns.ReadyGating | src/portal/conn/session_datagram.rs:64-180 | after every run, a packet waits only at an instance whose READY was written; it is one DATA frame or a reassembled packet of that flow, made from DATAGRAMs consumed after the acknowledgement of the instance's drain; every slot belongs to an installed, ready flow |
| SessionDelivery.DataDelivers | src/portal/conn/session_datagram.rs:118-200 | a DATA frame is queued whole, behind what waits, exactly when its route is open, its receiver alive, its queue below 64 and the budget has room; otherwise no queue changes and no unit is lost |
| SessionDelivery.FragmentDelivers | src/portal/conn/session_datagram.rs:139-200 | a completed packet is queued exactly when it is deliverable, and gives its units back otherwise; a fragment of a flow that is not open changes nothing |
| SessionDelivery.FragmentsArrive | src/portal/conn/session_datagram.rs:139-200 | the whole way of a fragmented packet, at the portal and at the vector: in any order, with duplicates and anything in between, the last missing piece in time queues exactly the original payload for the flow's receiver |
| SessionDelivery.ReceiveTakesFirst | src/portal/pairing/state.rs:124-126 | receiving takes the packet that waited longest, returns its units, and touches no other queue |
| SessionDelivery.CloseEmpties | src/portal/conn/session.rs:335-352 | after close the session is closed, without routes, raised flags of its routes and partial packets; queues stay for their receivers |
| SessionDelivery.RemoveTakesItsFlow | src/portal/conn/session.rs:313-326 | route, flag and partial packets of the flow go, and those of no other |
| SessionDelivery.TickTakesStale | src/portal/conn/session_datagram.rs:31-44 | a clean-up tick takes exactly the partial packets older than the TTL |
| SessionDelivery.VectorDataDelivers | src/vector/session.rs:518-534 | the vector queues a DATA frame under the same exact condition |
| SessionDelivery.VectorFragmentDelivers | src/vector/session.rs:536-564 | and a completed packet likewise |
| SessionDelivery.AbandonTakesQueue | src/vector/session.rs:454-469 | a receiver that goes takes its queue and returns its units; its route stays until a packet finds it gone |
| SessionRuns.BudgetIsConserved | src/portal/conn/session_datagram.rs:118-180 | after every run, free budget plus slot reservations plus queued packets, at least one unit each, equal the configured budget |
| SessionRuns.ClosedIsEmpty | src/portal/conn/session.rs:335-352 | a closed session has neither flows nor partial packets, after every run |
| SessionRuns.ClosedStaysClosed | src/portal/conn/session.rs:275-352 | nothing reopens a closed session |
| SessionRuns.ActKeeps | src/portal/conn/session_datagram.rs:64-200 | every step keeps the session invariant |
| SessionRuns.DropTakesOnlyItsOwn | src/portal/conn/session.rs:296-310 | dropping a receiver spares the routes, READY flags and partial packets of all other instances if and only if its flow id is not installed for another one; their queues it always spares |
| SessionRuns.LateDropTakesNewRoute | src/portal/conn/session.rs:296-310 | a run in which it takes a newer route |
| PortalSession.PortalSession.InstallUdpUplink | src/portal/conn/session.rs:275-311 | succeeds exactly when open and the id is free, with a new instance |
| PortalSession.PortalSession.RemoveUdpUplink | src/portal/conn/session.rs:313-326 | flow, flag and slots go together |
| PortalSession.PortalSession.Close | src/portal/conn/session.rs:335-352 | leaves a closed session without routes and partial packets, with its queues, and keeps the invariant |
| PortalSession.PortalSession.HandleUnfragmentedUdp | src/portal/conn/session_datagram.rs:118-137 | queues exactly the payload when installed, ready, with a live receiver, below 64 packets and within budget; otherwise changes no queue |
| PortalSession.PortalSession.HandleUdpFragment | src/portal/conn/session_datagram.rs:139-180 | pushes only for installed, ready flows and queues exactly what completes and is deliverable |
| PortalSession.PortalSession.HandleDatagram | src/portal/conn/session_datagram.rs:103-116 | consumes exactly the decoded frame, or nothing |
| PortalSession.PortalSession.CommitUdpReady | src/portal/conn/session_datagram.rs:64-101 | the drain loop consumes every DATAGRAM it meets, raises no flag, and acknowledges if and only if it sees the queue empty before anything stops or breaks it |
| PortalSession.PortalSession.SetUpRelay | src/portal/conn/relay_uot.rs:42-88 | exactly one setup result is begun, the one each fate leads to, and the route opens if and only if it is READY and was written, after an acknowledged drain |
| PortalSession.PortalSession.CommitAndActivate | src/portal/pairing/state.rs:118-122 | READY and the flag |
| PortalSession.PortalSession.Recv | src/portal/pairing/state.rs:124-126 | takes the first packet and returns its units |
| PortalSession.PortalSession.DropReceiver | src/portal/pairing/state.rs:133-139 | removes the flow id, then lets the queue go |
| VectorRoutes.ReadyGating | src/vector/session.rs:518-564 | after every run of the vector's session, a packet waits only at an instance whose route was activated, made from DATAGRAMs of that flow consumed since then, and every partial packet belongs to a ready route |
| VectorRoutes.OnlyActivationOpens | src/vector/session.rs:471-478 | a route becomes ready only by `activate_udp` of its own flow |
| VectorRoutes.BudgetIsConserved | src/vector/session.rs:518-564 | after every run, free budget plus slot reservations plus queued packets equal what the session may hold |
| VectorRoutes.DataSweepsIff | src/vector/session.rs:518-534 | a DATA frame takes a route away if and only if it is ready, the budget has room and its receiver is gone; then no partial packet of the flow is left, nothing is queued, and no other route is touched |
| VectorRoutes.FragmentSweepsIff | src/vector/session.rs:536-564 | the same for a fragment, exactly when it completes a packet |
| VectorRoutes.TurnKeeps | src/vector/session.rs:454-564 | every call keeps the session invariant |
| VectorSession.QuicSession.RegisterUdp | src/vector/session.rs:454-469 | succeeds exactly when the flow has no route; the new one is not ready |
| VectorSession.QuicSession.ActivateUdp | src/vector/session.rs:471-478 | succeeds exactly when the route is still there |
| VectorSession.QuicSession.RemoveUdp | src/vector/session.rs:480-488 | leaves neither route nor partial packet of the flow |
| VectorSession.QuicSession.ClearUdp | src/vector/session.rs:490-498 | leaves no route and no partial packet |
| VectorSession.QuicSession.ReceiveData | src/vector/session.rs:518-534 | in place, with the closed sender as a branch of its own: queues exactly the payload when deliverable and within budget, and the flow vanishes exactly when its receiver is gone and the packet got that far |
| VectorSession.QuicSession.ReceiveFragment | src/vector/session.rs:536-564 | in place: queues exactly what completes and is deliverable, keeping the invariant |
| VectorSession.QuicSession.DatagramLoop | src/vector/session.rs:567-598 | handles every wake-up up to the first stop in order, each decoded frame once, then leaves the session empty |
| PacketSender.PacketSender.SendPacket | src/common/datagram.rs:46-86 | the result is what the connection's limits and replies make of the packet in two rounds; at most two plans of the same payload under consecutive fresh identifiers, only the last complete; on the wire are exactly their sent frames and the DATA frame |
| PacketSender.SentIff | src/common/datagram.rs:52-85 | a packet is sent if and only if its first round is accepted whole, or ends in TooLarge and its second one is accepted whole |
| PacketSender.DriveStops | src/common/datagram.rs:69-79 | the first refusal decides a round, and the replies after it are left for the next |
| PacketSender.PacketSender.TakePacketId | src/common/datagram.rs:88-92 | the next nonzero identifier of the cycle |
| PacketSender.PacketSender.SendPlan | src/common/datagram.rs:69-79 | sends a prefix of the plan's frames, all of them exactly when none is refused |
| IdCycle.IdsAreDistinct | src/common/datagram.rs:88-92 | any 2^32 - 1 consecutive identifiers are nonzero and distinct |
| RetryDelivery.CompletesUnchanged | src/common/datagram.rs:44-86 | whatever is reordered, lost or duplicated, what completes is the payload of a plan that was sent whole |
| RetryDelivery.AbandonedNeverCompletes | src/common/datagram.rs:69-86 | an abandoned plan never completes, even when frames are duplicated |
| RetryDelivery.CompletesOnce | src/common/datagram.rs:44-86 | when no frame arrives twice, no identifier completes twice |
| RetryDelivery.PacketArrivesOnce | src/common/datagram.rs:44-86 | of all the plans one `send` made for a packet, under whatever identifiers, at most one completes, once, in the whole run |
| Uot.ReadAllInvertsStream | src/protocol/uot.rs:24-30 | concatenated packets are read back one by one and end cleanly |
| Uot.OneBehind | src/protocol/uot.rs:55-81 | what was read, framed again, is what was consumed |
| Uot.ReadUdpPacketInto | src/protocol/uot.rs:55-81 | the one-shot reader over any chunking computes the framing function |
| Uot.UotReadState.ReadPacket | src/vector/udp_flow.rs:250-289 | a cancelled call loses no byte; any other outcome is the one-shot reader's on everything not delivered yet |
| Uot.ReadEverything | src/vector/udp_flow.rs:239-290 | for every stream, chunking and set of cancellation points, exactly the packets and the end of the one-shot reader |
| FlowId.FlowIdAllocator.Allocate | src/vector/flow_id.rs:30-50 | fails exactly at the limit or when all 2^32 - 1 identifiers are live; otherwise leases a nonzero identifier no live lease holds, across the wrap |
| FlowId.Exhausted | src/vector/flow_id.rs:35-49 | more probes than live identifiers have gone round the whole cycle |
| FlowId.FlowIdAllocator.Release | src/vector/flow_id.rs:52-57 | gives back exactly that identifier |
| RateBucket.GrantedWithinRate | src/transport/rate_bucket.rs:74-90 | the bytes of any stretch of calls are at most the capacity plus the rate over the time between the enclosing releases, plus a nanosecond a call; with capacity zero, the bare rate |
| RateBucket.RunBound | src/transport/rate_bucket.rs:74-140 | everything granted came out of the budget or off the clock |
| RateBucket.ReleaseIsTheClock | src/transport/rate_bucket.rs:74-90 | release times are the bucket's clock and never decrease |
| RateBucket.BackloggedRunsAtTheRate | src/transport/rate_bucket.rs:74-90 | while every caller comes before the previous release, any bucket grants at least what the rate earns over the time it takes, but for a nanosecond a call: with `RunBound`, the law from both sides |
| RateBucket.NoDelayIff | src/transport/rate_bucket.rs:74-90 | a reservation has no delay if and only if the bytes fit what is left and earned |
| RateBucket.NoUndueDelay | src/transport/rate_bucket.rs:74-90 | a delay is for what is missing beyond the refilled budget, and not a nanosecond more |
| RateBucket.BurstComesBack | src/transport/rate_bucket.rs:74-139 | after any run, a bucket idle for the time of its capacity grants all of it at once |
| RateBucket.DurationBounds | src/transport/rate_bucket.rs:146-154 | the delay earns the missing bytes to within a nanosecond's worth, both ways |
| RateBucket.TokenBucket.ReserveBytes | src/transport/rate_bucket.rs:74-90 | no delay exactly when the bytes fit what is left and earned; what it grants comes out of the budget or off the clock, the clock is never behind the caller, and a delay ends exactly at the clock with nothing left |
| RateBucket.RefillExact | src/transport/rate_bucket.rs:127-139 | a refill earns every whole byte of the rate over the time that passed, up to the capacity, and no more; a bucket without capacity earns none |
| RateBucket.TokenBucket.Spend | src/transport/rate_bucket.rs:61-68 | what is left and what was spent, debts included, is exactly what there was and what the time earned |
| RateBucket.TokenBucket.Configure | src/transport/rate_bucket.rs:43-51 | the budget is exactly what was left and earned at the old rate, clipped to the new capacity; the clock never goes back |
| TargetCodec.DecodeInvertsEncode | src/protocol/request.rs:147-236 | decoding inverts encoding whatever follows |
| TargetCodec.EncodeInvertsDecode | src/protocol/request.rs:186-236 | an accepted prefix is the canonical encoding of its target |
| TargetCodec.PrefixFree | src/protocol/request.rs:147-176 | no encoding is a proper prefix of another |
| TargetCodec.StreamAgreesWithSlice | src/protocol/request.rs:238-290 | the streaming reader accepts the same inputs, yields the same target and consumes the same count |
| TargetCodec.EncodeInto | src/protocol/request.rs:147-176 | writes exactly the encoding into the caller's buffer and nothing past it, or fails when it does not fit |
| TargetCodec.LabelsDecideNameRule | src/protocol/util.rs:43-65 | splitting a name and checking its labels decides the rule on its neighbouring bytes |
| Flow.DecodeInvertsEncode | src/protocol/flow.rs:99-118 | every valid header decodes to itself |
| Flow.EncodeInvertsDecode | src/protocol/flow.rs:121-162 | every accepted header is valid, so a split flow has exactly one QUIC half, and is the only encoding of its value |

## Left out

- PairingTheorems.Bookkeeping: treats each public call as one step; calls that take their locks one after another may interleave more finely, which only the barrier lemmas cover.
- PairingTheorems.PairsAreCoherent: assumes decoded headers and that each submission brings a downlink of its own, as the stream handlers guarantee.
- PairingRuns.StepKeeps: assumes that CLOSE names no half-open TCP flow and that handlers never reject with InternalError; `CloseKeepsIffNotTcp` says what happens otherwise in the first case.
- RateBucket.GrantedWithinRate: integer arithmetic rounded down stands for the source's `f64`; `i64` overflow is not modelled.
- PairingTombstones.KeepsAllIffRoom: reads one clock value for the whole purge, where the source reads it in every rejection.
- VectorRoutes.ReadyGating: activation is the model's step; that it follows the READY the vector reads is the order of `open_udp`.
- VectorSession.QuicSession.DatagramLoop: other tasks' calls between two wake-ups are in the runs of `VectorRoutes`, not in this method.
- RetryDelivery.CompletesOnce: speaks of one cycle of 2^32 - 1 identifiers; after that the reassembly TTL is what separates reuses.
- Uot.ReadEverything: read errors of the transport other than its end are not modelled.
- FragmentRoundTrip.RoundTrip: frames enter as decoded fragments; `FramesFitAndDecode` supplies the bytes.
- Integer widths of epochs, generations, sizes and times are unbounded; `u8`, `u16` and `u32` wire fields and the wrapping `u32` counters are exact.
- Tokio scheduling, mutex blocking and lock order, and destructors inside held sections: guard, lease and receiver drops are steps of their own.
- Stream I/O, TLS, QUIC, DNS and dialling: a stream is an identity, a write a record.
- The relay loops after setup, rate-limiter facade, idle timers and `delay_until_available`: plumbing around what is modelled.
- Authentication (`src/protocol/auth.rs`), admission, result codes on the wire, buffers and statistics other than the link counts: cryptography or easy counters.
- SOCKS5, URL, environment and command-line parsing, logging and telemetry.
- Error messages, `Display` and `FromStr` of targets, and IPv6 flow info and scope ids.
