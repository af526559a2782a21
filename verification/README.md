# DPUmesh: a verified model of its protocol core

DPUmesh moves Pod traffic through a DPU: workers on the DPU land bytes from Pods
in staging memory, map them without copying onto scatter-gather DMA, hand
completions back through rings in host memory, and protect traffic between nodes
with hardware security associations that two node managers negotiate, rekey and
revoke. This project models the parts of that where many small updates have to
add up, and proves what they add up to, for every input, every interleaving and
every run.

`dafny verify dfyconfig.toml` checks the project.

## How it is laid out

| subject | files |
|---|---|
| Pod-pair association registry | `Association`, `RegistryInvariants`, `RegistryLife`, `Registry` |
| two registries, one wire: live rekey | `PeerRekey`, `PeerRekeyRuns`, `PeerRekeyTold`, `PeerRekeyProgress` |
| a connection's byte window and custody | `StreamWindow`, `StreamCustody`, `StreamRuns`, `StreamDelivery`, `Connection` |
| tearing a slot down across workers | `Teardown`, `TeardownRuns`, `TeardownFence`, `TeardownProgress`, `TeardownBelated`, `TeardownReuse` |
| life of the Pod slots | `SlotLifecycle`, `SlotRuns`, `SlotTenancy`, `SlotMixups`, `SlotForward`, `SlotIds`, `SlotOvertaking`, `SlotRemoval`, `SlotRecycling`, `SlotReclaim`, `SlotCounterexamples`, `SlotTable` |
| egress lanes | `LaneAdmission`, `LaneRuns`, `SubmitLane`, `LaneInbox` |
| reverse completion ring | `ReverseRing`, `ReversePublisher` |
| bounded queue of many producers | `MpscQueue` |
| connection tracking | `ProbeTable`, `Conntrack` |
| control session between nodes | `ControlSession`, `ControlWire`, `ControlEnd` |
| crypto owner's wire and adapter | `IpcCodec`, `IpcCursor`, `IpcStream`, `CryptoAdapter`, `CryptoTable` |
| shared types, arithmetic and rings | `Wrappers`, `Modular`, `RingBuffer` |

Where the code is one thread updating a structure, there is a class (or a method
with loops) that updates the same structure in the same order, and its contract
says it does exactly what a function on values says; theorems are about those
functions over whole runs. Where the code is several threads, it is a state
machine whose steps are the individual atomic loads and stores, so any of them
may be overtaken anywhere. In the life of the Pod slots that is true of the
workers, which read a slot field by field; there one operation of the control
thread on a slot is one step.

Clocks, randomness, key derivation, TLS, DMA outcomes, execution-unit answers and
callbacks into code outside the model are parameters: every value they could take
is covered. Counters the code keeps in 64 bits, and the 32-bit generation of a
slot, are unbounded here; the 16-bit
sequence numbers, the 24-bit queue pair numbers on the wire, the 32-bit scan
cursor and the saturating deadlines are kept as they are.

## Promises that need a condition

Each fails for some input or start the code admits. The failure is shown, and the
promise is proved to hold exactly under a condition that can be checked
beforehand.

- *Landing is safe* needs every unit to fit one scatter-gather list. Behind a
  dropped over-wide unit the next one is taken without an admission check of its
  own; `LaneRuns.WideHeadBreaksLanding` shows it landing past the stripe, and
  `LaneRuns.SubmitRespectsLimits` says exactly when a turn respects the limits.
- *A slot is ready only on its own acknowledgements.* A handler reads the
  generation before the expected mask, so a setup between the two lets an old
  acknowledgement stand for the new rings; and a registrant that names its own id
  can be mistaken for an earlier user of it. `SlotCounterexamples` has a run from
  empty slots for each. `SlotMixups.MasksAreOwnIff` is exact for every id: whatever
  happens next, a tenancy records only its own if and only if no handler holds a
  foreign acknowledgement that passes the tests and no other slot sends, or is
  about to send, under its id and generation while the index leads to it.
  `SlotOvertaking.OwnMasksIff` says the same of a whole run with assigned ids.
- *A slot is reclaimed only on its own removal acknowledgements.* A handler
  matches a slot in cleanup and looks at its expected units later, without looking
  at the generation again; the worker barrier does not wait for it. A repeated
  acknowledgement, matched before the slot is reclaimed and recorded once the next
  tenancy is in cleanup, then stands for a removal nobody has made
  (`SlotCounterexamples.OvertakenRemoval`). With assigned ids
  `SlotReclaim.OwnDelsIff` is exact, and `SlotReclaim.ReclaimIsEarned` holds under
  that condition. For any ids `SlotRecycling.DelsAreOwnIff` is exact: another slot
  may also have rings removed under the same id and generation, now or after being
  used again any number of times, and its acknowledgement goes to the first slot
  that matches.
- *Stale forward completions never reach a later tenancy* holds in every run with
  assigned ids, wherever the control thread comes between a worker's reads
  (`SlotIds.ForwardIsCurrent`). With ids of the registrant's choice it fails
  (`SlotCounterexamples.BorrowedForward`), and `SlotForward.TakenIsOwnIff` is exact.
- *A registered slot is found under its id.* A slot that leaves clears the index
  entry of its id even when another slot has registered under it meanwhile, and a
  third can then register under it too (`SlotCounterexamples.IdHeldTwice`).
  `SlotIds.IndexIsExactIff` is exact.
- *A slot found ready for reclaim is one nothing names.* A worker that saw an
  earlier cleanup pending but has not looked for its producer bit yet may set it
  in a later cleanup while it can still publish. `TeardownBelated.LateAtReclaim`
  has a slot reclaimed around such a worker, and `TeardownBelated.ReclaimIsSafeIff`
  is exact for the next cleanup of it, for two workers or more;
  `TeardownReuse.SecondTenancyFails` joins the two into one execution.
- *A fenced bit stands for drained lanes* exactly if no worker had decided to set
  its own when the fenced bits were zeroed (`TeardownFence.FenceMeansDrainedIff`).
  The barrier does not rely on it.
- *Every accepted crypto request completes.* Submission only looks for a free
  table slot, so a request can be accepted for which the completion queue has no
  room (`CryptoAdapter.AcceptedAndForgotten`). `CryptoAdapter.OneCompletionEachIff`
  is exact over whole runs.

A request also survives its encoding exactly when its queue pair numbers fit 24
bits (`IpcCodec.RequestSurvives`); the field on the wire is three bytes wide. A
completion survives exactly when its action is a known one
(`IpcCodec.CompletionSurvives`); the encoder does not check it and writes two
bytes of it.

## Model

| member | source | states |
|---|---|---|
| `Registry.PeerAssociations.constructor` | doca/peer_association.c:61-74 | A new registry is the empty one: no pair, no reservation, cursors at zero. |
| `Registry.PeerAssociations.FindSlot` | doca/peer_association.c:32-37 | Finds the used slot a token names, by manager, slot and generation together, and none otherwise. |
| `Registry.PeerAssociations.RevokeSlot` | doca/peer_association.c:143-151 | Revoking one slot in place marks it, announces it once and moves an idle pair to BLOCK; no other slot changes. |
| `Registry.PeerAssociations.TickAll` | doca/peer_association.c:164-176 | The loop over all slots revokes exactly those whose deadlines passed, whose TLS failed, or all when the clock ran backwards. |
| `Registry.PeerAssociations.ScanTurn` | doca/peer_association.c:211-235 | One turn of the issue loop: advance the cursor, skip busy slots, issue at most one numbered operation or quarantine when numbers run out. |
| `Registry.PeerAssociations.NextRequest` | doca/peer_association.c:211-235 | Issues the first request a whole round-robin scan finds, and leaves the registry as the scan leaves it. |
| `Registry.PeerAssociations.CompleteRequest` | doca/peer_association.c:236-270 | A completion report moves exactly the pair with that outstanding operation, by phase and status; anything else is stale. |
| `Registry.PeerAssociations.PollEvent` | doca/peer_association.c:271-280 | Offers one pending notification, round robin, without consuming it. |
| `Registry.PeerAssociations.MarkSent` | doca/peer_association.c:281-288 | Consumes a notification only if it is still exactly the one pending. |
| `Registry.PeerAssociations.Hear` | doca/peer_association.c:289-315 | Applies a peer's signal only in the right phase, epoch and digest order. |
| `Registry.PeerAssociations.Admit` | doca/peer_association.c:316-325 | Admits application data only for a live pair past the peer's ACTIVE_ACK of the current epoch. |
| `Registry.PeerAssociations.IsSpiBusy` | doca/peer_association.c:83-92 | Answers whether any used slot holds a local receive SPI, current or retiring. |
| `Registry.PeerAssociations.StartRekey` | doca/peer_association.c:362-377 | Starts a rekey only from ACTIVE with room for two more SAs and a free SPI; the old epoch is retained. |
| `Registry.PeerAssociations.RevokeToken` | doca/peer_association.c:378-379 | Revokes the pair a token names. |
| `Registry.PeerAssociations.ReleaseToken` | doca/peer_association.c:380-386 | Frees a DEAD pair's slot and gives all its reservations back; refuses any other. |
| `Registry.PeerAssociations.RenewLease` | doca/peer_association.c:387-394 | Renews one lease only with a newer generation and a later deadline; cannot revive an expired or revoked pair. |
| `Registry.PeerAssociations.CheckLanes` | doca/peer_association.c:117-123 | Accepts a lane list exactly if each lane is valid, ids strictly increase and no two share a local worker or queue pair. |
| `Registry.PeerAssociations.ShareQpn` | doca/peer_association.c:128-130 | Answers whether two lane lists share a local queue pair number. |
| `Registry.PeerAssociations.ScanSlots` | doca/peer_association.c:124-131 | Finds the first free slot, or that a used one clashes in association id, Pod pair or local queue pairs. |
| `Registry.PeerAssociations.OpenPair` | doca/peer_association.c:101-142 | Opens a pair exactly when limits allow and nothing clashes, in phase RX, reserving its lanes and SAs. |
| `RegistryInvariants.OpenKeeps` | doca/peer_association.c:101-142 | Opening a pair keeps counts equal to the sums over slots, limits, and exclusivity of ids, SPIs, queue pairs and Pod pairs. |
| `RegistryInvariants.TickKeeps` | doca/peer_association.c:164-176 | Time passing and the revocations it causes keep them. |
| `RegistryInvariants.ScanOneKeeps` | doca/peer_association.c:211-235 | Issuing an operation keeps them. |
| `RegistryInvariants.CompleteKeeps` | doca/peer_association.c:236-270 | Completing an operation keeps them, including giving two SAs back with the old epoch. |
| `RegistryInvariants.SignalStepKeeps` | doca/peer_association.c:289-315 | A peer's signal keeps them. |
| `RegistryInvariants.RekeyKeeps` | doca/peer_association.c:362-377 | Starting a rekey keeps them. |
| `RegistryInvariants.ReleaseKeeps` | doca/peer_association.c:380-386 | Releasing a pair keeps them. |
| `RegistryInvariants.RenewKeeps` | doca/peer_association.c:387-394 | Renewing a lease keeps them. |
| `RegistryInvariants.ApplyKeeps` | doca/peer_association.c:83-394 | Every call of the registry keeps them. |
| `RegistryInvariants.ReachableRegistry` | doca/peer_association.c:83-386 | After any sequence of calls: pair, lane, SA and quarantine counts equal the sums over used slots and respect the limits; four SAs are reserved exactly while an old epoch is retained; live pairs share no id, Pod pair, local SPI or local queue pair. |
| `RegistryLife.ApplyFollows` | doca/peer_association.c:143-394 | Seen from one slot, every call either leaves the pair, moves it along the allowed phases, or releases it from DEAD. |
| `RegistryLife.ApplyToken` | doca/peer_association.c:143-394 | The same seen from a token, across slot reuse. |
| `RegistryLife.NeverAdmits` | doca/peer_association.c:316-325 | A revoked or unknown token is neither admitted nor renewed at any time. |
| `RegistryLife.RevocationIsFinal` | doca/peer_association.c:38-43 | Once revoking, whatever calls follow, the token names nothing or a revoked pair, so it is never admitted or renewed again. |
| `RegistryLife.QuarantineCause` | doca/peer_association.c:218-249 | A pair turns QUARANTINED only by an accepted report that leaves the hardware state unknown, and always by one, or by an issue once operation numbers have run out. |
| `RegistryLife.FourCompletions` | doca/peer_association.c:143-270 | A revoked pair whose accepted reports are successes is never quarantined unless operation numbers run out; it has as many completions left as it had less those accepted since, at most four, and is DEAD, or released after that, exactly when all are done. |
| `RegistryLife.StaysAway` | doca/peer_association.c:380-386 | A released token never names a pair again. |
| `RegistryLife.QuarantineIsFinal` | doca/peer_association.c:236-270 | A quarantined pair stays quarantined and keeps every reservation for the rest of the run. |
| `RegistryLife.DeadThroughTeardown` | doca/peer_association.c:261-269 | In any run, what a pair's phase claims about its teardown was earned by successful completions in order. |
| `RegistryLife.TeardownOrder` | doca/peer_association.c:264-266 | A DEAD pair's last three successful operations were BLOCK, DESTROY_QPS and REMOVE_ALL, in that order. |
| `RegistryLife.StaleCompletion` | doca/peer_association.c:236-246 | A completion is refused exactly when it matches no outstanding operation, and then only time passes. |
| `RegistryLife.DuplicateIsStale` | doca/peer_association.c:242-248 | Reporting the same request twice: the second report is stale whatever its status. |
| `PeerRekey.IssueOk` | doca/peer_association.c:177-208 | An operation is issued only when what it relies on at both ends is already complete. |
| `PeerRekey.SignalOk` | doca/peer_association.c:289-315 | A signal is believed only if the peer really completed what it reports, under the same identifiers and epoch. |
| `PeerRekey.RekeyOk` | doca/peer_association.c:362-377 | Starting a rekey keeps every obligation of the old epoch. |
| `PeerRekeyRuns.StepKeeps` | doca/peer_association.c:177-315 | Every step of either end or of the wire keeps the two-ended invariant. |
| `PeerRekeyRuns.SideReceives` | doca/peer_association.c:289-315 | If one end's active epoch is e, the other still has its receive association for e installed, unless it has begun revoking. |
| `PeerRekeyRuns.RekeyIsSafe` | doca/peer_association.c:177-377 | For every run of two registries with arbitrary message delay, loss and repetition, completions, rekeys and revocations: both ends receive what the other sends; INSTALL_TX only after the peer's INSTALL_RX and, in a rekey, after both ends quiesced; RESUME only after both installed TX; data only after both resumed; the old epoch goes only after both resumed the new one. |
| `PeerRekeyTold.StepTold` | doca/peer_association.c:211-315 | Every step keeps that what either end has completed of a rekey is on the wire or is its next event, if events are reported sent only once read. |
| `PeerRekeyTold.ReachableTold` | doca/peer_association.c:271-315 | So it is in every state of every such run. |
| `PeerRekeyProgress.GapTurn` | doca/peer_association.c:215-216 | The 32-bit round-robin cursor comes nearer any slot with every turn, across its wrap-around as well, and is less than two rounds away. |
| `PeerRekeyProgress.Climbs` | doca/peer_association.c:177-315 | The end of a rekey that is not ahead can always take its next stage: hear the signal it waits for, issue, complete and report the operation. |
| `PeerRekeyProgress.RekeyCompletes` | doca/peer_association.c:177-377 | From any state of such a run with both ends in the same rekey, nothing revoked, leases and deadlines running and operation ids left, some continuation takes both ends to the new epoch and lets both admit application data, whatever else the two registries hold. |
| `StreamWindow.ViewBounds` | doca/dpu_proxy.c:1157-1174 | While bytes are unparsed, the contiguous run at the cursor is non-empty and never reaches past the window. |
| `StreamWindow.GatherMaps` | doca/dpu_proxy.c:1910-1954 | Mapping a range yields pieces that cover it exactly, in order, at the matching staging offsets, with each extent's share equal to its overlap. |
| `Connection.LookAt` | doca/dpu_proxy.c:1157-1174 | The two loops return exactly the bytes of the staging run at the cursor. |
| `Connection.Seek` | doca/dpu_proxy.c:1911-1913 | The walk stops at the extent that holds the position. |
| `Connection.MapRange` | doca/dpu_proxy.c:1914-1954 | The mapping loop yields exactly those pieces; the branch for a range past the window is unreachable. |
| `Connection.ClaimAll` | doca/dpu_proxy.c:1955-1956 | Each extent's round claim grows by exactly the bytes its pieces took. |
| `Connection.Conn.constructor` | doca/dpu_proxy.c:1034-1061 | A fresh connection: empty window, nothing received. |
| `Connection.Conn.CoverAll` | doca/dpu_proxy.c:1182-1194 | The first loop of the advance performs the model's covering steps: drops what nobody claimed and moves the cursor. |
| `Connection.Conn.UnlinkAll` | doca/dpu_proxy.c:1195-1202 | The second loop performs the unlinking steps, up to the first extent not fully parsed. |
| `Connection.Conn.Ship` | doca/dpu_proxy.c:1897-1961 | Building and numbering one unit performs the model's ship step on the whole connection state. |
| `Connection.Conn.Parse` | doca/dpu_proxy.c:2075-2096 | The parse loop is a run of model steps that ends with everything parsed or the pool dry. |
| `Connection.Conn.QueueEof` | doca/dpu_proxy.c:1224-1248 | An end-of-stream unit takes the next delivery number and no bytes. |
| `Connection.Conn.Accept` | doca/dpu_proxy.c:4343-4431 | A completion is ignored as a duplicate, extends an untouched tail, or appends an extent, exactly as the model says. |
| `StreamRuns.WorkKeeps` | doca/dpu_proxy.c:1179-1202 | Every atomic step of the advance keeps custody exact, even with retirements in between. |
| `StreamRuns.ReceiveKeeps` | doca/dpu_proxy.c:4268-4287 | Receiving, coalescing or not, keeps it. |
| `StreamRuns.ShipKeeps` | doca/dpu_proxy.c:1897-1982 | Shipping keeps it. |
| `StreamRuns.RefuseKeeps` | doca/dpu_proxy.c:1211-1218 | Poisoning the connection and dropping its window keeps it. |
| `StreamRuns.RetireKeeps` | doca/dpu_proxy.c:1005-1017 | An egress worker letting go of a piece, at any moment, keeps it. |
| `StreamRuns.StepKeeps` | doca/dpu_proxy.c:982-1218 | Every step keeps the whole invariant: counter equals window reference plus unparsed bytes less claimed bytes plus bytes held by pieces; pieces tile the stream; units divide the pieces; held staging is intact; acknowledgement runs are exact. |
| `StreamRuns.ReleasedExactly` | doca/dpu_proxy.c:1002-1010 | A custody counter is never negative and is zero exactly when the window has let go and no piece reads the extent. |
| `StreamDelivery.ReleasedOnce` | doca/dpu_proxy.c:982-1010 | In any run no extent is released twice, and never while linked or read. |
| `StreamDelivery.AllReleased` | doca/dpu_proxy.c:1179-1202 | Once everything is parsed and retired every extent has been released: nothing leaks. |
| `StreamDelivery.AcksAreExact` | doca/dpu_proxy.c:5047-5050 | The acknowledgement runs of the extents, in order, are exactly the accepted completions, and each count fits its 16-bit field. |
| `StreamDelivery.FetchIsStream` | doca/dpu_proxy.c:1934-1939 | While a piece is in flight its staging holds its bytes of the stream, given that senders reuse staging only after release. |
| `StreamDelivery.StreamDelivered` | doca/dpu_proxy.c:2059-2096 | The bytes all units' DMA read, in shipping order and whenever each read happened, are exactly a prefix of the received stream, up to the parse position if the connection was not refused. |
| `StreamDelivery.UnitsDivideStream` | doca/dpu_proxy.c:1955-1961 | Each unit's stated length is the sum of its pieces, units follow one another, only end-of-stream units are empty, and delivery numbers are consecutive modulo 2^16. |
| `TeardownRuns.PushKeeps` | doca/dpu_proxy.c:1439-1462 | A late publication into another worker's inbox cannot meet a worker that has seen every producer bit of this cleanup. |
| `TeardownRuns.TopKeeps` | doca/dpu_proxy.c:5376-5403 | The skip test and the samples at the start of a pass keep the invariant. |
| `TeardownRuns.DeadKeeps` | doca/dpu_proxy.c:5404-5432 | The lane half of a pass over a dead slot keeps it. |
| `TeardownRuns.FinishKeeps` | doca/dpu_proxy.c:5451-5499 | Joining the producers and publishing or withdrawing the quiesced and fenced bits keeps it, also for a pass older than the cleanup. |
| `TeardownRuns.ControlKeeps` | doca/comch_server.c:968-1000 | The control thread's stores, in their order, and its reclaim check, load by load, keep it. |
| `TeardownRuns.ServeKeeps` | doca/dpu_worker.c:398-406 | The slot becoming ready while workers are inside passes over it keeps it, and so does setting it up anew. |
| `TeardownRuns.StepKeeps` | doca/dpu_proxy.c:5371-5500 | Every step of every worker and of the control thread keeps it. |
| `TeardownRuns.SeenQuiet` | doca/dpu_proxy.c:5865-5869 | Once the control thread has seen every quiesced bit, a fence left from before this cleanup can only be one its worker is about to clear. |
| `TeardownRuns.ReclaimIsSafe` | doca/dpu_proxy.c:5858-5883 | For any number of workers and any interleaving, from a slot ready or never ready and with workers inside passes of any age, none late to join an earlier cleanup: once it is found ready for reclaim, no inbox, queue, DMA, batch, reverse stage, pending emission, staging reference or late producer names it, then or later while it stays down. |
| `TeardownFence.FenceMeansDrainedIff` | doca/dpu_proxy.c:5471-5492 | From the moment the fenced bits are zeroed, every fenced bit means every producer joined and empty lanes, exactly if no worker had decided to set its own by then. |
| `TeardownFence.FenceFollowsQuiet` | doca/dpu_proxy.c:5481-5492 | A fence also follows a further pass since the worker's last completion callback, if no worker had decided on a fence or, the slot still being ready, was inside a dead pass when the quiesced bits were zeroed. |
| `TeardownBelated.LateAtReclaim` | doca/dpu_proxy.c:5453-5457 | A slot can be reclaimed while any given worker has seen the cleanup pending and is yet to look for its producer bit. |
| `TeardownBelated.BelatedBreaks` | doca/dpu_proxy.c:5453-5466 | From any state with a worker late to join an earlier cleanup and another with a cell to publish into, a schedule reaches reclaim with a unit in that cell. |
| `TeardownBelated.ReclaimIsSafeIff` | doca/dpu_proxy.c:5858-5883 | With two workers or more, every schedule from a state is safe to reclaim if and only if no worker in it is late to join an earlier cleanup. |
| `TeardownBelated.BarrierOpens` | doca/dpu_proxy.c:5371-5500 | From any state of a slot some schedule leads through cleanup to reclaim. |
| `TeardownReuse.ReuseStarts` | doca/comch_server.c:1236-1290 | What a reclaim leaves behind, for the same connection or a new one, is a state the next tenancy may start from, with every pass under way older than its cleanup. |
| `TeardownReuse.SecondTenancyFails` | doca/dpu_proxy.c:5453-5466 | With two workers or more, from any state in which the barrier holds, one execution reclaims the slot with nothing naming it, puts it into service again and reclaims it with something that still names it. |
| `TeardownProgress.Pass` | doca/dpu_proxy.c:5371-5500 | One pass of an idle worker comes to exactly: join the producers, publish the quiesced bit, or publish the fenced bit, by what it sampled. |
| `TeardownProgress.ReclaimIsReachable` | doca/dpu_proxy.c:5371-5500 | For any number of idle workers, three rounds of passes and one check lead to reclaim. |
| `SlotTable.Table.constructor` | doca/comch_server.c:858-900 | A table of blank slots with an empty id index. |
| `SlotTable.Table.FindPod` | doca/comch_server.c:1409-1425 | Finds a slot exactly if the index has the id, never one that is not registered under it, and while the index is exact the registered slot with the id if there is one. |
| `SlotTable.Table.AddConnection` | doca/comch_server.c:858-951 | Takes the first reusable slot and wipes it; refuses exactly when none is reusable. |
| `SlotTable.Table.Register` | doca/comch_server.c:1297-1385 | Registers a connected slot under the requested id or its own index exactly if the index does not know the id; refuses ids out of range and a slot in cleanup; a replay only confirms the id. |
| `SlotTable.Table.BeginCleanup` | doca/comch_server.c:968-1000 | Unpublishes a slot, clears the index entry of its id and arms its removal, once; an exact index stays exact if and only if no other registered slot bears the id. |
| `SlotTable.Table.RemoveConnection` | doca/comch_server.c:1084-1120 | A lost connection starts the cleanup of what the slot holds or just forgets the registration; the index entry of its id goes either way, with the same exact condition. |
| `SlotTable.Table.RecordDel` | doca/dpa.c:182-221 | When no other thread comes between its reads, records a removal acknowledgement in the first slot in cleanup with that id and generation, if that slot expects the unit. |
| `SlotTable.Table.FinalizeAll` | doca/dpu_worker.c:370-412 | Publishes the result of exactly those setups whose units have all answered. |
| `SlotRuns.ManageKeeps` | doca/comch_server.c:858-1295 | Connecting, registering under any id, importing, setting up, finalizing, leaving and reclaiming keep the slot invariant. |
| `SlotRuns.SpeakKeeps` | doca/dpa.c:151-221 | Answers and completions sent by the units keep it. |
| `SlotRuns.HearKeeps` | doca/dpa.c:91-221 | Every single read of the handlers of completions and of both kinds of acknowledgement, and what they record, queue or take, keeps it. |
| `SlotRuns.StepKeeps` | doca/comch_server.c:858-1425 | Every step keeps it, whatever ids are asked for and however handlers are overtaken. |
| `SlotTenancy.UndisturbedStep` | doca/dpa.c:151-181 | An undisturbed tenancy stays so through any step, and what it has recorded stays its own. |
| `SlotMixups.DisturbedMixesUp` | doca/dpa.c:151-181 | Whatever disturbs a tenancy, some execution records it as the tenancy's own. |
| `SlotMixups.MasksAreOwnIff` | doca/dpa.c:151-181 | From any state of a tenancy and for any ids: everything it will record is its own in every execution if and only if it is so far and nothing disturbs it, a condition on handlers, asks in flight and registered slots. |
| `SlotForward.UnmistakenStep` | doca/dpa.c:91-149 | What can only be taken for its own tenancy stays so through any step. |
| `SlotForward.TakenIsOwnIff` | doca/dpu_proxy.c:4298-4307 | From any state in which the slot serves and for any ids: every completion it will take was caused by its tenancy in every execution if and only if those taken were and no foreign one is on its way under its id and generation. |
| `SlotIds.IndexIsExactIff` | doca/comch_server.c:983-985 | In every run, every registered slot has been found under its id so far if and only if no slot left while another registered slot bore its id. |
| `SlotIds.AssignedIsExact` | doca/comch_server.c:1355-1363 | With ids the proxy assigns the index is exact in every state of every run. |
| `SlotIds.AssignedOwns` | doca/comch_server.c:1355-1363 | With assigned ids only handlers can disturb a tenancy. |
| `SlotIds.ReadinessIsEarned` | doca/dpu_worker.c:370-412 | In every run a slot is published ready only when every expected unit accepted this very tenancy's ring and none rejected it, if nothing disturbed the tenancy as it was set up. |
| `SlotIds.ForwardIsCurrent` | doca/dpa.c:91-149 | In every run each completion a slot has taken bears its id and present generation; with assigned ids it was caused by that very tenancy, however delayed and whatever came between the reads that vetted it twice. |
| `SlotIds.StaleIsIgnored` | doca/dpa.c:91-221 | With assigned ids a message of another tenancy, a forward completion or an acknowledgement of either kind, changes no slot at any of the reads it takes, unless its handler had matched a generation that is past and is about to record. |
| `SlotIds.ReuseIsClean` | doca/comch_server.c:858-893 | A slot open to a new connection holds no imported handle and no ring, whatever ids are used. |
| `SlotOvertaking.OwnMasksIff` | doca/dpa.c:165-177 | In every run with assigned ids, what a tenancy has recorded is all its own if and only if no step since its setup recorded an acknowledgement whose generation a handler had read before the setup. |
| `SlotRemoval.UnstruckStep` | doca/dpa.c:191-217 | A cleanup that nothing can be mistaken for stays so through any step, and the removal acknowledgements it has recorded stay its own. |
| `SlotRecycling.Deliver` | doca/dpa.c:191-217 | The acknowledgement of any removal asked for can be heard read by read and is recorded in the first slot in cleanup with its id and generation. |
| `SlotRecycling.Vacate` | doca/comch_server.c:1236-1290 | A slot in cleanup that is the first with its id and generation can always be acknowledged and reclaimed within another slot's cleanup. |
| `SlotRecycling.Cycle` | doca/comch_server.c:1297-1385 | A slot of a lower generation can be used again, tenancy after tenancy, until it has a ring removed under the id and generation of a slot in cleanup. |
| `SlotRecycling.FollowerStrikes` | doca/dpa.c:191-217 | Whenever another slot can come to have rings removed under the id and generation of a slot in cleanup, some execution records that removal's acknowledgement for it. |
| `SlotRecycling.DelsAreOwnIff` | doca/dpa.c:182-221 | From any state of a cleanup and for any ids: every removal acknowledgement it will record is its own in every execution if and only if they are so far, no handler has matched a foreign one to the slot and no other slot has, or can still come to have, rings removed under its id and generation on a unit it waits for. |
| `SlotReclaim.OwnDelsIff` | doca/dpa.c:191-217 | In every run with assigned ids, the removal acknowledgements a cleanup has recorded are all its own if and only if no step since it began recorded one that a handler had matched to the slot before. |
| `SlotReclaim.ReclaimIsEarned` | doca/comch_server.c:1236-1290 | In every run with assigned ids and under that condition, a slot is reclaimed only once every unit that was running this very tenancy's rings has acknowledged their removal. |
| `SlotReclaim.MisstruckWasMatched` | doca/dpa.c:191-217 | The condition holds whenever no worker had matched a removal acknowledgement to the slot as its cleanup began. |
| `SlotReclaim.UnstruckReclaimIsEarned` | doca/comch_server.c:1236-1290 | For any ids a slot is reclaimed only on its own units' removal acknowledgements, if at some point of its cleanup those recorded were its own and nothing could be mistaken for one. |
| `SlotCounterexamples.OvertakenRemoval` | doca/dpa.c:191-217 | A run in which a repeated removal acknowledgement is matched before the slot is reclaimed and recorded in its next tenancy's cleanup: the slot can be reclaimed although no unit has removed its rings. |
| `SlotCounterexamples.OvertakenHandler` | doca/dpa.c:1138-1149 | A run in which setup falls between a handler's two reads: the slot is published ready without any acceptance of its rings. |
| `SlotCounterexamples.BorrowedId` | doca/comch_server.c:1357-1363 | A run with an id chosen by the registrant that ends the same way: the slot is taken while another serves under the id and registers under it once that one has left. |
| `SlotCounterexamples.BorrowedForward` | doca/dpu_proxy.c:4298-4307 | From there a completion of the earlier slot's tenancy is taken for the later slot. |
| `SlotCounterexamples.IdHeldTwice` | doca/comch_server.c:1103-1106 | A run that ends with two registered slots under one id, one of which the index has lost. |
| `SubmitLane.DropWide` | doca/dpu_proxy.c:5774-5787 | Drops over-wide units from the front and nothing else. |
| `SubmitLane.TakeBatch` | doca/dpu_proxy.c:5761-5802 | Takes the longest admissible FIFO prefix and places each unit right behind the one before. |
| `SubmitLane.Stripe.constructor` | doca/dpu_proxy.c:5311-5319 | A lane with nothing sent and the cursor at its start. |
| `SubmitLane.Stripe.Turn` | doca/dpu_proxy.c:5726-5854 | One turn waits, rejects, or lands one batch, updating cursor, counts and queue exactly as the model says. |
| `SubmitLane.Stripe.Submit` | doca/dpu_proxy.c:5703-5856 | The submit loop is the sequence of such turns while they make progress. |
| `SubmitLane.Stripe.RetireAll` | doca/dpu_proxy.c:5104-5137 | Finished batches leave from the head in order; a failed one gives its entries back. |
| `LaneRuns.SubmitKeeps` | doca/dpu_proxy.c:5726-5854 | Landing a batch keeps outstanding ranges apart, inside the stripe and within the depth. |
| `LaneRuns.RetireKeeps` | doca/dpu_proxy.c:5104-5137 | Retiring, successful or failed, keeps it. |
| `LaneRuns.FreeKeeps` | doca/dpu_proxy.c:4592-4618 | The host freeing entries one at a time keeps it. |
| `LaneRuns.LandingIsSafe` | doca/dpu_proxy.c:5703-5856 | In every run of units that fit one SG list: entries not yet freed never exceed the depth, every outstanding range lies inside the stripe, and no two overlap, across batches, failures, retries and wraps. |
| `LaneRuns.SubmitRespectsLimits` | doca/dpu_proxy.c:5766-5802 | A turn respects the credit it saw and the stripe exactly when the first unit left after dropping over-wide ones itself fits. |
| `LaneRuns.WideHeadBreaksLanding` | doca/dpu_proxy.c:5774-5787 | A queue of a two-byte unit in two pieces and an ordinary one, with one piece to a list: the next unit lands past the stripe and over the depth. |
| `LaneInbox.Unstack` | doca/dpu_proxy.c:1484-1490 | Relinking a taken stack node by node reverses it. |
| `LaneInbox.StepKeeps` | doca/dpu_proxy.c:1439-1496 | Loads, swaps that hit or miss, looks and exchanges keep each producer's order. |
| `LaneInbox.PushOrder` | doca/dpu_proxy.c:1439-1496 | In every run the lane's FIFO followed by the reversed stack is, per producer, exactly what it pushed, in order, once each, including pushes that race the emptiness read. |
| `ReversePublisher.Publisher.constructor` | doca/dpu_proxy.c:255-264 | A publisher with nothing staged. |
| `ReversePublisher.Publisher.Append` | doca/dpu_proxy.c:4971-4990 | Stages one entry at the end, or refuses mid-publication or when full. |
| `ReversePublisher.Publisher.Stamp` | doca/dpu_proxy.c:4934-4935 | Gives each entry of the run its ticket plus one and changes nothing else. |
| `ReversePublisher.Publisher.Kick` | doca/dpu_proxy.c:4908-4966 | Starts the next copy, cut at the ring's end, or a control read when the ring looks full. |
| `ReversePublisher.Publisher.CopyDone` | doca/dpu_proxy.c:4545-4561 | Moves what is left of the stage to the front and advances the tail. |
| `ReversePublisher.Publisher.CtrlDone` | doca/dpu_proxy.c:4563-4577 | Remembers the consumer head a control read saw. |
| `ReversePublisher.Publisher.Failed` | doca/dpu_proxy.c:4639-4658 | A failed copy or read leaves the stage as it is, to be tried again. |
| `ReverseRing.OverwritesConsumed` | doca/dpu_proxy.c:4918-4949 | A landing entry replaces one the host has consumed, or the same ticket's same entry. |
| `ReverseRing.StepKeeps` | doca/dpu_proxy.c:4532-4577 | Appending, copying, landing in any order, failing and retrying, reading the head and consuming keep the ring exact. |
| `ReverseRing.ExactPublication` | doca/dpu_proxy.c:4908-5005 | In every run the host has received exactly the appended entries up to where it stands, published ones not yet consumed still stand under their tickets, and published plus staged is everything appended. |
| `ReverseRing.TicketIsFixed` | doca/dpu_proxy.c:4934-4949 | A ticket carries one entry, in one slot, in every state of the run, through failed and repeated copies. |
| `MpscQueue.StepKeeps` | doca/object.h:103-159 | Every load, compare-and-swap, write, publish and release of any producer or the consumer keeps the queue's invariant. |
| `MpscQueue.RunKeeps` | doca/dpu_proxy.c:751-822 | The same over whole runs; the acknowledgement queue has the same code. |
| `MpscQueue.ExactDelivery` | doca/object.h:110-159 | With any number of producers the consumer has received exactly the first claimed entries, whole and in claim order, and every later claim is in a cell or in its producer's hands. |
| `MpscQueue.FullOnlyWhenFull` | doca/object.h:110-131 | Full is answered only while exactly the capacity of claimed entries has not been given back. |
| `Conntrack.Tracker.constructor` | doca/object.h:381-385 | A tracker with no port in use and an empty table. |
| `Conntrack.Tracker.Find` | doca/object.h:395-405 | Answers exactly as a map from (client pod, client port, backend pod) to port, 0 when absent. |
| `Conntrack.Tracker.PickPort` | doca/object.h:412-426 | The first free port of the owner's residue class in cyclic order from the cursor; 0 exactly when the class is exhausted. |
| `Conntrack.Tracker.Insert` | doca/object.h:436-444 | Enters a key in the first free slot of its probe path; every chain stays intact. |
| `Conntrack.Tracker.Bind` | doca/object.h:428-445 | Puts a port into use and adds exactly that mapping. |
| `Conntrack.Tracker.Create` | doca/object.h:409-446 | Adds exactly one mapping under a fresh port of the class and advances the cursor, or changes nothing and returns 0. |
| `Conntrack.Tracker.Locate` | doca/object.h:457-464 | Finds where a key sits, if it does. |
| `Conntrack.Tracker.BackwardShift` | doca/object.h:466-476 | Deleting by backward shift terminates, removes exactly one key, moves entries only within their chains and keeps every chain intact. |
| `Conntrack.Tracker.Release` | doca/object.h:450-477 | Removes exactly the port's mapping; does nothing for a port not in use. |
| `Conntrack.RoomInTable` | doca/object.h:437-444 | Fewer ports than slots, so a probe for a free slot always ends. |
| `ProbeTable.AbsentAtFree` | doca/object.h:398-404 | A probe that meets a free slot proves the key absent. |
| `ProbeTable.ShiftMove` | doca/object.h:470-473 | Moving an entry into the hole keeps every other chain probed correctly. |
| `ControlEnd.Control.constructor` | doca/peer_control.c:59-87 | A session with its setup deadline armed and nothing exchanged. |
| `ControlEnd.Control.Enqueue` | doca/peer_control.c:94-107 | Queues a frame under the next operation number in the ring, or refuses when eight wait. |
| `ControlEnd.Control.WriteFront` | doca/peer_control.c:230-234 | Hands over the oldest queued frame. |
| `ControlEnd.Control.Check` | doca/peer_control.c:164-169 | Faults on a passed deadline or a clock gone backwards, and otherwise only notes the time. |
| `ControlEnd.Control.Renew` | doca/peer_control.c:237-247 | Moves the authority deadline only for a newer generation on a session that has not expired. |
| `ControlEnd.Control.Break` | doca/peer_control.c:32-36 | A failing channel faults the session and changes nothing else. |
| `ControlEnd.Control.TakeHello` | doca/peer_control.c:118-127 | The first frame must greet with operation one and identify the expected peer; it opens the lease. |
| `ControlEnd.Control.TakePing` | doca/peer_control.c:129-132 | Answers a challenge at once or leaves it for later when the ring is full. |
| `ControlEnd.Control.TakePong` | doca/peer_control.c:133-138 | Only the answer to the open challenge is accepted; it renews the lease. |
| `ControlEnd.Control.Receive` | doca/peer_control.c:115-140 | One frame is processed, put off or faulted exactly as the model judges it. |
| `ControlEnd.Control.TakeFrame` | doca/peer_control.c:152-159 | Skips an exact repeat of the last operation, processes the next one, faults on anything else. |
| `ControlEnd.Control.Consume` | doca/peer_control.c:141-163 | The loop takes at most sixteen whole frames in order and stops at the first that must wait or faults. |
| `ControlEnd.OneFrameIsConsume` | doca/peer_control.c:141-163 | A turn of the loop is the session's own step. |
| `ControlSession.ConsumeKeeps` | doca/peer_control.c:115-163 | Processing, putting off or faulting keeps the two ends in order. |
| `ControlSession.StepKeeps` | doca/peer_control.c:94-247 | Every step of either end keeps the two ends in order. |
| `ControlSession.HonestFrame` | doca/peer_control.c:141-163 | A whole frame at the front is always the next operation, never a repeat, and an honest peer's frame is never a protocol fault. |
| `ControlSession.PongIsExpected` | doca/peer_control.c:133-138 | A pong at the front always answers the one challenge still open. |
| `ControlSession.SessionDelivery` | doca/peer_control.c:94-163 | For any retry, full ring and cut of the stream, what each end has processed is the front of what the other queued, each frame once and in order, and both number consecutively. |
| `ControlWire.FrontIs` | doca/peer_control.c:143-149 | What the buffer's bytes show at the front is the next frame of the peer's log, exactly when it is whole. |
| `ControlWire.StepAgrees` | doca/peer_control.c:141-207 | Reading and processing by bytes alone is the session's own step. |
| `ControlWire.WireDelivery` | doca/peer_control.c:94-234 | Over bytes in any pieces and any encoding that delimits and determines the frames: what each end has processed is the front of what the other queued, under consecutive operations, and its buffer, within its size, holds exactly the bytes read and not taken. |
| `ControlSession.FaultsOnlyByCause` | doca/peer_control.c:164-236 | An end comes to fault only by a deadline it saw pass, a failing channel, or refusing a message or the peer's identity. |
| `ControlSession.FaultIsFinal` | doca/peer_control.c:32-36 | No step changes a faulted end. |
| `ControlSession.ExpiryIsFinal` | doca/peer_control.c:164-168 | A lease or authority deadline either end has seen pass ends its session for good. |
| `ControlSession.RoomForFrame` | doca/peer_control.c:203-207 | A frame not yet whole always leaves room to read on. |
| `IpcCursor.Digits` | doca/peer_crypto_ipc.c:26-31 | The byte loop writes the big-endian number. |
| `IpcCursor.ReadNumber` | doca/peer_crypto_ipc.c:32-38 | The shift loop reads it. |
| `IpcCursor.Writer.Put` | doca/peer_crypto_ipc.c:16-20 | Appends all the bytes or runs out for good, leaving what was written. |
| `IpcCursor.Writer.PutAll` | doca/peer_crypto_ipc.c:16-31 | Appends a row of fields, exactly if all of it fits. |
| `IpcCursor.PutHeader` | doca/peer_crypto_ipc.c:39-43 | Writes exactly the header of the type and length, if it fits. |
| `IpcCursor.PutLanes` | doca/peer_crypto_ipc.c:97-101 | The loop writes exactly the lanes' bytes, if they fit. |
| `IpcCursor.EncodeRequest` | doca/peer_crypto_ipc.c:84-104 | Encodes exactly valid requests that fit the buffer, to exactly the specified frame. |
| `IpcCursor.GetLanes` | doca/peer_crypto_ipc.c:118-123 | Reads the lanes and insists that nothing is left over. |
| `IpcCursor.DecodeRequest` | doca/peer_crypto_ipc.c:105-125 | Decodes exactly as specified, refusing short, long and invalid bodies. |
| `IpcCodec.RequestRoundTrip` | doca/peer_crypto_ipc.c:84-125 | Decoding an encoded request gives it back with queue pair numbers cut to 24 bits; the body never exceeds its limit. |
| `IpcCodec.RequestSurvives` | doca/peer_crypto_ipc.c:99-121 | It gives back the same request exactly when all queue pair numbers fit 24 bits. |
| `IpcCodec.RequestCanonical` | doca/peer_crypto_ipc.c:105-125 | Encoding what an accepted body decoded to gives back the same bytes. |
| `IpcCodec.CompletionSurvives` | doca/peer_crypto_ipc.c:126-153 | An encoded completion is read back with its action cut to two bytes, or refused; it comes back as itself exactly when its action is a known one. |
| `IpcCodec.CompletionCanonical` | doca/peer_crypto_ipc.c:138-153 | Encoding what an accepted completion body decoded to gives back the same bytes. |
| `IpcCodec.HeaderRoundTrip` | doca/peer_crypto_ipc.c:39-59 | A written header is read back, whatever follows it. |
| `IpcCodec.HeaderCanonical` | doca/peer_crypto_ipc.c:44-59 | An accepted header is the one its type and length are written as. |
| `IpcStream.Consume` | doca/peer_crypto_ipc.c:225-250 | The consume loop takes exactly the whole frames at the front. |
| `IpcStream.TakeSplit` | doca/peer_crypto_ipc.c:225-250 | Taking frames early loses nothing and finds the same fault. |
| `IpcStream.ChunkingIsInvisible` | doca/peer_crypto_ipc.c:251-268 | Frames handled and survival do not depend on how bytes were cut up, and the oversized-buffer branch is unreachable. |
| `IpcStream.CompletionsArrive` | doca/peer_crypto_ipc.c:126-153 | The adapter handles exactly the completions the owner encoded, in order, for any chunking. |
| `CryptoTable.Table.constructor` | doca/peer_crypto_ipc.c:161-169 | An adapter with nothing in flight and nothing to poll. |
| `CryptoTable.Table.QueueCompletion` | doca/peer_crypto_ipc.c:176-180 | Adds a completion behind the others in the ring; a full ring takes nothing. |
| `CryptoTable.Table.Poll` | doca/peer_crypto_ipc.c:287-294 | Hands out completions oldest first, each once. |
| `CryptoTable.Table.Submit` | doca/peer_crypto_ipc.c:269-286 | Accepts into the first free slot exactly when connected, valid and with room for the frame in the transmit buffer; otherwise takes nothing; an owner lost over the send ends everything in flight. |
| `CryptoTable.Table.Answer` | doca/peer_crypto_ipc.c:237-245 | A completion ends the first request it answers; a stale one changes nothing. |
| `CryptoTable.Table.Disconnect` | doca/peer_crypto_ipc.c:183-194 | Every request in the table ends as unknown outcome, in slot order. |
| `CryptoAdapter.StepKeeps` | doca/peer_crypto_ipc.c:176-294 | Every step keeps each request in exactly one place. |
| `CryptoAdapter.ExactlyOnce` | doca/peer_crypto_ipc.c:176-294 | A request is exactly one of in flight, waiting and polled, or in none of them exactly if it was forgotten; its completion answers it. |
| `CryptoAdapter.LostOwnerIsUnknown` | doca/peer_crypto_ipc.c:181-194 | A request in flight when the owner is lost is queued under its own identity with status -2. |
| `CryptoAdapter.DisconnectForgetsNothingIff` | doca/peer_crypto_ipc.c:176-194 | Losing the owner forgets no request exactly when those accepted and not yet polled fit the queue. |
| `CryptoAdapter.CompleteForgetsNothingIff` | doca/peer_crypto_ipc.c:237-245 | A completion forgets no request exactly when it ends none or the queue has room. |
| `CryptoAdapter.ForgottenIff` | doca/peer_crypto_ipc.c:176-294 | In every run a request has been forgotten exactly if some step ended one with the queue full or lost the owner with more accepted and unpolled than it holds. |
| `CryptoAdapter.OneCompletionEachIff` | doca/peer_crypto_ipc.c:269-294 | In every run no request ends twice or is in two places, and every accepted request is in flight, waiting or polled if and only if no step so far forgot one. |
| `CryptoAdapter.FittingForgetsNothing` | doca/peer_crypto_ipc.c:269-294 | While the requests accepted and not yet polled fit the queue no step forgets. |
| `CryptoAdapter.AcceptedAndForgotten` | doca/peer_crypto_ipc.c:244-244 | A run of 256 requests completed and not polled and one more accepted, which is forgotten whether the owner answers it or is lost. |

## Left out

- Registry lookups and statistics, and freeing a registry: easy members beside the transitions. `peer_association_grant` likewise: it counts up a grant revision, and revokes the pair when revisions run out or a Pod name does not fit.
- Strength of digests, key derivation, TLS and certificates: a digest is an injective constructor, the rest are parameters.
- L7 hand-over, policy verdicts, load balancing, peer channels between proxies and the budget counters: they rest on code outside these files or add easy members.
- StreamRuns.StepKeeps: covers the pass-through path of one connection; arena chunks and peer slots, which hold custody the same way, are not modelled.
- Connection.Conn.Accept: takes data entries; the zero-length FIN entry, a reset, and the direct acknowledgement of data for a poisoned connection are not modelled.
- StreamDelivery.UnitsDivideStream: numbers this connection's units and end-of-stream units; units of other connections to the same destination, which share its counter, are not modelled.
- StreamDelivery.FetchIsStream: takes from the sender's protocol that staging is reused only after its extent was released.
- The window is a sequence with a head index instead of a linked list, so recycling of its nodes is not modelled.
- TeardownRuns.ReclaimIsSafe: the recovery of a stalled DMA engine is not modelled.
- TeardownBelated.ReclaimIsSafeIff: for a single worker only the direction of TeardownRuns.ReclaimIsSafe is stated.
- TeardownFence.FenceFollowsQuiet: its condition is sufficient; when else a fence follows a further pass is not stated.
- TeardownRuns.DeadKeeps: a worker's lanes are folded together except for their inbox cells, which are visited in any order.
- LaneRuns.LandingIsSafe: one tenancy of one lane; the reset on a new generation and the 32-bit cast of landing positions are not modelled.
- ReverseRing.ExactPublication: an entry lands as a whole; doorbells to the host are not modelled.
- SlotIds.ReadinessIsEarned: setup that fails half-way and the growth of the table up to its cap are not modelled.
- SlotIds.ForwardIsCurrent: the 32-bit generation is unbounded here, so a message delayed over 2^32 tenancies of a slot is not covered; a completion dropped because a worker's queue is full counts as lost.
- SlotRuns.StepKeeps: one operation of the control thread on a slot is one step; that a slot is reclaimed only while no worker is inside a handler that found it registered or ready is taken from the worker barrier, which orders such handlers before its fence unless a worker is late (TeardownBelated), and is not derived here. Handlers of removal acknowledgements are under no such condition.
- PeerRekeyProgress.RekeyCompletes: shows that a continuation exists, not that every fair schedule is one.
- Weak memory ordering: atomic steps are sequentially consistent.
- ControlWire.WireDelivery: the secure channel is a reliable byte stream; the layout of the header, digests and session ids are not spelled out, and whether a greeting identifies the peer is a parameter.
- SlotTable.Table.Register: the identity assertion, Service name and topology checks that precede registration are not modelled.
- CryptoTable.Table.Submit: the transmit buffer is its length; the receive pump that precedes every call is not part of it.
- Comch message dispatch, memory import order, admission switch, health page, configuration, the Python controller and the benchmarks.
