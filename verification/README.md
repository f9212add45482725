# VAMS in Dafny

A model of the VAMS accelerator stack and proofs of the rules it lives by. VAMS is a PCIe accelerator:
a Linux driver submits descriptors through a ring in host memory, an endpoint fetches them and runs a
payload engine, and a Zephyr control plane owns every command from capture to its one terminal
completion. `dafny verify dfyconfig.toml` verifies the whole project.

## Parts

- `Abi`, `Validation`, `HostChecks`: the records and codes; the two descriptor validators against one
  list of rules over mathematical integers; and what the driver's own checks guarantee of a descriptor.
- `Scheduler`, `Pipeline`, `PipelineRules`, `PipelineProofs`, `PipelineRuns`, `PipelineEffects`,
  `PipelineNeed`: the command object as a class; the five firmware loops as an interleaved step system
  over eight objects, with the assertions of the source as an explicit predicate of each step; the
  invariant; and theorems over whole runs, among them which completion every capture gets. `Recovery` runs the loops on one command object, in place and in time.
- `Ring`, `Windows`, `EndpointQueues` (with `QueueSteps`), `EndpointRules`, `Endpoint`: the endpoint as a
  class composed from patches 0003 to 0020, over the rings in host memory, one method per register write,
  timer, bridge message, disconnect or reset. Assertions of the source are Dafny assertions or
  preconditions there.
- `Rings` (with `LinkRules`): the driver's end of both rings and the endpoint itself, refining an unbounded
  queue on the direct path.
- `Driver`, `DriverRules` (with `DriverProofs`), `DriverRuns`, `DriverEffects`, `DriverResets`: requests,
  mappings and files with their reference counts, as an interleaved step system; what each step achieves
  and how each request ends; and what the driver learns of resets.
- `Payload`, `Crc32`, `Polynomial`, `CrcAnswer`, `Retained`, `Health`: the chunked payload engine against
  the whole-buffer one; the CRC-32 of IEEE Std 802.3 clause 3.2.9 as a bit-serial register, as a remainder
  of polynomials and in machine words; the retained crash record; and the stuck-task tracker.

Registers of 32 bits that are combined by exclusive-or and shifts are sequences of bits; other machine
integers are bounded integers with wrap-around written out. Masking an index with depth - 1 is written
as the remainder by depth, which it equals because every depth divides 2^32. Clocks, DMA outcomes,
portal answers, chardev deliveries and interleavings are arbitrary.

## Where the code is followed against its documentation

- `docs/descriptor-format.md` lists a duplicate-id check; `vams_validate_command` has none.
- For MEM_COPY the code tests address overflow before zero addresses; the document has the other order.

## Properties that are false as first stated

- The running queue can overflow without the rule that the endpoint sends no second acceptable payload
  before the first one's terminal completion: any two such payloads lead there
  (`PipelineNeed.RuleIsNeeded`). With the rule it cannot (`PipelineRuns.RunningPutNeverFails`).
- A stopped submission queue's depth can be rewritten under its indices
  (`Endpoint.DepthRewriteBreaksTheCheck`); `Endpoint.Device.SqDepth` and `Endpoint.Device.CqDepth` state
  exactly when that is safe.
- Not every discarded request has an acknowledgment deadline: `Endpoint.Device.Withdraw` states that it
  has one exactly when it comes from a running engine.
- Conservation at the endpoint holds with the completions lost to failed writes counted.
- Validation of the retained record does not bound its event head (`RetainedEvents.AcceptedWithAnyHead`):
  event stores stay inside the ring exactly as `RetainedEvents.AcceptedLandsExactly` states.
- A request the reset work has loaded can be released before it is read (`DriverRuns.LoadedMayBeGone`);
  `DriverRuns.LoadedIsLive` states exactly when it is still there.
- A descriptor that becomes fetchable is not always fetched: the endpoint does not look at its queue when
  an engine stops or bus mastering is switched on. `Endpoint.DescriptorIsLeftWaiting` is an input;
  `Endpoint.Device.EngineComplete`, `EngineReset`, `ResetNotice`, `AbortMessage`, `SetBusMaster` and
  `Handle` state exactly when, in terms of the state before. Under the driver it waits only until the
  completion doorbell (`Rings.Link.Run`).
- A cancel does not always mean that the device was reset since the doorbell: an observer can store an old
  reading of the generation late (`DriverResets.LateReader`). `DriverResets.CancelExactly` states when.
- Ties between equal deadlines follow capture order exactly while the sequence number does not wrap
  (`Scheduler.TieBreakExact`).

## Model

| member | source | states |
|---|---|---|
| `PipelineRuns.RunKeepsInv` | firmware/src/main.c:345-702 | In every reachable state of every interleaving, for any portal behaviour, each of the eight objects is in exactly one place (slab, one queue, one loop's hands) and its state fits that place |
| `PipelineRuns.NoAssertionFails` | firmware/src/main.c:345-702 | No transition, publication or queue assertion of the five loops can fail in any reachable state, except possibly the put to the one-slot running queue |
| `PipelineRuns.RunningPutNeverFails` | firmware/src/main.c:567-569 | If no acceptable payload is sent while an earlier one has no terminal completion, the put to the running queue never finds it full either |
| `PipelineNeed.RuleIsNeeded` | firmware/src/main.c:71 | The rule cannot be relaxed for any two acceptable payloads: sent one after the other they take a run from boot to the put with the slot taken |
| `PipelineNeed.SomePayloadRuns` | firmware/src/command/vams_command.c:28-124 | There is such a payload: a CRC32 of four bytes is acceptable |
| `PipelineRuns.Conservation` | firmware/src/main.c:396-422 | Descriptors captured = objects still carrying a command + terminal completions published |
| `PipelineRuns.HistoryIsKept` | firmware/src/main.c:664-702 | Over every run, what has been published, decided, authorized, aborted or answered for a capture is never changed or repeated |
| `PipelineRuns.PublishedAsDeserved` | firmware/src/main.c:345-702 | Over every run each terminal completion is the one its capture deserves: INVALID with the first broken rule; TIMED_OUT exactly when the scheduler came to it at or after the deadline; SUCCESS of a NOP in time; the engine's own result if one names the command; and otherwise FAILED as an engine error, after an abort if there was no result |
| `PipelineRuns.ResultIsPublished` | firmware/src/main.c:600-656 | A result the portal has while the recovery loop waits is what gets published for that capture, as a success exactly if it says so, if it names the command; any other ends FAILED / ERR_ENGINE / 0 bytes |
| `PipelineRuns.ResultIsThePortals` | firmware/src/main.c:600-656 | And a result on record is one the portal had for that capture |
| `PipelineRuns.StepEnters` | firmware/src/main.c:550-656 | What enters the record in a step, and when: the clock read at the decision, the authorization, the abort, the portal's answer |
| `PipelineRuns.FreedOnlyWhenPublished` | firmware/src/main.c:684-700 | An object returns to the slab only unfilled, or terminal with publication count 0 going to 1 after exactly this completion was handed to the portal |
| `PipelineRuns.NeverStale` | firmware/src/main.c:550-551 | Within a boot no command is of another generation, so the scheduler's cancellation branch is never taken |
| `PipelineRuns.PicksEarliest` | firmware/src/main.c:537-545 | The command dispatched has the earliest deadline, and among equal ones the lowest sequence number, of all validated commands still held or queued |
| `PipelineRuns.PicksFirstCaptured` | firmware/src/main.c:537-545 | Among equal deadlines it is the one captured first, as long as the sequence number has not wrapped |
| `PipelineEffects.ValidatesInCaptureOrder` | firmware/src/main.c:419-442 | Over every run the validator holds the command captured first of those not yet validated |
| `PipelineEffects.EntryStepDoes` | firmware/src/main.c:396-457 | What each step of receiver and validator achieves: an accepted descriptor goes to the end of the ready queue, any other to the end of the completion queue |
| `PipelineEffects.SchedulerStepDoes` | firmware/src/main.c:528-574 | Of the scheduler: a payload in time goes on to authorization and to the end of the running queue, anything else to the end of the completion queue |
| `PipelineEffects.ExitStepDoes` | firmware/src/main.c:600-702 | Of recovery and completion: queues are served in order, the poll ends with a result or at the deadline, and a published object is freed |
| `PipelineProofs.StepKeeps` | firmware/src/main.c:345-702 | One step of any loop: its assertions hold and placement, contents, identity, outcome and ledger are kept |
| `PipelineProofs.ReceiveKeeps` | firmware/src/main.c:396-422 | Receiving captures a descriptor into a zeroed object under the next sequence number, or gives the object back |
| `PipelineProofs.PutValidationKeeps` | firmware/src/main.c:419-421 | The put to the validation queue finds room |
| `PipelineProofs.ValidatedKeeps` | firmware/src/main.c:442-457 | The validator finds its command SUBMITTED and finds room in the ready and completion queues |
| `PipelineProofs.DecideKeeps` | firmware/src/main.c:550-574 | A picked command is QUEUED and ends started, completed, timed out or cancelled, still carrying its capture |
| `PipelineProofs.AuthorizeKeeps` | firmware/src/main.c:558-570 | A payload is authorized once, after a clock reading before its deadline |
| `PipelineProofs.PollKeeps` | firmware/src/main.c:600-621 | A polled command is RUNNING; with a result it ends as `PublishedAsDeserved` says, and it is aborted only at or after its deadline |
| `PipelineProofs.GraceKeeps` | firmware/src/main.c:622-656 | After the abort the command is ABORTING and ends with the portal's result if one names it, and as an engine failure otherwise |
| `PipelineProofs.PublishKeeps` | firmware/src/main.c:684-689 | A completion is published for a capture that has none yet |
| `PipelineProofs.ReleaseKeeps` | firmware/src/main.c:689-700 | A released object is terminal with publication count 0 before it is marked |
| `PipelineProofs.RecoverGood` | firmware/src/scheduler/vams_scheduler.c:85-137 | What recovery makes of a result, or of none, is what the capture deserves, under the command's own id and cookie, and stamped with the clock if the firmware made it |
| `PipelineProofs.DecidedFits` | firmware/src/main.c:550-574 | A picked payload goes on exactly before its deadline; at or after it every command times out, and a NOP before it succeeds |
| `Scheduler.ValidateOutcome` | firmware/src/main.c:442-457 | A captured command is queued under a success verdict without progress, with the deadline asked for or 30 s, exactly when its descriptor is acceptable; otherwise it completes INVALID with the first broken rule's code |
| `Scheduler.CommandObject.ApplyResult` | firmware/src/scheduler/vams_scheduler.c:85-108 | A result is applied exactly when it names the command; otherwise nothing changes |
| `Scheduler.Select` | firmware/src/main.c:462-474 | The index selected is preceded by no other, and precedes every earlier one |
| `Scheduler.PickAndRemove` | firmware/src/main.c:542-545 | Swap-removal keeps the multiset of the others and takes a command none precedes, with the earliest deadline |
| `Scheduler.Drain` | firmware/src/main.c:528-545 | Draining a closed ready array of any size dispatches each command once, by deadline and then by sequence number |
| `Scheduler.OrderIsUnique` | firmware/include/vams_scheduler.h:44-51 | With distinct sequence numbers that order is the only one |
| `Scheduler.TieBreakExact` | firmware/include/vams_scheduler.h:44-51 | Among equal deadlines the order is capture order exactly when the 32-bit sequence did not wrap in between |
| `Scheduler.DrainedTiesAreFifo` | firmware/include/vams_scheduler.h:44-51 | So within the first 2^32 - 1 captures equal deadlines drain in capture order |
| `Recovery.Station.ReceiveResult` | firmware/drivers/vams_command_portal.c:122-150 | The result wait ends; without a result only after its timeout |
| `Recovery.Station.AwaitResult` | firmware/src/main.c:600-614 | The poll loop ends (deadline minus now decreases), in waits of at most 100 ms; without a result only at the deadline |
| `Recovery.Station.Recover` | firmware/src/main.c:600-660 | Whatever the portal does the command ends terminal; no abort before the deadline, then at most one wait of at most 100 ms; a matching result settles it, anything else escalates it |
| `Recovery.Station.PublishCompletion` | firmware/src/main.c:482-500 | A portal stall is reported only after 100 ms |
| `Recovery.Station.Admit` | firmware/src/main.c:396-457 | In place: a descriptor is queued with its deadline exactly when it is acceptable, and otherwise refused as INVALID with the first broken rule's code |
| `Recovery.Station.Dispatch` | firmware/src/main.c:550-574 | In place: a payload goes to the engine only after a clock reading before its deadline and with its capture and verdict untouched; anything else ends settled, as a success only for a NOP, as a timeout only past the deadline |
| `Recovery.Station.Deliver` | firmware/src/main.c:683-700 | In place: the completion goes out once and the object is zeroed, or a 100 ms stall leaves everything as it was |
| `Recovery.Station.Serve` | firmware/src/main.c:345-702 | A descriptor's whole way through the five loops in one object: one completion under its identity, INVALID with the first broken rule and no authorization for an unacceptable descriptor, success of a payload only if authorized before its deadline, and the object ends zeroed |
| `Endpoint.Device.constructor` | qemu/patches/0003-hw-misc-add-vams-pcie-endpoint.patch:366-379 | Power-on state satisfies every invariant |
| `Endpoint.Device.Publish` | qemu/patches/0006-hw-misc-bridge-vams-pci-queues-to-firmware.patch:217-234 | With the completion owed and room in the ring, it is appended, or counted lost when its write fails |
| `Endpoint.Device.Report` | qemu/patches/0016-hw-misc-make-vams-firmware-own-engine-completions.patch:251-280 | Exactly one of waiting-final and discard follows a delivered result; the acknowledgment timer is armed exactly for a delivered discard |
| `Endpoint.Device.Send` | qemu/patches/0006-hw-misc-bridge-vams-pci-queues-to-firmware.patch:300-318 | A descriptor counts as fetched once it has been delivered to the firmware; otherwise the head stays |
| `Endpoint.Device.Serve` | qemu/patches/0011-hw-misc-add-vams-asynchronous-engine.patch:181-190 | Direct path: the descriptor at the head of the ring in memory is answered under its identity with the code of the first broken rule, or started on the engine, too late exactly when it asks for 1 to 19 ms |
| `Endpoint.Judge` | qemu/patches/0007-hw-misc-add-vams-memory-copy-engine.patch:44-91 | The endpoint's verdict is SUCCESS exactly for acceptable descriptors |
| `Endpoint.Device.ProcessSq` | qemu/patches/0004-hw-misc-add-vams-nop-queue-transport.patch:217-263 | The loop keeps every invariant, ends, and stops only when disabled, empty, full, throttled, owned, or on an error |
| `Endpoint.Device.EngineComplete` | qemu/patches/0011-hw-misc-add-vams-asynchronous-engine.patch:90-119 | The engine timer finds active work of the current generation and epoch; the command times out exactly when its timeout (30 s if 0) after it was read comes before 20 ms after it was started, and otherwise has the effect of `Payload.Engine.Execute` on host memory; the result goes to the firmware or is published; and fetchable descriptors are left waiting exactly when it is published and, as the state before tells, the queue had something to fetch and room was left |
| `Endpoint.Device.EngineReset` | qemu/patches/0014-hw-misc-add-vams-engine-recovery-controls.patch:123-148 | The running command completes RESET under the same generation, and the epoch moves on; descriptors are left waiting under exactly the same condition |
| `Endpoint.Device.ResetNotice` | qemu/patches/0018-hw-misc-add-vams-reset-notification-and-cq-throttling.patch:329-341 | A reset notice naming the running command stops the engine and is published without its tag; descriptors are left waiting exactly when the queue had something to fetch and room was left |
| `Endpoint.Device.AbortMessage` | qemu/patches/0017-hw-misc-add-vams-bounded-firmware-abort.patch:235-277 | A valid abort returns the request to the firmware, any other request fails as an engine error; descriptors are left waiting exactly when the answer is published here, the queue had something to fetch and room was left |
| `Endpoint.Device.Answer` | qemu/patches/0016-hw-misc-make-vams-firmware-own-engine-completions.patch:359-366 | A message authorizes the engine or is the final completion |
| `Endpoint.Device.BridgeReceive` | qemu/patches/0017-hw-misc-add-vams-bounded-firmware-abort.patch:228-277 | Neither size assertion fails; a partial message only moves its counter; a whole one keeps every invariant |
| `Endpoint.Device.AckTimeout` | qemu/patches/0019-hw-misc-bound-firmware-reset-acknowledgment.patch:67-80 | The acknowledgment timer finds a pending discard and releases it, with a saturating count |
| `Endpoint.Device.BridgeClosed` | qemu/patches/0016-hw-misc-make-vams-firmware-own-engine-completions.patch:370-396 | A disconnect ends the outstanding command here as FAILED / ERR_ENGINE / 0 bytes under its identity, or drops a pending discard; nothing stays owned |
| `Endpoint.UntaggedMeans` | qemu/patches/0020-hw-misc-serialize-management-reset-ownership.patch:334-334 | The tag of a management reset is bit 63 of the timestamp, and nothing else is lost with it |
| `EndpointRules.VettedTooLate` | qemu/patches/0011-hw-misc-add-vams-asynchronous-engine.patch:78-103 | On the direct path a command is too late exactly when it asks for less than the 20 ms the engine takes |
| `Endpoint.Device.Withdraw` | qemu/patches/0016-hw-misc-make-vams-firmware-own-engine-completions.patch:231-295 | Which resets leave a discard, and that it has a deadline exactly when it comes from a running engine |
| `Endpoint.Device.QueueReset` | qemu/patches/0004-hw-misc-add-vams-nop-queue-transport.patch:167-182 | Both queues stop and empty; generation and epoch move on; nothing stays outstanding |
| `Endpoint.Device.DeviceReset` | qemu/patches/0003-hw-misc-add-vams-pcie-endpoint.patch:163-185 | Everything returns to its initial value but the fences |
| `Endpoint.Device.RequestDeviceReset` | qemu/patches/0003-hw-misc-add-vams-pcie-endpoint.patch:167-170 | A reset during a reset changes no generation |
| `Endpoint.Device.ResetComplete` | qemu/patches/0003-hw-misc-add-vams-pcie-endpoint.patch:155-161 | The reset delay ends in READY |
| `Endpoint.Device.MachineReset` | qemu/patches/0003-hw-misc-add-vams-pcie-endpoint.patch:366-379 | A reset of the machine at any time gives the power-on state and satisfies every invariant |
| `Endpoint.Device.SqDoorbell` | qemu/patches/0004-hw-misc-add-vams-nop-queue-transport.patch:407-427 | A submission doorbell is legal exactly when the queue runs, the index is in range and the entries fit; otherwise only error bits change |
| `Endpoint.Device.CqDoorbell` | qemu/patches/0004-hw-misc-add-vams-nop-queue-transport.patch:470-490 | A completion doorbell is legal exactly when it acknowledges no more than is unread |
| `Endpoint.Device.SqControl` | qemu/patches/0004-hw-misc-add-vams-nop-queue-transport.patch:428-444 | Enabling needs a base and a depth |
| `Endpoint.Device.CqControl` | qemu/patches/0018-hw-misc-add-vams-reset-notification-and-cq-throttling.patch:427-434 | Likewise, and the first enable sets the default watermarks |
| `Endpoint.Device.CqWatermark` | qemu/patches/0018-hw-misc-add-vams-reset-notification-and-cq-throttling.patch:435-448 | Watermarks are accepted only on a stopped queue with low below high below the depth |
| `Endpoint.Device.DeviceControl` | qemu/patches/0004-hw-misc-add-vams-nop-queue-transport.patch:362-381 | Starting needs both queues and bus mastering |
| `Endpoint.Device.ClearInterrupt` | qemu/patches/0004-hw-misc-add-vams-nop-queue-transport.patch:515-517 | Unread completions keep the completion interrupt pending |
| `Endpoint.Device.SetBaseLow` | qemu/patches/0004-hw-misc-add-vams-nop-queue-transport.patch:382-388 | The low half of a base is kept for the high one, on a stopped queue only |
| `Endpoint.Device.SetBaseHigh` | qemu/patches/0004-hw-misc-add-vams-nop-queue-transport.patch:389-398 | The two halves make a base, accepted on a stopped queue and only 64-byte aligned; unread completions are then recorded as moved away from |
| `Endpoint.Device.SetBusMaster` | qemu/patches/0004-hw-misc-add-vams-nop-queue-transport.patch:221-224 | Switching bus mastering on leaves descriptors waiting exactly when that was all they waited for |
| `Endpoint.Device.SqDepth` | qemu/patches/0004-hw-misc-add-vams-nop-queue-transport.patch:399-406 | An accepted depth write keeps the source's invariant exactly when both indices lie below it, and the whole invariant exactly when they also enclose as many entries as before |
| `Endpoint.Device.CqDepth` | qemu/patches/0018-hw-misc-add-vams-reset-notification-and-cq-throttling.patch:407-415 | Likewise, with room for the completion of an outstanding command |
| `Endpoint.DepthRewriteBreaksTheCheck` | qemu/patches/0004-hw-misc-add-vams-nop-queue-transport.patch:399-406 | A concrete sequence of legal writes after which the source's invariant check fails |
| `Endpoint.Device.Handle` | qemu/patches/0012-hw-misc-assert-vams-state-invariants.patch:15-41 | Every register write, timer, message, disconnect and reset keeps ownership, fences, timers, conservation and order, with every assertion on the way holding, exactly unless it is a depth write that does not fit; the order stays on record exactly unless an answer in flight misnames its command; and a fetchable descriptor is left waiting exactly under the conditions above when an engine stops or bus mastering is switched on, and otherwise only if one was waiting already |
| `Endpoint.Device.Run` | qemu/patches/0006-hw-misc-bridge-vams-pci-queues-to-firmware.patch:246-318 | Over every run, up to the first depth write that does not fit: fetched = written + lost + outstanding; outstanding work has room in the completion ring; and with no bridge message and nothing lost the k-th completion written answers the k-th descriptor fetched |
| `Endpoint.LeaveWaiting` | qemu/patches/0016-hw-misc-make-vams-firmware-own-engine-completions.patch:301-314 | On any idle running device two descriptors handed over with one doorbell end with the second waiting when the engine finishes the first |
| `Endpoint.DescriptorIsLeftWaiting` | qemu/patches/0016-hw-misc-make-vams-firmware-own-engine-completions.patch:301-314 | Such a device exists: set up as the driver does, with no error reported |
| `Endpoint.Started` | kernel/vams_pci.c:489-526 | The driver's set-up writes in the driver's order, with or without watermarks, start both queues empty |
| `QueueSteps.UpdateBackpressure` | qemu/patches/0018-hw-misc-add-vams-reset-notification-and-cq-throttling.patch:269-287 | The throttle follows the two watermarks with hysteresis |
| `QueueSteps.AppendedGood` | qemu/patches/0018-hw-misc-add-vams-reset-notification-and-cq-throttling.patch:315-327 | A completion stored at the tail is one more entry and overwrites no unread one, in memory and in order |
| `QueueSteps.Fetch` | qemu/patches/0004-hw-misc-add-vams-nop-queue-transport.patch:236-243 | The descriptor taken from memory is the oldest handed over and not fetched |
| `QueueSteps.Announce` | qemu/patches/0004-hw-misc-add-vams-nop-queue-transport.patch:407-424 | The masked room test is the arithmetic one, and what memory holds up to the new tail is handed over |
| `QueueSteps.Acknowledge` | qemu/patches/0004-hw-misc-add-vams-nop-queue-transport.patch:470-487 | The masked produced test is the arithmetic one |
| `QueueSteps.ReleasedGood` | qemu/patches/0004-hw-misc-add-vams-nop-queue-transport.patch:470-487 | Memory still holds, in order, the completions after the acknowledged ones |
| `QueueSteps.Switch` | qemu/patches/0018-hw-misc-add-vams-reset-notification-and-cq-throttling.patch:427-434 | Switching keeps the contents |
| `EndpointRules.ResizedGood` | qemu/patches/0018-hw-misc-add-vams-reset-notification-and-cq-throttling.patch:407-415 | A stopped completion queue's contents survive another depth exactly when its indices fit it and enclose as many |
| `EndpointRules.RoomAfter` | qemu/patches/0018-hw-misc-add-vams-reset-notification-and-cq-throttling.patch:269-287 | After a completion there is room for another and no throttle exactly when there was none before and it was lost or left room |
| `Ring.IsFull` | qemu/patches/0004-hw-misc-add-vams-nop-queue-transport.patch:113-116 | The masked full test holds exactly at depth - 1 entries |
| `Ring.Masked` | qemu/patches/0004-hw-misc-add-vams-nop-queue-transport.patch:417-418 | A masked difference is the number of entries between two indices |
| `Windows.Store` | kernel/vams_pci.c:742-743 | For every wrap pattern, storing at the producer's index appends to the window and overwrites nothing in it |
| `Windows.Split` | qemu/patches/0004-hw-misc-add-vams-nop-queue-transport.patch:417-418 | A window splits at any index inside it |
| `Windows.Peek` | kernel/vams_pci.c:382-383 | The entry at an index inside the window is the one as many places after its start as the indices enclose |
| `LinkRules.MovesOn` | qemu/patches/0004-hw-misc-add-vams-nop-queue-transport.patch:217-263 | Fetching and publishing disturb nothing the driver remembers of the rings |
| `LinkRules.NextDrained` | kernel/vams_pci.c:382-383 | The completion at the driver's head index is the next one written |
| `LinkRules.StoreAtTail` | kernel/vams_pci.c:742-743 | A descriptor stored at the tail is outside everything waiting, and the next tail hands over just it |
| `Rings.Link.constructor` | kernel/vams_pci.c:489-526 | The driver's set-up sequence, with its watermarks and in its order, gives a working link |
| `Rings.Link.Submit` | kernel/vams_pci.c:727-751 | With a head read at any earlier time the driver refuses exactly when the ring was full at that head; otherwise the doorbell is legal, the descriptor is the next of the stream and nothing fetchable is left waiting |
| `Rings.Link.Fire` | qemu/patches/0011-hw-misc-add-vams-asynchronous-engine.patch:90-119 | The engine timer keeps everything the driver relies on: a command that asked for 1 to 19 ms ends TIMED_OUT with memory untouched, and any other is performed, the second validation never refusing it |
| `Rings.Link.DrainOne` | kernel/vams_pci.c:379-401 | The completion drained is the next one written |
| `Rings.Link.DrainEnd` | kernel/vams_pci.c:403-406 | The completion doorbell is always legal, and after it nothing fetchable is left waiting |
| `Rings.Link.Run` | kernel/vams_pci.c:361-761 | Driver and endpoint together refine an unbounded queue: under every interleaving, with old heads, the k-th completion drained answers the k-th descriptor submitted as long as no completion write failed; submitted = written + lost + outstanding + waiting; and a fetchable descriptor waits only while a completion is not acknowledged |
| `DriverRuns.RunKeepsInv` | kernel/vams_pci.c:250-319 | In every reachable state each mapping, request and file count is the number of table entries, live requests and waiters that refer to it |
| `DriverRuns.NoUnderflow` | kernel/vams_pci.c:297-319 | No put finds a count of zero |
| `DriverRuns.UnmappedExactly` | kernel/vams_pci.c:250-277 | A mapping is unmapped at most once, and exactly when no table entry and no live request refers to it |
| `DriverRuns.TrackedStaysMapped` | kernel/vams_pci.c:980-1006 | A mapping used by a request the device tracks is not unmapped, through close and unregister |
| `DriverRuns.UnregisterExactly` | kernel/vams_pci.c:980-1006 | Unregistering takes a mapping out and unmaps it exactly when no live request uses it, and otherwise changes nothing |
| `DriverRuns.EndsOnce` | kernel/vams_pci.c:338-359 | A request, once finished, cancelled or gone, keeps that outcome for the rest of the run |
| `DriverRuns.EndedBy` | kernel/vams_pci.c:338-468 | A request that has ended did so in one step of the run: the drain of a completion under its number, which is then its result; the reset work, as stale; or the removal |
| `DriverRuns.FinishDelivers` | kernel/vams_pci.c:338-359 | A drained completion ends the request tracked under its number, with that completion as its result |
| `DriverRuns.WaitReturnsTheEnd` | kernel/vams_pci.c:1234-1244 | What a wait returns is how its request ended: the completion drained under its number, if one was |
| `DriverRuns.ReapedAtMostOnce` | kernel/vams_pci.c:1234-1244 | At most one wait returns a request's result, and only after it has ended |
| `DriverRuns.CancelledOnlyAcrossReset` | kernel/vams_pci.c:445-468 | A request is cancelled only if the generation the driver stored differs from the one its doorbell was rung under |
| `DriverRuns.StaleIsPursued` | kernel/vams_pci.c:411-427 | A tracked request of another generation always has the reset work queued or about to visit it, or the device is being removed |
| `DriverRuns.LoadedIsLive` | kernel/vams_pci.c:451-455 | A request the reset work has loaded, under no reference of its own, is still there exactly while the device, a file, a caller or a wait refers to it |
| `DriverRuns.GoneIsLeftAlone` | kernel/vams_pci.c:451-457 | If it is gone it had ended, and whatever is read instead no request is touched |
| `DriverRuns.LoadedMayBeGone` | kernel/vams_pci.c:451-455 | A run in which it is gone: a NOP that is answered and returned between the load and the read |
| `DriverResets.CancelExactly` | kernel/vams_pci.c:411-427 | A request rung under the generation the driver believes in can be cancelled without any reset of the device exactly when the driver is behind the register or an observer holds an old reading |
| `DriverResets.CancelMeansReset` | kernel/vams_pci.c:411-468 | So over every run a cancel means a reset since, if neither was the case when the doorbell was rung |
| `DriverResets.LateReader` | kernel/vams_pci.c:411-427 | A run to the second case: of two observers of two resets the first to read stores last |
| `DriverResets.StepCurrent` | kernel/vams_pci.c:411-468 | For a driver in neither case a step without a reset of the device changes neither its generation nor that of the request, and does not cancel it |
| `DriverEffects.StepDoes` | kernel/vams_pci.c:655-1249 | What each step achieves in the tables: which entry it makes or takes out, and of which request |
| `DriverEffects.NothingIsLeft` | kernel/vams_pci.c:825-848 | Once all files are closed and neither the device nor an ioctl has a request, over every run, no request is pending or held, every mapping has been unmapped once and every file freed |
| `DriverProofs.StepKeeps` | kernel/vams_pci.c:250-1249 | One step of any ioctl, interrupt, work or close keeps every count and lifecycle rule |
| `DriverProofs.PutKeeps` | kernel/vams_pci.c:309-319 | Putting a request's last reference puts its mappings and its file, and every count stays exact |
| `DriverProofs.TrackKeeps` | kernel/vams_pci.c:655-687 | A new request enters both tables with one reference each |
| `DriverProofs.TerminateKeeps` | kernel/vams_pci.c:338-359 | Ending a request takes it out of the device's table with its outcome |
| `DriverProofs.ReapKeeps` | kernel/vams_pci.c:1234-1244 | A reap takes the request out of its file's table |
| `DriverProofs.WorkLoadKeeps` | kernel/vams_pci.c:445-451 | The reset work loads an entry of the device's table |
| `DriverProofs.WorkDecideKeeps` | kernel/vams_pci.c:452-467 | A loaded entry is cancelled exactly when it is stale and still in the table |
| `DriverProofs.DropMappingKeeps` | kernel/vams_pci.c:980-1006 | A mapping leaves its table with one put |
| `DriverProofs.CloseEndKeeps` | kernel/vams_pci.c:825-848 | Closing ends with the descriptor's reference |
| `HostChecks.PublishedRangesAreRegistered` | kernel/vams_pci.c:1034-1154 | Every range a published descriptor uses lies in a mapping of the same file with the needed permission |
| `HostChecks.SubmitExactly` | kernel/vams_pci.c:1034-1124 | SUBMIT publishes a descriptor exactly for a record within the bounds whose offsets lie inside registered buffers with the needed access and, for two ranges, share no address |
| `HostChecks.PublishedAsAsked` | kernel/vams_pci.c:1126-1154 | The descriptor is the user's record, with each address the device address of the buffer plus the offset asked for |
| `HostChecks.RefusedBecause` | kernel/vams_pci.c:1016-1030 | Each lookup error names a reason that holds of one of the buffers asked for |
| `HostChecks.LookupExactly` | kernel/vams_pci.c:1008-1032 | A lookup succeeds exactly for a range inside the buffer, with the access, not null and not past 2^64, and yields the buffer's address plus the offset |
| `HostChecks.PublishedIsChecked` | kernel/vams_pci.c:1034-1154 | A published descriptor has zero reserved fields, a length and timeout within bounds, and ranges that end before 2^64 and do not overlap |
| `HostChecks.HostChecksImplyAcceptance` | kernel/vams_pci.c:1034-1154 | Such a descriptor passes the firmware's rules, except that VECTOR_ADD may be refused, and then only for alignment |
| `HostChecks.NopAccepted` | kernel/vams_pci.c:1278-1294 | Every NOP the driver publishes is accepted |
| `HostChecks.LookupCovers` | kernel/vams_pci.c:1008-1032 | A successful lookup yields an address range inside the mapping |
| `Validation.RangeOverflowExact` | firmware/src/command/vams_command.c:14-26 | The wrapping comparison finds a range past 2^64 - 1 exactly |
| `Validation.RangeOverlapExact` | firmware/src/command/vams_command.c:14-26 | The wrapping comparison finds intersecting ranges exactly |
| `Validation.FirmwareAcceptsExactly` | firmware/src/command/vams_command.c:28-124 | The firmware accepts exactly the descriptors that satisfy the rules over mathematical integers |
| `Validation.FirmwareReportsFirstBroken` | firmware/src/command/vams_command.c:28-124 | Its code is the first broken rule's in the code's own order |
| `Validation.ValidatorsAgree` | qemu/patches/0007-hw-misc-add-vams-memory-copy-engine.patch:30-91 | The endpoint's validator returns the same code on every descriptor |
| `Validation.EndpointReports` | qemu/patches/0007-hw-misc-add-vams-memory-copy-engine.patch:30-91 | And reports the first broken rule |
| `Payload.ValidatedIsRunnable` | qemu/patches/0013-hw-misc-bound-vams-payload-dma-working-sets.patch:55-58 | A descriptor that passes validation gives the engine ranges it can handle |
| `Payload.AcceptedIsPerformed` | qemu/patches/0013-hw-misc-bound-vams-payload-dma-working-sets.patch:40-58 | The engine's own validation never refuses a payload that was accepted before it was started |
| `Payload.VerdictExactly` | qemu/patches/0013-hw-misc-bound-vams-payload-dma-working-sets.patch:176-199 | A payload that ran succeeds with every byte counted exactly when no checksum was to be compared or the bytes read have the one expected; otherwise CRC_MISMATCH with 0 bytes |
| `Payload.Engine.Execute` | qemu/patches/0013-hw-misc-bound-vams-payload-dma-working-sets.patch:40-199 | The 64 KiB loop leaves the same memory, checksum, status and byte count as the whole-buffer engine; no byte outside the destination changes; any failure reports zero bytes |
| `Payload.Engine.Chunks` | qemu/patches/0013-hw-misc-bound-vams-payload-dma-working-sets.patch:111-175 | The chunk loop, with its accumulated checksum |
| `Payload.AddInto` | qemu/patches/0010-hw-misc-add-vams-vector-add-engine.patch:86-93 | The in-place element loop leaves the word-wise sum of the two buffers |
| `Payload.AddWordMeaning` | qemu/patches/0010-hw-misc-add-vams-vector-add-engine.patch:86-93 | Each word is the sum modulo 2^32 |
| `Payload.AddWordsWordAt` | qemu/patches/0010-hw-misc-add-vams-vector-add-engine.patch:86-93 | Word by word over the whole buffer |
| `Payload.WholeMemoryAt` | qemu/patches/0007-hw-misc-add-vams-memory-copy-engine.patch:106-144 | What each opcode leaves at every address: the source, one byte, the vector sum, and nothing changed outside the destination |
| `Payload.WholeVectorAt` | qemu/patches/0010-hw-misc-add-vams-vector-add-engine.patch:86-93 | What VECTOR_ADD leaves at every word: the sum modulo 2^32 of the two words found |
| `Crc32.UpdateByte` | firmware/src/recovery/vams_retained.c:10-19 | The eight-step bit loop; `CrcAnswer.WordsComputeChecksum` has it in machine words |
| `Crc32.UpdateBuffer` | qemu/patches/0009-hw-misc-add-vams-crc32-engine.patch:71-87 | The byte loop |
| `Crc32.UpdateIsFeed` | firmware/src/recovery/vams_retained.c:10-34 | The byte-wise form is the bit-serial one on every message |
| `Crc32.FeedLinear` | firmware/src/recovery/vams_retained.c:10-19 | The step is linear over exclusive-or |
| `Crc32.FeedInjective` | firmware/src/recovery/vams_retained.c:10-19 | And injective in its state |
| `Crc32.ChecksumDetectsBurst` | firmware/src/recovery/vams_retained.c:10-34 | Messages that differ only within 32 consecutive bits have different checksums |
| `Polynomial.ChecksumIsRemainder` | qemu/patches/0009-hw-misc-add-vams-crc32-engine.patch:71-87 | For every message the checksum is the complement of the remainder, modulo the generator with exponents 32, 26, 23, 22, 16, 12, 11, 10, 8, 7, 5, 4, 2, 1, 0, of the message times x^32 with its first 32 bits complemented |
| `Polynomial.RemainderIsChecksum` | qemu/patches/0009-hw-misc-add-vams-crc32-engine.patch:71-87 | And it is the only one: any such remainder is the complement of the checksum |
| `Polynomial.DivisionIsUnique` | firmware/src/recovery/vams_retained.c:10-19 | Division of polynomials over two elements by one with leading coefficient 1 has one quotient and one remainder |
| `Polynomial.GeneratorIs` | firmware/src/recovery/vams_retained.c:16-16 | The constant 0xedb88320 is that generator, reflected and without its leading term |
| `CrcAnswer.WordsComputeChecksum` | firmware/src/recovery/vams_retained.c:10-34 | The loop over 32-bit machine words, with its mask of all ones or none, computes the checksum of every message |
| `CrcAnswer.KnownAnswer` | qemu/patches/0009-hw-misc-add-vams-crc32-engine.patch:71-87 | The checksum of "123456789" is 0xcbf43926 |
| `RetainedImage.ComputeSeal` | firmware/src/recovery/vams_retained.c:21-34 | The byte loop that reads the checksum field as zero |
| `RetainedImage.RecordRoundTrip` | firmware/src/recovery/vams_retained.c:80-83 | A record read back from its image is the record |
| `RetainedImage.WindowRoundTrip` | firmware/src/recovery/vams_retained.c:80-83 | And an image rebuilt from its record is the image |
| `RetainedImage.ImageLayout` | firmware/include/vams_retained.h:19-36 | Where the window keeps each field, and the k-th event at word 14 + 4k |
| `RetainedImage.AcceptedExactly` | firmware/src/recovery/vams_retained.c:36-42 | A window is accepted exactly with the magic, version 1, length 120 and the checksum of everything else with its own word read as zero |
| `RetainedImage.SealedValidates` | firmware/src/recovery/vams_retained.c:70-75 | A committed record validates whatever it holds |
| `RetainedImage.OneWordIsDetected` | firmware/src/recovery/vams_retained.c:36-42 | A valid record with any one aligned word changed, the checksum included, never validates |
| `RetainedEvents.ClearedIsRefused` | firmware/src/recovery/vams_retained.c:36-42 | A cleared window does not validate |
| `RetainedEvents.AcceptedWithAnyHead` | firmware/src/recovery/vams_retained.c:36-42 | Validation does not bound the event head |
| `RetainedEvents.LandExactly` | firmware/src/recovery/vams_retained.c:137-155 | Over any notes and warm resets every event store lands inside the ring exactly when the head starts inside or no event is noted |
| `RetainedEvents.AcceptedLandsExactly` | firmware/src/recovery/vams_retained.c:77-97 | So after a boot that accepted a window, the head the window holds decides |
| `RetainedEvents.RingHoldsLast` | firmware/src/recovery/vams_retained.c:137-155 | From any head inside, the ring goes on holding the last four of what it held followed by the events noted, and the count saturates at four |
| `RetainedEvents.FormattedHoldsLast` | firmware/src/recovery/vams_retained.c:137-155 | From a formatted record, entry n of the last four events is in slot n modulo 4 |
| `RetainedEvents.FieldsFollow` | firmware/src/recovery/vams_retained.c:77-135 | Over any notes and warm resets the boots are counted up to 2^32 - 1, and each other field holds what the last note about it said |
| `Retained.Keeper.constructor` | firmware/src/recovery/vams_retained.c:77-97 | Boot over any window: a refused one is formatted with boot count 1, an accepted one kept but for the boot count, one more and saturating, reason, generation and checksum |
| `Retained.Keeper.Boot` | firmware/src/recovery/vams_retained.c:77-97 | A warm reset always finds the window valid |
| `Retained.Keeper.NoteHealth` | firmware/src/recovery/vams_retained.c:107-115 | Only the health fields change |
| `Retained.Keeper.NoteCommand` | firmware/src/recovery/vams_retained.c:117-135 | Only the command fields change |
| `Retained.Keeper.NoteEvent` | firmware/src/recovery/vams_retained.c:137-155 | The event is stored in the slot of the head, which stays inside the ring |
| `Retained.Keeper.Run` | firmware/src/recovery/vams_retained.c:70-155 | Over any notes and warm resets, under exactly that condition, no store leaves the ring, the window always validates, its fields follow the notes and it holds the last four events |
| `HealthHistory.MissesMeaning` | firmware/src/health/vams_health.c:31-43 | A counter has n misses exactly when it is constant over the last n + 1 samples |
| `Health.Tracker.constructor` | firmware/src/health/vams_health.c:9-17 | The first sample is the baseline |
| `Health.Tracker.Scan` | firmware/src/health/vams_health.c:31-43 | One pass updates every counter and finds the lowest stuck one |
| `Health.Tracker.Update` | firmware/src/health/vams_health.c:19-56 | Unhealthy exactly when some counter is constant for max(1, limit) samples after the grace period; the lowest is named; failures are the saturating number of healthy-to-unhealthy edges |

## Left out

- The endpoint's debug fault and checkpoint block (patch 0015), migration state and interrupt vectors other than the completion source.
- The management peripheral's own registers, its retention window (patch 0021) and its side of reset serialization.
- Byte content across the two-process bridge: a firmware message is arbitrary, and order is proved for runs whose messages name their command.
- The endpoint's engine error bits and high-water counters are not kept.
- Payload buffers and rings are separate memories, so a payload that overwrites a ring is not modelled.
- Rings.Link.Run: one reset generation, with no firmware connected and no register writes but the doorbells after set-up.
- In the pipeline, a loop's work between two queue, slab or portal operations is one step, and clocks are unbounded.
- In the driver, the device's own reference count, wait-queue wake-ups, counters of completed and pending requests, and failed allocations are not kept; a submit refused before it is tracked returns every count it took under one hold of its file's lock and is no step.
- HostChecks.HostChecksImplyAcceptance: page pinning and DMA mapping calls are represented by the mapping they produce.
- PCI probe and remove sequencing, the self-tests, mailbox, UART, telemetry and event printing, which are plumbing.
- The firmware's overload, heartbeat and high-water diagnostics, which would only add counters.
