/**
 The firmware command pipeline as an interleaved step system. Five cooperating loops pass eight
 slab objects through bounded queues; the portal, the clock and the interleaving are arbitrary.
 A step is one queue, slab or portal operation together with the local work that follows it.
 */
module Pipeline {
  import opened Abi
  import opened Validation
  import opened Scheduler

  const POOL := 8
  const RUNNING_SLOTS := 1

  type Id = i: nat | i < POOL

  type Pool = p: seq<Command> | |p| == POOL
    witness [CLEARED, CLEARED, CLEARED, CLEARED, CLEARED, CLEARED, CLEARED, CLEARED]

  datatype Receiver = RWaits | RAdmitted | RAllocated(id: Id) | RCaptured(id: Id)
  datatype Validator = VWaits | VHolds(id: Id)
  datatype Dispatcher =
    | DWaits | DPicked(id: Id) | DAuthorizes(id: Id, checkedAt: nat) | DAuthorized(id: Id)
    | DFinished(id: Id) | DHalted(id: Id)
  datatype Recovery = XWaits | XPolls(id: Id) | XAborts(id: Id) | XGrace(id: Id) | XFinished(id: Id)
  datatype Publisher = PWaits | PHolds(id: Id) | PPublished(id: Id) | PHalted(id: Id)

  /** A terminal completion handed to the portal, with the state its command was in. */
  datatype Publication = Publication(completion: Completion, state: CommandState)
  /** A descriptor taken from the portal: when, and into which object. */
  datatype Arrival = Arrival(submission: Submission, at: nat, owner: Id)

  /**
   What is on record of an arrival: when the scheduler looked at its deadline, when that look let a
   payload through to the engine, when its abort was requested, and the result the portal had for it.
   */
  datatype Log = Log(decided: Option<nat>, authorized: Option<nat>, aborted: Option<nat>, result: Option<Completion>)

  const NOTHING := Log(None, None, None, None)

  /** Where an object is: the slab, a queue, the ready array, or a loop at a given point of its body. */
  datatype Place =
    | Slab
    | InValidation | InReady | InBatch | InRunning | InCompletion
    | Receiving | Received
    | Validating
    | Picked | Authorizing | Dispatching | Dispatched | DispatchHalted
    | Polling | Aborts | Granted | Recovered
    | Publishing | Published | PublishHalted

  datatype Sys = Sys(
    pool: Pool,
    free: set<Id>,
    validation: seq<Id>, ready: seq<Id>, batch: seq<Id>, running: seq<Id>, completion: seq<Id>,
    receiver: Receiver, validator: Validator, dispatcher: Dispatcher, recovery: Recovery, publisher: Publisher,
    now: nat, generation: u32, sequence: u32,
    // history: arrivals in order and, by arrival number, what was published and what else is on record
    arrivals: seq<Arrival>,
    published: map<nat, Publication>,
    logs: map<nat, Log>,
    // where each object is, and the number of the arrival it carries
    place: seq<Place>,
    ticket: seq<nat>)

  function LogOf(s: Sys, k: nat): Log { if k in s.logs then s.logs[k] else NOTHING }

  // ---------------------------------------------------------------- steps

  datatype Event =
    | Tick(to: nat)
    | Admit | Allocate(id: Id) | Receive(descriptor: Option<Submission>) | PutValidation
    | GetValidation | Validated(stamp: nat)
    | GetReady | Pick(index: nat) | Decide(stamp: nat) | Authorize(accepted: bool) | PutRunning | PutDispatched
    | GetRunning | Poll(result: Option<Completion>, stamp: nat) | Abort | Grace(result: Option<Completion>, stamp: nat)
    | PutRecovered
    | GetCompletion | Publish(accepted: bool) | Release

  function Commands(s: Sys, ids: seq<Id>): seq<Command> {
    seq(|ids|, i requires 0 <= i < |ids| => s.pool[ids[i]])
  }

  /** When a loop can take a step; what the portal answers is part of the event. */
  ghost predicate Enabled(s: Sys, e: Event) {
    match e
    case Tick(to) => s.now <= to
    case Admit => s.receiver.RWaits? && s.free != {}
    case Allocate(id) => s.receiver.RAdmitted? && id in s.free
    case Receive(_) => s.receiver.RAllocated?
    case PutValidation => s.receiver.RCaptured?
    case GetValidation => s.validator.VWaits? && s.validation != []
    case Validated(_) => s.validator.VHolds?
    case GetReady => s.dispatcher.DWaits? && s.ready != [] && |s.batch| < POOL
    case Pick(index) => s.dispatcher.DWaits? && (s.ready == [] || |s.batch| == POOL) &&
        IsFirst(Commands(s, s.batch), index)
    case Decide(_) => s.dispatcher.DPicked?
    case Authorize(_) => s.dispatcher.DAuthorizes?
    case PutRunning => s.dispatcher.DAuthorized?
    case PutDispatched => s.dispatcher.DFinished?
    case GetRunning => s.recovery.XWaits? && s.running != []
    case Poll(_, _) => s.recovery.XPolls?
    case Abort => s.recovery.XAborts?
    case Grace(_, _) => s.recovery.XGrace?
    case PutRecovered => s.recovery.XFinished?
    case GetCompletion => s.publisher.PWaits? && s.completion != []
    case Publish(_) => s.publisher.PHolds?
    case Release => s.publisher.PPublished?
  }

  /** The assertions the source evaluates in a step: expected states, queue room, publication count. */
  ghost predicate Asserts(s: Sys, e: Event)
    requires Enabled(s, e)
  {
    match e
    case Receive(d) => d.Some? ==> s.pool[s.receiver.id].state == Free
    case PutValidation => |s.validation| < POOL
    case Validated(_) => s.pool[s.validator.id].state == Submitted && |s.completion| < POOL && |s.ready| < POOL
    case Decide(_) => s.pool[s.dispatcher.id].state == Queued
    case PutRunning => |s.running| < RUNNING_SLOTS
    case PutDispatched => |s.completion| < POOL
    case Poll(_, _) => s.pool[s.recovery.id].state == Running
    case Grace(_, _) => s.pool[s.recovery.id].state == Aborting
    case PutRecovered => |s.completion| < POOL
    case Release => Terminal(s.pool[s.publisher.id].state) && s.pool[s.publisher.id].publications == 0
    case _ => true
  }

  function Put(queue: seq<Id>, slots: nat, id: Id): seq<Id>
    requires |queue| < slots
  {
    queue + [id]
  }

  function Move(s: Sys, id: Id, to: Place): Sys
    requires |s.place| == POOL
  {
    s.(place := s.place[id := to])
  }

  /** Nothing is recorded and no object is released. */
  ghost predicate NoRecord(s: Sys, t: Sys) {
    t.arrivals == s.arrivals && t.published == s.published && t.logs == s.logs && t.free <= s.free
  }

  // the receiver loop

  function AllocateStep(s: Sys, id: Id): (t: Sys)
    requires |s.place| == POOL && s.receiver.RAdmitted? && id in s.free
    ensures NoRecord(s, t)
  {
    Move(s.(pool := s.pool[id := CLEARED], free := s.free - {id}, receiver := RAllocated(id)), id, Receiving)
  }

  function ReceiveStep(s: Sys, d: Option<Submission>): Sys
    requires |s.place| == |s.ticket| == POOL && s.receiver.RAllocated? &&
             (d.Some? ==> s.pool[s.receiver.id].state == Free)
  {
    var id := s.receiver.id;
    if d.None? then Move(s.(free := s.free + {id}, receiver := RWaits), id, Slab)
    else
      var k := |s.arrivals|;
      var n := Wrap32(s.sequence + 1);
      var c := Capture(s.pool[id].(submission := d.value), s.generation, n, s.now);
      Move(s.(pool := s.pool[id := c], receiver := RCaptured(id), sequence := n,
              arrivals := s.arrivals + [Arrival(d.value, s.now, id)], ticket := s.ticket[id := k]), id, Received)
  }

  function PutValidationStep(s: Sys): (t: Sys)
    requires |s.place| == POOL && s.receiver.RCaptured? && |s.validation| < POOL
    ensures NoRecord(s, t)
  {
    var id := s.receiver.id;
    Move(s.(receiver := RWaits, validation := Put(s.validation, POOL, id)), id, InValidation)
  }

  // the validator loop

  function GetValidationStep(s: Sys): (t: Sys)
    requires |s.place| == POOL && s.validation != []
    ensures NoRecord(s, t)
  {
    var id := s.validation[0];
    Move(s.(validation := s.validation[1..], validator := VHolds(id)), id, Place.Validating)
  }

  function ValidatedStep(s: Sys, stamp: nat): (t: Sys)
    requires |s.place| == POOL && s.validator.VHolds?
    requires s.pool[s.validator.id].state == Submitted && |s.completion| < POOL && |s.ready| < POOL
    ensures NoRecord(s, t)
  {
    var id := s.validator.id;
    var c := Validate(s.pool[id], stamp);
    var u := s.(pool := s.pool[id := c], validator := VWaits);
    if c.state == CompletedError then Move(u.(completion := Put(s.completion, POOL, id)), id, InCompletion)
    else Move(u.(ready := Put(s.ready, POOL, id)), id, InReady)
  }

  // the scheduler loop

  function GetReadyStep(s: Sys): (t: Sys)
    requires |s.place| == POOL && s.ready != []
    ensures NoRecord(s, t)
  {
    var id := s.ready[0];
    Move(s.(ready := s.ready[1..], batch := s.batch + [id]), id, InBatch)
  }

  function PickStep(s: Sys, index: nat): (t: Sys)
    requires |s.place| == POOL && index < |s.batch|
    ensures NoRecord(s, t)
  {
    var id := s.batch[index];
    Move(s.(batch := SwapRemove(s.batch, index), dispatcher := DPicked(id)), id, Picked)
  }

  /** What the scheduler makes of a picked command: cancelled, timed out, started, or (a NOP) completed. */
  function Decided(c: Command, generation: u32, now: nat, stamp: nat): Command
    requires c.state == Queued
  {
    if c.generation != generation then Cancel(c, stamp)
    else if Expired(c, now) then TimeOut(Transition(c, Queued, Aborting), stamp)
    else if IsPayload(c.submission.opcode) then Transition(c, Queued, Running)
    else Transition(Transition(c, Queued, Running), Running, Completed)
  }

  function DecideStep(s: Sys, stamp: nat): Sys
    requires |s.place| == |s.ticket| == POOL && s.dispatcher.DPicked? && s.pool[s.dispatcher.id].state == Queued
  {
    var id := s.dispatcher.id;
    var c := Decided(s.pool[id], s.generation, s.now, stamp);
    var log := LogOf(s, s.ticket[id]).(decided := Some(s.now));
    var u := s.(pool := s.pool[id := c], logs := s.logs[s.ticket[id] := log]);
    if c.state == Running then Move(u.(dispatcher := DAuthorizes(id, s.now)), id, Authorizing)
    else Move(u.(dispatcher := DFinished(id)), id, Dispatched)
  }

  function AuthorizeStep(s: Sys, accepted: bool): Sys
    requires |s.place| == |s.ticket| == POOL && s.dispatcher.DAuthorizes?
  {
    var id := s.dispatcher.id;
    if accepted then
      var log := LogOf(s, s.ticket[id]).(authorized := Some(s.dispatcher.checkedAt));
      Move(s.(dispatcher := DAuthorized(id), logs := s.logs[s.ticket[id] := log]), id, Dispatching)
    else Move(s.(dispatcher := DHalted(id)), id, DispatchHalted)
  }

  function PutRunningStep(s: Sys): (t: Sys)
    requires |s.place| == POOL && s.dispatcher.DAuthorized? && |s.running| < RUNNING_SLOTS
    ensures NoRecord(s, t)
  {
    var id := s.dispatcher.id;
    Move(s.(dispatcher := DWaits, running := Put(s.running, RUNNING_SLOTS, id)), id, InRunning)
  }

  function PutDispatchedStep(s: Sys): (t: Sys)
    requires |s.place| == POOL && s.dispatcher.DFinished? && |s.completion| < POOL
    ensures NoRecord(s, t)
  {
    var id := s.dispatcher.id;
    Move(s.(dispatcher := DWaits, completion := Put(s.completion, POOL, id)), id, InCompletion)
  }

  // the recovery loop

  function GetRunningStep(s: Sys): (t: Sys)
    requires |s.place| == POOL && s.running != []
    ensures NoRecord(s, t)
  {
    var id := s.running[0];
    Move(s.(running := s.running[1..], recovery := XPolls(id)), id, Polling)
  }

  /** The held command becomes `c`, which is terminal. */
  function Finish(s: Sys, c: Command): Sys
    requires |s.place| == POOL && !s.recovery.XWaits?
  {
    var id := s.recovery.id;
    Move(s.(pool := s.pool[id := c], recovery := XFinished(id)), id, Recovered)
  }

  /** The portal's result for the held command is on record. */
  function Noted(s: Sys, result: Completion): Sys
    requires |s.ticket| == POOL && !s.recovery.XWaits?
  {
    var k := s.ticket[s.recovery.id];
    s.(logs := s.logs[k := LogOf(s, k).(result := Some(result))])
  }

  /** The held command becomes `c`, which is to be aborted. */
  function StartAbort(s: Sys, c: Command): Sys
    requires |s.place| == |s.ticket| == POOL && !s.recovery.XWaits?
  {
    var id := s.recovery.id;
    var log := LogOf(s, s.ticket[id]).(aborted := Some(s.now));
    Move(s.(pool := s.pool[id := c], recovery := XAborts(id), logs := s.logs[s.ticket[id] := log]), id, Aborts)
  }

  function PollStep(s: Sys, result: Option<Completion>, stamp: nat): Sys
    requires |s.place| == |s.ticket| == POOL && s.recovery.XPolls? && s.pool[s.recovery.id].state == Running
  {
    var c := s.pool[s.recovery.id];
    if result.Some? then Finish(Noted(s, result.value), Settle(c, result.value, stamp))
    else if s.now < c.deadline then s
    else StartAbort(s, BeginAbort(c, stamp))
  }

  function AbortStep(s: Sys): (t: Sys)
    requires |s.place| == POOL && s.recovery.XAborts?
    ensures NoRecord(s, t)
  {
    Move(s.(recovery := XGrace(s.recovery.id)), s.recovery.id, Granted)
  }

  function GraceStep(s: Sys, result: Option<Completion>, stamp: nat): Sys
    requires |s.place| == |s.ticket| == POOL && s.recovery.XGrace? && s.pool[s.recovery.id].state == Aborting
  {
    var c := s.pool[s.recovery.id];
    if result.Some? then Finish(Noted(s, result.value), Settle(c, result.value, stamp))
    else Finish(s, Escalate(c, stamp))
  }

  function PutRecoveredStep(s: Sys): (t: Sys)
    requires |s.place| == POOL && s.recovery.XFinished? && |s.completion| < POOL
    ensures NoRecord(s, t)
  {
    var id := s.recovery.id;
    Move(s.(recovery := XWaits, completion := Put(s.completion, POOL, id)), id, InCompletion)
  }

  // the completion loop

  function GetCompletionStep(s: Sys): (t: Sys)
    requires |s.place| == POOL && s.completion != []
    ensures NoRecord(s, t)
  {
    var id := s.completion[0];
    Move(s.(completion := s.completion[1..], publisher := PHolds(id)), id, Publishing)
  }

  function PublishStep(s: Sys, accepted: bool): Sys
    requires |s.place| == |s.ticket| == POOL && s.publisher.PHolds?
  {
    var id := s.publisher.id;
    if accepted then
      var entry := Publication(s.pool[id].completion, s.pool[id].state);
      Move(s.(publisher := PPublished(id), published := s.published[s.ticket[id] := entry]), id, Published)
    else Move(s.(publisher := PHalted(id)), id, PublishHalted)
  }

  function ReleaseStep(s: Sys): Sys
    requires s.publisher.PPublished? && |s.place| == POOL
    requires Terminal(s.pool[s.publisher.id].state) && s.pool[s.publisher.id].publications == 0
  {
    var id := s.publisher.id;
    var done := MarkPublished(s.pool[id]);
    var freed := Transition(done, s.pool[id].state, Free);
    Move(s.(pool := s.pool[id := CLEARED], publisher := PWaits, free := s.free + {id}), id, Slab)
  }

  function Step(s: Sys, e: Event): Sys
    requires |s.place| == |s.ticket| == POOL && Enabled(s, e) && Asserts(s, e)
  {
    match e
    case Tick(to) => s.(now := to)
    case Admit => s.(receiver := RAdmitted)
    case Allocate(id) => AllocateStep(s, id)
    case Receive(d) => ReceiveStep(s, d)
    case PutValidation => PutValidationStep(s)
    case GetValidation => GetValidationStep(s)
    case Validated(stamp) => ValidatedStep(s, stamp)
    case GetReady => GetReadyStep(s)
    case Pick(index) => PickStep(s, index)
    case Decide(stamp) => DecideStep(s, stamp)
    case Authorize(accepted) => AuthorizeStep(s, accepted)
    case PutRunning => PutRunningStep(s)
    case PutDispatched => PutDispatchedStep(s)
    case GetRunning => GetRunningStep(s)
    case Poll(result, stamp) => PollStep(s, result, stamp)
    case Abort => AbortStep(s)
    case Grace(result, stamp) => GraceStep(s, result, stamp)
    case PutRecovered => PutRecoveredStep(s)
    case GetCompletion => GetCompletionStep(s)
    case Publish(accepted) => PublishStep(s, accepted)
    case Release => ReleaseStep(s)
  }
}
