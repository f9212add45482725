/**
 Why the running queue needs the one-outstanding rule: without it a run from boot reaches a put
 that finds the single slot taken.
 */
module PipelineNeed {
  import opened Abi
  import opened Validation
  import opened Scheduler
  import opened Pipeline
  import opened PipelineRules
  import opened PipelineProofs
  import opened PipelineRuns

  /** `t` is reached from `s` by these events, with no assertion failing on the way. */
  ghost predicate Path(s: Sys, events: seq<Event>, t: Sys)
    decreases |events|
  {
    if events == [] then t == s
    else
      var most, e := events[..|events| - 1], events[|events| - 1];
      exists u :: Path(s, most, u) && Next(u, e, t)
  }

  lemma {:induction false} PathStep(s: Sys, events: seq<Event>, t: Sys, e: Event)
    requires Path(s, events, t) && Inv(t) && Enabled(t, e) && Asserts(t, e)
    ensures Path(s, events + [e], Step(t, e))
  {
    assert (events + [e])[..|events|] == events;
  }

  /** One enabled step further along a path that keeps the rules. */
  lemma Forward(s: Sys, events: seq<Event>, t: Sys, e: Event) returns (more: seq<Event>, u: Sys)
    requires Path(s, events, t) && Inv(t) && Enabled(t, e) && (e.PutRunning? ==> |t.running| < RUNNING_SLOTS)
    ensures Path(s, more, u) && Inv(u) && Asserts(t, e) && u == Step(t, e)
  {
    StepKeeps(t, e);
    PathStep(s, events, t, e);
    more, u := events + [e], Step(t, e);
  }

  /** The loops up to the dispatcher wait, with nothing queued between them. */
  predicate Idle(t: Sys) {
    && t.receiver == RWaits && t.validator == VWaits && t.dispatcher == DWaits
    && t.validation == [] && t.ready == [] && t.batch == []
  }

  lemma IsAllocated(s: Sys, events: seq<Event>, t: Sys, id: Id) returns (more: seq<Event>, u: Sys)
    requires Path(s, events, t) && Inv(t) && t.receiver == RWaits && id in t.free
    ensures Path(s, more, u) && Inv(u) && u.receiver == RAllocated(id) && u.free == t.free - {id}
    ensures u.validator == t.validator && u.dispatcher == t.dispatcher && u.validation == t.validation &&
            u.ready == t.ready
    ensures u.batch == t.batch && u.running == t.running && u.now == t.now
  {
    more, u := Forward(s, events, t, Admit);
    more, u := Forward(s, more, u, Allocate(id));
  }

  lemma IsCaptured(s: Sys, events: seq<Event>, t: Sys, id: Id, d: Submission) returns (more: seq<Event>, u: Sys)
    requires Path(s, events, t) && Inv(t) && t.receiver == RAllocated(id)
    ensures Path(s, more, u) && Inv(u) && u.receiver == RCaptured(id) && u.validation == t.validation
    ensures u.validator == t.validator && u.dispatcher == t.dispatcher && u.ready == t.ready
    ensures u.batch == t.batch && u.running == t.running && u.now == t.now && u.free == t.free
    ensures u.pool[id].submission == d && u.pool[id].deadline > u.now
  {
    more, u := Forward(s, events, t, Receive(Some(d)));
  }

  lemma IsQueued(s: Sys, events: seq<Event>, t: Sys, id: Id) returns (more: seq<Event>, u: Sys)
    requires Path(s, events, t) && Inv(t) && t.receiver == RCaptured(id)
    ensures Path(s, more, u) && Inv(u) && u.receiver == RWaits && u.validation == t.validation + [id]
    ensures u.validator == t.validator && u.dispatcher == t.dispatcher && u.ready == t.ready
    ensures u.batch == t.batch && u.running == t.running && u.now == t.now && u.free == t.free && u.pool == t.pool
  {
    more, u := Forward(s, events, t, PutValidation);
  }

  lemma IsTaken(s: Sys, events: seq<Event>, t: Sys, id: Id) returns (more: seq<Event>, u: Sys)
    requires Path(s, events, t) && Inv(t) && t.validator == VWaits && t.validation == [id]
    ensures Path(s, more, u) && Inv(u) && u.validator == VHolds(id) && u.validation == []
    ensures u.receiver == t.receiver && u.dispatcher == t.dispatcher && u.ready == t.ready
    ensures u.batch == t.batch && u.running == t.running && u.now == t.now && u.free == t.free && u.pool == t.pool
  {
    more, u := Forward(s, events, t, GetValidation);
  }

  lemma HeldIsSubmitted(t: Sys)
    requires Inv(t) && t.validator.VHolds?
    ensures t.pool[t.validator.id].state == Submitted
    ensures var c := t.pool[t.validator.id]; c.deadline == c.capturedAt + TimeoutOf(c.submission)
  {
    assert HandOk(t, t.validator.id) && Good(t, t.validator.id);
  }

  lemma IsValidated(s: Sys, events: seq<Event>, t: Sys, id: Id) returns (more: seq<Event>, u: Sys)
    requires Path(s, events, t) && Inv(t) && t.validator == VHolds(id) && Acceptable(t.pool[id].submission)
    ensures Path(s, more, u) && Inv(u) && u.validator == VWaits && u.ready == t.ready + [id]
    ensures u.receiver == t.receiver && u.dispatcher == t.dispatcher && u.validation == t.validation
    ensures u.batch == t.batch && u.running == t.running && u.now == t.now && u.free == t.free
    ensures u.pool[id].submission == t.pool[id].submission && u.pool[id].deadline == t.pool[id].deadline
  {
    HeldIsSubmitted(t);
    ValidateOutcome(t.pool[id], 0);
    more, u := Forward(s, events, t, Validated(0));
  }

  lemma IsBatched(s: Sys, events: seq<Event>, t: Sys, id: Id) returns (more: seq<Event>, u: Sys)
    requires Path(s, events, t) && Inv(t) && t.dispatcher == DWaits && t.ready == [id] && t.batch == []
    ensures Path(s, more, u) && Inv(u) && u.dispatcher == DWaits && u.ready == [] && u.batch == [id]
    ensures u.receiver == t.receiver && u.validator == t.validator && u.validation == t.validation
    ensures u.running == t.running && u.now == t.now && u.free == t.free && u.pool == t.pool
  {
    more, u := Forward(s, events, t, GetReady);
  }

  lemma IsPicked(s: Sys, events: seq<Event>, t: Sys, id: Id) returns (more: seq<Event>, u: Sys)
    requires Path(s, events, t) && Inv(t) && t.dispatcher == DWaits && t.ready == [] && t.batch == [id]
    ensures Path(s, more, u) && Inv(u) && u.dispatcher == DPicked(id) && u.ready == [] && u.batch == []
    ensures u.receiver == t.receiver && u.validator == t.validator && u.validation == t.validation
    ensures u.running == t.running && u.now == t.now && u.free == t.free && u.pool == t.pool
  {
    assert Commands(t, t.batch) == [t.pool[id]];
    more, u := Forward(s, events, t, Pick(0));
  }

  lemma IsAuthorized(s: Sys, events: seq<Event>, t: Sys, id: Id) returns (more: seq<Event>, u: Sys)
    requires Path(s, events, t) && Inv(t) && t.dispatcher == DPicked(id)
    requires IsPayload(t.pool[id].submission.opcode) && t.pool[id].deadline > t.now
    ensures Path(s, more, u) && Inv(u) && u.dispatcher == DAuthorized(id)
    ensures u.receiver == t.receiver && u.validator == t.validator && u.validation == t.validation && u.ready == t.ready
    ensures u.batch == t.batch && u.running == t.running && u.free == t.free
  {
    NeverStale(t);
    more, u := Forward(s, events, t, Decide(0));
    more, u := Forward(s, more, u, Authorize(true));
  }

  lemma IsReceived(s: Sys, events: seq<Event>, t: Sys, id: Id, d: Submission) returns (more: seq<Event>, u: Sys)
    requires Path(s, events, t) && Inv(t) && t.receiver == RWaits && id in t.free
    ensures Path(s, more, u) && Inv(u) && u.receiver == RCaptured(id) && u.free == t.free - {id}
    ensures u.validator == t.validator && u.dispatcher == t.dispatcher && u.validation == t.validation
    ensures u.ready == t.ready && u.batch == t.batch && u.running == t.running
    ensures u.pool[id].submission == d && u.pool[id].deadline > u.now
  {
    more, u := IsAllocated(s, events, t, id);
    more, u := IsCaptured(s, more, u, id, d);
  }

  lemma Enters(s: Sys, events: seq<Event>, t: Sys, id: Id, d: Submission) returns (more: seq<Event>, u: Sys)
    requires Path(s, events, t) && Inv(t) && Idle(t) && id in t.free
    ensures Path(s, more, u) && Inv(u) && u.validation == [id] && u.free == t.free - {id} && u.running == t.running
    ensures u.receiver == RWaits && u.validator == VWaits && u.dispatcher == DWaits && u.ready == [] && u.batch == []
    ensures u.pool[id].submission == d && u.pool[id].deadline > u.now
  {
    more, u := IsReceived(s, events, t, id, d);
    more, u := IsQueued(s, more, u, id);
  }

  lemma Proceeds(s: Sys, events: seq<Event>, t: Sys, id: Id) returns (more: seq<Event>, u: Sys)
    requires Path(s, events, t) && Inv(t) && t.validation == [id] && t.validator == VWaits && t.dispatcher == DWaits
    requires t.ready == [] && t.batch == [] && Acceptable(t.pool[id].submission) && t.pool[id].deadline > t.now
    ensures Path(s, more, u) && Inv(u) && u.dispatcher == DPicked(id) && u.free == t.free && u.running == t.running
    ensures u.receiver == t.receiver && u.validator == VWaits && u.validation == [] && u.ready == [] && u.batch == []
    ensures u.pool[id].submission == t.pool[id].submission && u.pool[id].deadline > u.now
  {
    more, u := IsTaken(s, events, t, id);
    more, u := IsValidated(s, more, u, id);
    more, u := IsBatched(s, more, u, id);
    more, u := IsPicked(s, more, u, id);
  }

  /** A payload travels from the portal to the dispatcher's authorization while nothing else moves. */
  lemma Travels(s: Sys, events: seq<Event>, t: Sys, id: Id, d: Submission) returns (more: seq<Event>, u: Sys)
    requires Path(s, events, t) && Inv(t) && Idle(t) && id in t.free && Acceptable(d) && IsPayload(d.opcode)
    ensures Path(s, more, u) && Inv(u) && u.dispatcher == DAuthorized(id)
    ensures u.receiver == RWaits && u.validator == VWaits && u.validation == [] && u.ready == [] && u.batch == []
    ensures u.running == t.running && u.free == t.free - {id}
  {
    more, u := Enters(s, events, t, id, d);
    more, u := Proceeds(s, more, u, id);
    more, u := IsAuthorized(s, more, u, id);
  }

  /**
   Any two payloads that validation lets through, sent without waiting: a run from boot reaches the
   second put with the slot taken, and the firmware's assertion fails.
   */
  lemma RuleIsNeeded(s: Sys, first: Submission, second: Submission) returns (events: seq<Event>, t: Sys)
    requires Init(s) && Runs(first) && Runs(second)
    ensures Path(s, events, t) && Enabled(t, PutRunning) && !Asserts(t, PutRunning)
  {
    InitHolds(s);
    events, t := Travels(s, [], s, 0, first);
    events, t := Forward(s, events, t, PutRunning);
    events, t := Travels(s, events, t, 1, second);
  }

  const CHECKSUM_OF_FOUR := ZERO_SUBMISSION.(version := DESC_VERSION_1, opcode := OP_CRC32, source := 4096, length := 4)

  /** And there are such payloads. */
  lemma SomePayloadRuns()
    ensures Runs(CHECKSUM_OF_FOUR)
  {
  }
}
