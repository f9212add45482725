/**
 What each step of the pipeline achieves: where the object it works on goes, first come first served.
 */
module PipelineEffects {
  import opened Abi
  import opened Validation
  import opened Scheduler
  import opened Pipeline
  import opened PipelineRules
  import opened PipelineProofs
  import opened PipelineRuns

  /** The queue gives up its first entry. */
  ghost predicate Served(before: seq<Id>, after: seq<Id>, id: Id) { before == [id] + after }

  /** The receiver and the validator loop. */
  ghost predicate EntryDoes(s: Sys, e: Event, t: Sys) {
    match e
    case Admit => t.receiver == RAdmitted && t.free == s.free
    case Allocate(id) => t.receiver == RAllocated(id) && t.free == s.free - {id} && t.pool[id] == CLEARED
    case Receive(None) => s.receiver.RAllocated? ==> t.receiver == RWaits && t.free == s.free + {s.receiver.id}
    case Receive(Some(d)) =>
      s.receiver.RAllocated? ==>
        var id := s.receiver.id;
        && t.receiver == RCaptured(id) && t.arrivals == s.arrivals + [Arrival(d, s.now, id)]
        && t.pool[id].submission == d && t.pool[id].state == Submitted && t.pool[id].capturedAt == s.now
    case PutValidation =>
      s.receiver.RCaptured? ==> t.receiver == RWaits && t.validation == s.validation + [s.receiver.id]
    case GetValidation => t.validator.VHolds? && Served(s.validation, t.validation, t.validator.id)
    case Validated(_) =>
      s.validator.VHolds? ==>
        var id := s.validator.id;
        && t.validator == VWaits
        && if Acceptable(s.pool[id].submission)
           then t.ready == s.ready + [id] && t.completion == s.completion && t.pool[id].state == Queued
           else t.completion == s.completion + [id] && t.ready == s.ready && t.pool[id].state == CompletedError
    case _ => true
  }

  /** The scheduler loop. */
  ghost predicate SchedulerDoes(s: Sys, e: Event, t: Sys) {
    match e
    case GetReady => exists id: Id :: Served(s.ready, t.ready, id) && t.batch == s.batch + [id]
    case Pick(index) =>
      index < |s.batch| ==>
        t.dispatcher == DPicked(s.batch[index]) && multiset(t.batch) + multiset{s.batch[index]} == multiset(s.batch)
    case Decide(_) =>
      s.dispatcher.DPicked? ==>
        var id := s.dispatcher.id;
        t.dispatcher ==
        if IsPayload(s.pool[id].submission.opcode) && s.now < s.pool[id].deadline then DAuthorizes(id, s.now)
        else DFinished(id)
    case Authorize(accepted) =>
      s.dispatcher.DAuthorizes? ==>
        t.dispatcher == if accepted then DAuthorized(s.dispatcher.id) else DHalted(s.dispatcher.id)
    case PutRunning =>
      s.dispatcher.DAuthorized? ==> t.dispatcher == DWaits && t.running == s.running + [s.dispatcher.id]
    case PutDispatched =>
      s.dispatcher.DFinished? ==> t.dispatcher == DWaits && t.completion == s.completion + [s.dispatcher.id]
    case _ => true
  }

  /** The recovery and the completion loop. */
  ghost predicate ExitDoes(s: Sys, e: Event, t: Sys) {
    match e
    case GetRunning => t.recovery.XPolls? && Served(s.running, t.running, t.recovery.id)
    case Poll(result, _) =>
      s.recovery.XPolls? ==>
        var id := s.recovery.id;
        t.recovery == if result.Some? then XFinished(id) else if s.now < s.pool[id].deadline then s.recovery
                      else XAborts(id)
    case Abort => s.recovery.XAborts? ==> t.recovery == XGrace(s.recovery.id)
    case Grace(_, _) => s.recovery.XGrace? ==> t.recovery == XFinished(s.recovery.id)
    case PutRecovered =>
      s.recovery.XFinished? ==> t.recovery == XWaits && t.completion == s.completion + [s.recovery.id]
    case GetCompletion => t.publisher.PHolds? && Served(s.completion, t.completion, t.publisher.id)
    case Publish(accepted) =>
      s.publisher.PHolds? ==>
        t.publisher == if accepted then PPublished(s.publisher.id) else PHalted(s.publisher.id)
    case Release => s.publisher.PPublished? ==> t.publisher == PWaits && t.free == s.free + {s.publisher.id}
    case _ => true
  }

  lemma EntryStepDoes(s: Sys, e: Event)
    requires Inv(s) && Enabled(s, e) && Asserts(s, e)
    ensures EntryDoes(s, e, Step(s, e))
  {
    if e.Validated? {
      assert Good(s, s.validator.id);
      ValidateOutcome(s.pool[s.validator.id], e.stamp);
    }
  }

  lemma SchedulerStepDoes(s: Sys, e: Event)
    requires Inv(s) && Enabled(s, e) && Asserts(s, e)
    ensures SchedulerDoes(s, e, Step(s, e))
  {
    if e.GetReady? {
      assert Served(s.ready, Step(s, e).ready, s.ready[0]);
    } else if e.Pick? {
      SwapRemoveKeeps(s.batch, e.index);
    } else if e.Decide? {
      NeverStale(s);
    }
  }

  lemma ExitStepDoes(s: Sys, e: Event)
    requires Inv(s) && Enabled(s, e) && Asserts(s, e)
    ensures ExitDoes(s, e, Step(s, e))
  {
  }

  // ---------------------------------------------------------------- validated in the order captured

  /** The commands between capture and validation, first come first. */
  ghost function Line(s: Sys): seq<Id> {
    (if s.validator.VHolds? then [s.validator.id] else []) + s.validation +
    (if s.receiver.RCaptured? then [s.receiver.id] else [])
  }

  ghost predicate Ascending(ids: seq<Id>, ticket: seq<nat>)
    requires |ticket| == POOL
  {
    forall i, j :: 0 <= i < j < |ids| ==> ticket[ids[i]] < ticket[ids[j]]
  }

  ghost predicate InCaptureOrder(s: Sys) { |s.ticket| == POOL && Ascending(Line(s), s.ticket) }

  lemma LineIsPlaced(s: Sys, i: nat)
    requires Inv(s) && i < |Line(s)|
    ensures var id := Line(s)[i];
            && (s.place[id] == Place.Validating || s.place[id] == InValidation || s.place[id] == Received)
            && s.ticket[id] < |s.arrivals|
  {
    var id := Line(s)[i];
    assert Counted(s.validation, s.place, InValidation, id) && HandOk(s, id);
    assert id in s.validation ==> id in multiset(s.validation);
    assert Good(s, id);
  }

  /** Only these change the line; the others leave the two loops, the queue and the tickets alone. */
  predicate OfLine(e: Event) { e.Receive? || e.PutValidation? || e.GetValidation? || e.Validated? }

  lemma OthersKeepLine(s: Sys, e: Event)
    requires |s.place| == |s.ticket| == POOL && Enabled(s, e) && Asserts(s, e) && !OfLine(e)
    ensures Line(Step(s, e)) == Line(s) && Step(s, e).ticket == s.ticket
  {
  }

  lemma ReceiveOrdered(s: Sys, d: Option<Submission>)
    requires Inv(s) && InCaptureOrder(s) && s.receiver.RAllocated?
    requires d.Some? ==> s.pool[s.receiver.id].state == Free
    ensures InCaptureOrder(ReceiveStep(s, d))
  {
    var t := ReceiveStep(s, d);
    if d.Some? {
      assert Line(t) == Line(s) + [s.receiver.id];
      forall i | 0 <= i < |Line(s)| ensures t.ticket[Line(s)[i]] == s.ticket[Line(s)[i]] < |s.arrivals| {
        LineIsPlaced(s, i);
      }
    } else {
      assert Line(t) == Line(s);
    }
  }

  lemma PutMoves(s: Sys)
    requires |s.place| == POOL && s.receiver.RCaptured? && |s.validation| < POOL
    ensures Line(PutValidationStep(s)) == Line(s) && PutValidationStep(s).ticket == s.ticket
  {
  }

  lemma GetMoves(s: Sys)
    requires |s.place| == POOL && s.validator.VWaits? && s.validation != []
    ensures Line(GetValidationStep(s)) == Line(s) && GetValidationStep(s).ticket == s.ticket
  {
    assert s.validation == [s.validation[0]] + s.validation[1..];
  }

  lemma ValidatedMoves(s: Sys, stamp: nat)
    requires |s.place| == POOL && s.validator.VHolds?
    requires s.pool[s.validator.id].state == Submitted && |s.completion| < POOL && |s.ready| < POOL
    ensures Line(ValidatedStep(s, stamp)) == Line(s)[1..] && ValidatedStep(s, stamp).ticket == s.ticket
  {
  }

  lemma StepOrdered(s: Sys, e: Event)
    requires Inv(s) && InCaptureOrder(s) && Enabled(s, e) && Asserts(s, e)
    ensures InCaptureOrder(Step(s, e))
  {
    if !OfLine(e) {
      OthersKeepLine(s, e);
    } else if e.Receive? {
      ReceiveOrdered(s, e.descriptor);
    } else if e.PutValidation? {
      PutMoves(s);
    } else if e.GetValidation? {
      GetMoves(s);
    } else {
      ValidatedMoves(s, e.stamp);
    }
  }

  lemma RunOrdered(trace: seq<Sys>, events: seq<Event>, n: nat)
    requires IsRun(trace, events) && n < |trace|
    ensures InCaptureOrder(trace[n])
  {
    for i := 0 to n
      invariant InCaptureOrder(trace[i])
    {
      RunKeepsInv(trace, events, i);
      assert Goes(trace, events, i);
      StepOrdered(trace[i], events[i]);
    }
  }

  /** Over every run the validator holds the command captured first of those not yet validated. */
  lemma ValidatesInCaptureOrder(trace: seq<Sys>, events: seq<Event>, n: nat, id: Id)
    requires IsRun(trace, events) && n < |trace| && trace[n].validator.VHolds? && |trace[n].ticket| == POOL
    requires id in trace[n].validation || trace[n].receiver == RCaptured(id)
    ensures trace[n].ticket[trace[n].validator.id] < trace[n].ticket[id]
  {
    RunOrdered(trace, events, n);
    var s, line := trace[n], Line(trace[n]);
    assert line == [s.validator.id] + s.validation + (if s.receiver.RCaptured? then [s.receiver.id] else []);
    var j := |line| - 1;
    if id in s.validation {
      var i :| 0 <= i < |s.validation| && s.validation[i] == id;
      j := i + 1;
    }
    assert line[j] == id && line[0] == s.validator.id;
  }
}
