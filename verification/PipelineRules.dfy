/**
 What every step of the pipeline keeps.
 */
module PipelineRules {
  import opened Abi
  import opened Validation
  import opened Scheduler
  import opened Pipeline

  /** `q` holds exactly the objects placed at `p`, each once. */
  ghost predicate At(q: seq<Id>, place: seq<Place>, p: Place)
    requires |place| == POOL
  {
    forall id: Id :: Counted(q, place, p, id)
  }

  ghost predicate Counted(q: seq<Id>, place: seq<Place>, p: Place, id: Id)
    requires |place| == POOL
  {
    multiset(q)[id] == if place[id] == p then 1 else 0
  }

  ghost predicate QueuesPlaced(s: Sys)
    requires |s.place| == POOL
  {
    && At(s.validation, s.place, InValidation)
    && At(s.ready, s.place, InReady)
    && At(s.batch, s.place, InBatch)
    && At(s.running, s.place, InRunning)
    && At(s.completion, s.place, InCompletion)
  }

  /** An object placed at a point of a loop is the one that loop holds there. */
  ghost predicate HandOk(s: Sys, id: Id)
    requires |s.place| == POOL
  {
    && (id in s.free <==> s.place[id] == Slab)
    && match s.place[id]
    case Receiving => s.receiver == RAllocated(id)
    case Received => s.receiver == RCaptured(id)
    case Validating => s.validator == VHolds(id)
    case Picked => s.dispatcher == DPicked(id)
    case Authorizing => s.dispatcher.DAuthorizes? && s.dispatcher.id == id
    case Dispatching => s.dispatcher == DAuthorized(id)
    case Dispatched => s.dispatcher == DFinished(id)
    case DispatchHalted => s.dispatcher == DHalted(id)
    case Polling => s.recovery == XPolls(id)
    case Aborts => s.recovery == XAborts(id)
    case Granted => s.recovery == XGrace(id)
    case Recovered => s.recovery == XFinished(id)
    case Publishing => s.publisher == PHolds(id)
    case Published => s.publisher == PPublished(id)
    case PublishHalted => s.publisher == PHalted(id)
    case _ => true
  }

  // What a loop holds is placed at the point of the loop it has reached.

  ghost predicate ReceiverHand(r: Receiver, place: seq<Place>)
    requires |place| == POOL
  {
    match r
    case RAllocated(id) => place[id] == Receiving
    case RCaptured(id) => place[id] == Received
    case _ => true
  }

  ghost predicate ValidatorHand(v: Validator, place: seq<Place>)
    requires |place| == POOL
  {
    v.VHolds? ==> place[v.id] == Place.Validating
  }

  ghost predicate DispatcherHand(d: Dispatcher, place: seq<Place>)
    requires |place| == POOL
  {
    match d
    case DWaits => true
    case DPicked(id) => place[id] == Picked
    case DAuthorizes(id, _) => place[id] == Authorizing
    case DAuthorized(id) => place[id] == Dispatching
    case DFinished(id) => place[id] == Dispatched
    case DHalted(id) => place[id] == DispatchHalted
  }

  ghost predicate RecoveryHand(x: Recovery, place: seq<Place>)
    requires |place| == POOL
  {
    match x
    case XWaits => true
    case XPolls(id) => place[id] == Polling
    case XAborts(id) => place[id] == Aborts
    case XGrace(id) => place[id] == Granted
    case XFinished(id) => place[id] == Recovered
  }

  ghost predicate PublisherHand(p: Publisher, place: seq<Place>)
    requires |place| == POOL
  {
    match p
    case PWaits => true
    case PHolds(id) => place[id] == Publishing
    case PPublished(id) => place[id] == Published
    case PHalted(id) => place[id] == PublishHalted
  }

  ghost predicate HandsPlaced(s: Sys)
    requires |s.place| == POOL
  {
    && ReceiverHand(s.receiver, s.place)
    && ValidatorHand(s.validator, s.place)
    && DispatcherHand(s.dispatcher, s.place)
    && RecoveryHand(s.recovery, s.place)
    && PublisherHand(s.publisher, s.place)
    && (forall id: Id :: HandOk(s, id))
  }

  /** Every object is in exactly one place: the slab, one queue, or one loop's hands. */
  ghost predicate Placed(s: Sys) {
    && |s.place| == POOL
    && QueuesPlaced(s)
    && HandsPlaced(s)
  }

  /** What an object is for: nothing, about to be filled, an unpublished command, or a published one. */
  datatype Stage = Unused | Blank | Live(expected: CommandState) | Done | Spent

  function StageOf(p: Place): Stage {
    match p
    case Slab => Unused
    case Receiving => Blank
    case Received => Live(Submitted)
    case InValidation => Live(Submitted)
    case Validating => Live(Submitted)
    case InReady => Live(Queued)
    case InBatch => Live(Queued)
    case Picked => Live(Queued)
    case Authorizing => Live(Running)
    case Dispatching => Live(Running)
    case DispatchHalted => Live(Running)
    case InRunning => Live(Running)
    case Polling => Live(Running)
    case Aborts => Live(Aborting)
    case Granted => Live(Aborting)
    case Dispatched => Done
    case Recovered => Done
    case InCompletion => Done
    case Publishing => Done
    case PublishHalted => Done
    case Published => Spent
  }

  predicate Carries(stage: Stage) { stage.Live? || stage.Done? }

  /** The state a command in this stage has, and what is known of its contents. */
  ghost predicate Fits(c: Command, stage: Stage) {
    match stage
    case Unused => true
    case Blank => c == CLEARED
    case Live(expected) =>
      && c.state == expected
      && (expected == Queued || expected == Running ==> Accepted(c))
      && (expected == Running || expected == Aborting ==> IsPayload(c.submission.opcode))
      && (expected == Aborting ==> Answers(c.completion, c.submission) && Acceptable(c.submission))
    case Done => Settled(c)
    case Spent => Settled(c)
  }

  /** The object still holds what arrived under number `k`. */
  ghost predicate Tracks(c: Command, a: Arrival, k: nat, generation: u32) {
    && c.submission == a.submission
    && c.sequence == SequenceOf(k)
    && c.generation == generation
    && c.capturedAt == a.at
    && c.deadline == DeadlineOf(a)
  }

  /** The timeout asked for, or 30 s, after the capture. */
  function DeadlineOf(a: Arrival): nat {
    a.at + if a.submission.timeoutMs == 0 then 30000 else a.submission.timeoutMs
  }

  // ---------------------------------------------------------------- what is on record of an arrival

  /**
   The terminal completion an arrival deserves: a refusal with the first broken rule's code; a timeout
   exactly when the scheduler came to it at or after the deadline; success for a NOP in time; and for a
   payload the engine's own result if there is one that names it, and an engine failure otherwise.
   */
  ghost predicate Deserved(p: Publication, a: Arrival, log: Log) {
    var d, c := a.submission, p.completion;
    if !Acceptable(d) then
      && p.state == CompletedError && c.status == STATUS_INVALID && Reports(d, c.errorCode) && c.bytesProcessed == 0
      && log == NOTHING
    else
      && log.decided.Some?
      && if log.decided.value >= DeadlineOf(a) then
           && p.state == CompletedError && c.status == STATUS_TIMED_OUT && c.errorCode == ERR_TIMEOUT
           && c.bytesProcessed == 0 && log == NOTHING.(decided := log.decided)
         else if !IsPayload(d.opcode) then
           && p.state == Completed && c.status == STATUS_SUCCESS && c.errorCode == ERR_NONE && c.bytesProcessed == 0
           && log == NOTHING.(decided := log.decided)
         else
           && log.authorized.Some?
           && (log.result.None? ==> log.aborted.Some?)
           && if log.result.Some? && Answers(log.result.value, d) then
                c == log.result.value && p.state == if c.status == STATUS_SUCCESS then Completed else CompletedError
              else
                && p.state == CompletedError && c.status == STATUS_FAILED && c.errorCode == ERR_ENGINE
                && c.bytesProcessed == 0
  }

  /** What is on record of the arrival an object carries, by where the object is. */
  ghost predicate LogFits(p: Place, c: Command, a: Arrival, log: Log) {
    match StageOf(p)
    case Live(expected) =>
      if expected != Running && expected != Aborting then log == NOTHING
      else
        && log.decided.Some? && log.decided.value < DeadlineOf(a) && log.result.None?
        && (log.authorized.Some? <==> p != Authorizing && p != DispatchHalted)
        && (log.aborted.Some? <==> expected == Aborting)
    case Done => Deserved(Publication(c.completion, c.state), a, log)
    case _ => true
  }

  ghost predicate Good(s: Sys, id: Id)
    requires |s.place| == |s.ticket| == POOL
  {
    var stage, c, k := StageOf(s.place[id]), s.pool[id], s.ticket[id];
    && Fits(c, stage)
    && (stage != Unused ==> c.publications == 0)
    && (stage == Spent ==> k in s.published && s.published[k] == Publication(c.completion, c.state))
    && (Carries(stage) ==>
          && k < |s.arrivals| && s.arrivals[k].owner == id && k !in s.published
          && Tracks(c, s.arrivals[k], k, s.generation)
          && LogFits(s.place[id], c, s.arrivals[k], LogOf(s, k)))
  }

  /** A published completion is its own submission's, and its status agrees with the final state. */
  ghost predicate Correct(p: Publication, a: Arrival, log: Log) {
    && Answers(p.completion, a.submission)
    && (p.state == Completed <==> p.completion.status == STATUS_SUCCESS)
    && Deserved(p, a, log)
  }

  /** The arrival numbered `k` has been published, or the object that took it still carries it. */
  ghost predicate Accounted(s: Sys, k: nat)
    requires |s.place| == |s.ticket| == POOL && k < |s.arrivals|
  {
    if k in s.published then Correct(s.published[k], s.arrivals[k], LogOf(s, k))
    else Carries(StageOf(s.place[s.arrivals[k].owner])) && s.ticket[s.arrivals[k].owner] == k
  }

  /** Authorized only as an unexpired payload, at the scheduler's one look; aborted only after its deadline. */
  ghost predicate Timely(a: Arrival, log: Log) {
    && (log.authorized.Some? ==>
          && IsPayload(a.submission.opcode) && a.at <= log.authorized.value < DeadlineOf(a)
          && log.authorized == log.decided)
    && (log.aborted.Some? ==> log.authorized.Some? && log.aborted.value >= DeadlineOf(a))
  }

  ghost predicate Ledger(s: Sys)
    requires |s.place| == |s.ticket| == POOL
  {
    && s.sequence == Wrap32(|s.arrivals|)
    && (forall k :: k in s.published ==> k < |s.arrivals|)
    && (forall k :: k in s.logs ==> k < |s.arrivals|)
    && (forall k: nat :: k < |s.arrivals| ==> Accounted(s, k))
    && (forall k: nat :: k < |s.arrivals| ==> Timely(s.arrivals[k], LogOf(s, k)))
  }

  ghost predicate Contents(s: Sys) {
    && |s.place| == |s.ticket| == POOL
    && (forall id: Id :: Good(s, id))
    && Ledger(s)
  }

  /** No arrival is in the future, and the check behind a pending authorization passed. */
  ghost predicate Clocked(s: Sys) {
    && (forall k: nat :: k < |s.arrivals| ==> s.arrivals[k].at <= s.now)
    && (s.dispatcher.DAuthorizes? ==>
          var c := s.pool[s.dispatcher.id];
          && c.capturedAt <= s.dispatcher.checkedAt < c.deadline
          && |s.ticket| == POOL && LogOf(s, s.ticket[s.dispatcher.id]).decided == Some(s.dispatcher.checkedAt))
  }

  ghost predicate Inv(s: Sys) {
    Placed(s) && Contents(s) && Clocked(s)
  }
}
