/**
 That every step of the pipeline keeps its rules.
 */
module PipelineProofs {
  import opened Abi
  import opened Validation
  import opened Scheduler
  import opened Pipeline
  import opened PipelineRules

  // ---------------------------------------------------------------- counting

  ghost function Everything(): multiset<Id> { multiset{0, 1, 2, 3, 4, 5, 6, 7} }

  lemma OnceEach(id: Id)
    ensures Everything()[id] == 1
  {
  }

  lemma CardinalityOfSubset(a: multiset<Id>, b: multiset<Id>)
    requires a <= b
    ensures |a| <= |b|
  {
    assert b == a + (b - a);
  }

  /** A queue never holds all eight objects while one of them is elsewhere. */
  lemma RoomFor(q: seq<Id>, place: seq<Place>, p: Place, id: Id)
    requires |place| == POOL && At(q, place, p) && place[id] != p
    ensures |q| < POOL
  {
    var all := multiset(q) + multiset{id};
    assert Counted(q, place, p, id);
    forall x | x in all ensures all[x] <= Everything()[x] {
      assert x in q || x == id;
      assert Counted(q, place, p, x);
      OnceEach(x);
    }
    CardinalityOfSubset(all, Everything());
  }

  // ---------------------------------------------------------------- a step works on one object

  lemma KeptAt(q: seq<Id>, place: seq<Place>, p: Place, id: Id, to: Place)
    requires |place| == POOL && At(q, place, p) && place[id] != p && to != p
    ensures At(q, place[id := to], p)
  {
    var after := place[id := to];
    forall x: Id ensures Counted(q, after, p, x) { assert Counted(q, place, p, x); }
  }

  lemma PutAt(q: seq<Id>, place: seq<Place>, p: Place, id: Id)
    requires |place| == POOL && At(q, place, p) && place[id] != p
    ensures At(q + [id], place[id := p], p)
  {
    var grown, after := q + [id], place[id := p];
    forall x: Id ensures Counted(grown, after, p, x) { assert Counted(q, place, p, x); }
  }

  /** `rest` is `q` with one `id` taken out. */
  lemma TakenFrom(q: seq<Id>, rest: seq<Id>, place: seq<Place>, p: Place, id: Id, to: Place)
    requires |place| == POOL && At(q, place, p) && multiset(q) == multiset(rest) + multiset{id} && to != p
    ensures place[id] == p && At(rest, place[id := to], p)
  {
    assert Counted(q, place, p, id);
    assert multiset(q)[id] == (multiset(rest) + multiset{id})[id];
    var after := place[id := to];
    forall x: Id ensures Counted(rest, after, p, x) {
      assert Counted(q, place, p, x);
      assert multiset(q)[x] == (multiset(rest) + multiset{id})[x];
    }
  }

  lemma TakenHead(q: seq<Id>, place: seq<Place>, p: Place, to: Place)
    requires |place| == POOL && At(q, place, p) && q != [] && to != p
    ensures place[q[0]] == p && At(q[1..], place[q[0] := to], p)
  {
    assert q == [q[0]] + q[1..];
    TakenFrom(q, q[1..], place, p, q[0], to);
  }

  /** Moving an object leaves every queue it is not taken from or put in as it was. */
  lemma OtherQueues(s: Sys, id: Id, to: Place)
    requires |s.place| == POOL && QueuesPlaced(s)
    ensures s.place[id] != InValidation && to != InValidation ==> At(s.validation, s.place[id := to], InValidation)
    ensures s.place[id] != InReady && to != InReady ==> At(s.ready, s.place[id := to], InReady)
    ensures s.place[id] != InBatch && to != InBatch ==> At(s.batch, s.place[id := to], InBatch)
    ensures s.place[id] != InRunning && to != InRunning ==> At(s.running, s.place[id := to], InRunning)
    ensures s.place[id] != InCompletion && to != InCompletion ==> At(s.completion, s.place[id := to], InCompletion)
  {
    var from := s.place[id];
    if from != InValidation && to != InValidation { KeptAt(s.validation, s.place, InValidation, id, to); }
    if from != InReady && to != InReady { KeptAt(s.ready, s.place, InReady, id, to); }
    if from != InBatch && to != InBatch { KeptAt(s.batch, s.place, InBatch, id, to); }
    if from != InRunning && to != InRunning { KeptAt(s.running, s.place, InRunning, id, to); }
    if from != InCompletion && to != InCompletion { KeptAt(s.completion, s.place, InCompletion, id, to); }
  }

  datatype Loop = Nobody | TheReceiver | TheValidator | TheDispatcher | TheRecovery | ThePublisher

  function LoopOf(p: Place): Loop {
    match p
    case Receiving => TheReceiver
    case Received => TheReceiver
    case Validating => TheValidator
    case Picked => TheDispatcher
    case Authorizing => TheDispatcher
    case Dispatching => TheDispatcher
    case Dispatched => TheDispatcher
    case DispatchHalted => TheDispatcher
    case Polling => TheRecovery
    case Aborts => TheRecovery
    case Granted => TheRecovery
    case Recovered => TheRecovery
    case Publishing => ThePublisher
    case Published => ThePublisher
    case PublishHalted => ThePublisher
    case _ => Nobody
  }

  /** A loop changes only if the object moves into or out of its hands, and then it held nothing else. */
  ghost predicate LoopsKept(s: Sys, t: Sys, id: Id, from: Loop, to: Loop)
    requires |t.place| == POOL
  {
    && (if from == TheReceiver || to == TheReceiver
        then ReceiverHand(t.receiver, t.place) && (s.receiver.RWaits? || s.receiver.RAdmitted? || s.receiver.id == id)
        else t.receiver == s.receiver)
    && (if from == TheValidator || to == TheValidator
        then ValidatorHand(t.validator, t.place) && (s.validator.VWaits? || s.validator.id == id)
        else t.validator == s.validator)
    && (if from == TheDispatcher || to == TheDispatcher
        then DispatcherHand(t.dispatcher, t.place) && (s.dispatcher.DWaits? || s.dispatcher.id == id)
        else t.dispatcher == s.dispatcher)
    && (if from == TheRecovery || to == TheRecovery
        then RecoveryHand(t.recovery, t.place) && (s.recovery.XWaits? || s.recovery.id == id)
        else t.recovery == s.recovery)
    && (if from == ThePublisher || to == ThePublisher
        then PublisherHand(t.publisher, t.place) && (s.publisher.PWaits? || s.publisher.id == id)
        else t.publisher == s.publisher)
  }

  lemma OtherHands(s: Sys, t: Sys, id: Id, from: Place, to: Place)
    requires |s.place| == POOL && HandsPlaced(s)
    requires s.place[id] == from && t.place == s.place[id := to]
    requires LoopsKept(s, t, id, LoopOf(from), LoopOf(to))
    requires t.free == if to == Slab then s.free + {id} else s.free - {id}
    requires HandOk(t, id)
    ensures HandsPlaced(t)
  {
    forall x: Id ensures HandOk(t, x) {
      assert HandOk(s, x);
      if x != id { OtherHand(s, t, id, from, to, x); }
    }
  }

  lemma OtherHand(s: Sys, t: Sys, id: Id, from: Place, to: Place, x: Id)
    requires |s.place| == POOL && HandOk(s, x) && x != id
    requires s.place[id] == from && t.place == s.place[id := to]
    requires LoopsKept(s, t, id, LoopOf(from), LoopOf(to))
    requires t.free == if to == Slab then s.free + {id} else s.free - {id}
    ensures HandOk(t, x)
  {
  }

  /** Nothing but `id` and the record of its arrival change, and nothing is captured or published. */
  ghost predicate Framed(s: Sys, t: Sys, id: Id)
    requires |s.ticket| == |s.place| == POOL
  {
    && |t.place| == POOL && t.place == s.place[id := t.place[id]]
    && t.pool == s.pool[id := t.pool[id]]
    && t.ticket == s.ticket && t.generation == s.generation && t.sequence == s.sequence
    && t.arrivals == s.arrivals && t.published == s.published
  }

  ghost predicate Quiet(s: Sys, t: Sys, id: Id)
    requires |s.ticket| == |s.place| == POOL
  {
    Framed(s, t, id) && t.logs == s.logs
  }

  ghost predicate Logging(s: Sys, t: Sys, id: Id)
    requires |s.ticket| == |s.place| == POOL
  {
    Framed(s, t, id) && t.logs == s.logs[s.ticket[id] := LogOf(t, s.ticket[id])]
  }

  /** The contents follow from the one object's own contents. */
  lemma QuietStep(s: Sys, t: Sys, id: Id)
    requires Contents(s) && Quiet(s, t, id) && Good(t, id)
    requires Carries(StageOf(t.place[id])) == Carries(StageOf(s.place[id]))
    ensures Contents(t)
  {
    forall x: Id ensures Good(t, x) { assert Good(s, x); }
    forall k: nat | k < |t.arrivals| ensures Accounted(t, k) && Timely(t.arrivals[k], LogOf(t, k)) {
      assert Accounted(s, k) && Timely(s.arrivals[k], LogOf(s, k));
    }
  }

  lemma LoggingGood(s: Sys, t: Sys, id: Id)
    requires Contents(s) && Logging(s, t, id) && Good(t, id) && Carries(StageOf(s.place[id])) && Good(s, id)
    ensures forall x: Id :: Good(t, x)
  {
    forall x: Id ensures Good(t, x) {
      assert Good(s, x);
      // another object that carries an arrival carries another one
      assert x != id && Carries(StageOf(s.place[x])) ==> s.ticket[x] != s.ticket[id];
    }
  }

  /** As `QuietStep`, for a step that records something about the command it works on. */
  lemma LoggingStep(s: Sys, t: Sys, id: Id)
    requires Contents(s) && Logging(s, t, id) && Good(t, id)
    requires Carries(StageOf(t.place[id])) && Carries(StageOf(s.place[id]))
    requires Good(s, id) && Timely(s.arrivals[s.ticket[id]], LogOf(t, s.ticket[id]))
    ensures Contents(t)
  {
    LoggingGood(s, t, id);
    forall k: nat | k < |t.arrivals| ensures Accounted(t, k) && Timely(t.arrivals[k], LogOf(t, k)) {
      assert Accounted(s, k) && Timely(s.arrivals[k], LogOf(s, k));
    }
  }

  /** An object whose stage changes but which still carries its capture. */
  lemma StillGood(s: Sys, t: Sys, id: Id)
    requires |s.place| == |s.ticket| == POOL && Framed(s, t, id) && Good(s, id)
    requires SameCapture(s.pool[id], t.pool[id]) && Fits(t.pool[id], StageOf(t.place[id]))
    requires Carries(StageOf(s.place[id])) && Carries(StageOf(t.place[id]))
    requires LogFits(t.place[id], t.pool[id], s.arrivals[s.ticket[id]], LogOf(t, s.ticket[id]))
    ensures Good(t, id)
  {
  }

  /** The step leaves the object carrying its arrival, with new contents that fit its new place. */
  lemma ChangeContents(s: Sys, t: Sys, id: Id, from: Place, to: Place)
    requires Contents(s) && Quiet(s, t, id) && s.place[id] == from && t.place[id] == to
    requires Carries(StageOf(from)) && Carries(StageOf(to)) && Good(s, id)
    requires SameCapture(s.pool[id], t.pool[id]) && Fits(t.pool[id], StageOf(to))
    requires LogFits(to, t.pool[id], s.arrivals[s.ticket[id]], LogOf(s, s.ticket[id]))
    ensures Contents(t)
  {
    StillGood(s, t, id);
    QuietStep(s, t, id);
  }

  /** As `ChangeContents`, for a step that records something about the command it works on. */
  lemma RecordContents(s: Sys, t: Sys, id: Id, from: Place, to: Place)
    requires Contents(s) && Logging(s, t, id) && s.place[id] == from && t.place[id] == to
    requires Carries(StageOf(from)) && Carries(StageOf(to)) && Good(s, id)
    requires SameCapture(s.pool[id], t.pool[id]) && Fits(t.pool[id], StageOf(to))
    requires var a, log := s.arrivals[s.ticket[id]], LogOf(t, s.ticket[id]);
             LogFits(to, t.pool[id], a, log) && Timely(a, log)
    ensures Contents(t)
  {
    StillGood(s, t, id);
    LoggingStep(s, t, id);
  }

  /** The step only takes the object to a place of the same stage. */
  lemma MoveContents(s: Sys, t: Sys, id: Id, from: Place, to: Place)
    requires Contents(s) && Quiet(s, t, id) && s.place[id] == from && t.place[id] == to
    requires t.pool == s.pool && StageOf(from) == StageOf(to) && Carries(StageOf(from))
    requires forall c, a, log :: LogFits(from, c, a, log) ==> LogFits(to, c, a, log)
    ensures Contents(t)
  {
    assert Good(s, id);
    ChangeContents(s, t, id, from, to);
  }

  // ---------------------------------------------------------------- the receiver loop

  lemma AllocateKeeps(s: Sys, id: Id)
    requires Inv(s) && s.receiver.RAdmitted? && id in s.free
    ensures Inv(AllocateStep(s, id))
  {
    var t := AllocateStep(s, id);
    assert HandOk(s, id);
    OtherQueues(s, id, Receiving);
    assert HandOk(s, id);
    OtherHands(s, t, id, s.place[id], t.place[id]);
    QuietStep(s, t, id);
  }

  lemma ReceiveNothingKeeps(s: Sys)
    requires Inv(s) && s.receiver.RAllocated?
    ensures Inv(ReceiveStep(s, None))
  {
    var id, t := s.receiver.id, ReceiveStep(s, None);
    OtherQueues(s, id, Slab);
    assert HandOk(s, id);
    OtherHands(s, t, id, s.place[id], t.place[id]);
    assert Good(s, id);
    QuietStep(s, t, id);
  }

  lemma NextSequence(n: nat)
    ensures Wrap32(Wrap32(n) + 1) == Wrap32(n + 1)
  {
  }

  lemma CapturePlaced(s: Sys, d: Submission)
    requires Placed(s) && |s.ticket| == POOL && s.receiver.RAllocated? && s.pool[s.receiver.id].state == Free
    ensures Placed(ReceiveStep(s, Some(d)))
  {
    var id, t := s.receiver.id, ReceiveStep(s, Some(d));
    OtherQueues(s, id, Received);
    assert HandOk(s, id);
    OtherHands(s, t, id, s.place[id], t.place[id]);
  }

  lemma CaptureGood(s: Sys, d: Submission)
    requires Contents(s) && s.receiver.RAllocated? && s.place[s.receiver.id] == Receiving
    requires s.pool[s.receiver.id] == CLEARED
    ensures forall x: Id :: Good(ReceiveStep(s, Some(d)), x)
  {
    var t := ReceiveStep(s, Some(d));
    NextSequence(|s.arrivals|);
    forall x: Id ensures Good(t, x) { assert Good(s, x); }
  }

  lemma CaptureLedger(s: Sys, d: Submission)
    requires Contents(s) && s.receiver.RAllocated? && s.place[s.receiver.id] == Receiving
    requires s.pool[s.receiver.id] == CLEARED
    ensures Ledger(ReceiveStep(s, Some(d)))
  {
    var t := ReceiveStep(s, Some(d));
    NextSequence(|s.arrivals|);
    forall k: nat | k < |t.arrivals| ensures Accounted(t, k) && Timely(t.arrivals[k], LogOf(t, k)) {
      if k < |s.arrivals| {
        assert Accounted(s, k) && Timely(s.arrivals[k], LogOf(s, k));
      }
    }
  }

  lemma CaptureContents(s: Sys, d: Submission)
    requires Contents(s) && s.receiver.RAllocated? && s.place[s.receiver.id] == Receiving
    ensures s.pool[s.receiver.id].state == Free && Contents(ReceiveStep(s, Some(d)))
  {
    assert Good(s, s.receiver.id);
    CaptureGood(s, d);
    CaptureLedger(s, d);
  }

  lemma ReceiveKeeps(s: Sys, d: Option<Submission>)
    requires Inv(s) && s.receiver.RAllocated?
    ensures s.pool[s.receiver.id].state == Free && Inv(ReceiveStep(s, d))
  {
    assert Good(s, s.receiver.id);
    match d
    case None => ReceiveNothingKeeps(s);
    case Some(v) =>
      CaptureContents(s, v);
      CapturePlaced(s, v);
  }

  lemma PutValidationPlaced(s: Sys)
    requires Placed(s) && s.receiver.RCaptured?
    ensures |s.validation| < POOL && Placed(PutValidationStep(s))
  {
    var id := s.receiver.id;
    RoomFor(s.validation, s.place, InValidation, id);
    var t := PutValidationStep(s);
    OtherQueues(s, id, InValidation);
    PutAt(s.validation, s.place, InValidation, id);
    assert HandOk(s, id);
    OtherHands(s, t, id, s.place[id], t.place[id]);
  }

  lemma PutValidationKeeps(s: Sys)
    requires Inv(s) && s.receiver.RCaptured?
    ensures |s.validation| < POOL && Inv(PutValidationStep(s))
  {
    PutValidationPlaced(s);
    MoveContents(s, PutValidationStep(s), s.receiver.id, Received, InValidation);
  }

  // ---------------------------------------------------------------- the validator loop

  lemma GetValidationPlaced(s: Sys)
    requires Placed(s) && s.validator.VWaits? && s.validation != []
    ensures s.place[s.validation[0]] == InValidation && Placed(GetValidationStep(s))
  {
    var id, t := s.validation[0], GetValidationStep(s);
    TakenHead(s.validation, s.place, InValidation, Place.Validating);
    OtherQueues(s, id, Place.Validating);
    assert HandOk(s, id);
    OtherHands(s, t, id, s.place[id], t.place[id]);
  }

  lemma GetValidationKeeps(s: Sys)
    requires Inv(s) && s.validator.VWaits? && s.validation != []
    ensures Inv(GetValidationStep(s))
  {
    GetValidationPlaced(s);
    MoveContents(s, GetValidationStep(s), s.validation[0], InValidation, Place.Validating);
  }

  lemma ValidatedPlaced(s: Sys, stamp: nat)
    requires Placed(s) && s.validator.VHolds? && s.pool[s.validator.id].state == Submitted
    ensures |s.completion| < POOL && |s.ready| < POOL && Placed(ValidatedStep(s, stamp))
  {
    var id := s.validator.id;
    RoomFor(s.completion, s.place, InCompletion, id);
    RoomFor(s.ready, s.place, InReady, id);
    var t := ValidatedStep(s, stamp);
    OtherQueues(s, id, t.place[id]);
    PutAt(s.ready, s.place, InReady, id);
    PutAt(s.completion, s.place, InCompletion, id);
    assert HandOk(s, id);
    OtherHands(s, t, id, s.place[id], t.place[id]);
  }

  lemma ValidatedQuiet(s: Sys, stamp: nat)
    requires |s.place| == |s.ticket| == POOL && s.validator.VHolds? && s.pool[s.validator.id].state == Submitted
    requires |s.completion| < POOL && |s.ready| < POOL
    ensures var t := ValidatedStep(s, stamp);
            && Quiet(s, t, s.validator.id)
            && t.pool[s.validator.id] == Validate(s.pool[s.validator.id], stamp)
            && t.place[s.validator.id] ==
               if t.pool[s.validator.id].state == CompletedError then InCompletion else InReady
  {
  }

  lemma ValidatedContents(s: Sys, stamp: nat)
    requires Contents(s) && s.validator.VHolds? && s.place[s.validator.id] == Place.Validating
    ensures s.pool[s.validator.id].state == Submitted
    ensures |s.completion| < POOL && |s.ready| < POOL ==> Contents(ValidatedStep(s, stamp))
  {
    var id := s.validator.id;
    assert Good(s, id);
    ValidateOutcome(s.pool[id], stamp);
    if |s.completion| < POOL && |s.ready| < POOL {
      ValidatedQuiet(s, stamp);
      var t := ValidatedStep(s, stamp);
      ChangeContents(s, t, id, Place.Validating, t.place[id]);
    }
  }

  lemma ValidatedKeeps(s: Sys, stamp: nat)
    requires Inv(s) && s.validator.VHolds?
    ensures s.pool[s.validator.id].state == Submitted && |s.completion| < POOL && |s.ready| < POOL
    ensures Inv(ValidatedStep(s, stamp))
  {
    ValidatedContents(s, stamp);
    ValidatedPlaced(s, stamp);
  }

  // ---------------------------------------------------------------- the scheduler loop

  lemma GetReadyPlaced(s: Sys)
    requires Placed(s) && s.ready != []
    ensures s.place[s.ready[0]] == InReady && Placed(GetReadyStep(s))
  {
    var id, t := s.ready[0], GetReadyStep(s);
    TakenHead(s.ready, s.place, InReady, InBatch);
    PutAt(s.batch, s.place, InBatch, id);
    OtherQueues(s, id, InBatch);
    assert HandOk(s, id);
    OtherHands(s, t, id, InReady, InBatch);
  }

  lemma GetReadyKeeps(s: Sys)
    requires Inv(s) && s.ready != []
    ensures Inv(GetReadyStep(s))
  {
    GetReadyPlaced(s);
    MoveContents(s, GetReadyStep(s), s.ready[0], InReady, InBatch);
  }

  lemma PickPlaced(s: Sys, index: nat)
    requires Placed(s) && s.dispatcher.DWaits? && index < |s.batch|
    ensures s.place[s.batch[index]] == InBatch && Placed(PickStep(s, index))
  {
    var id, t := s.batch[index], PickStep(s, index);
    SwapRemoveKeeps(s.batch, index);
    TakenFrom(s.batch, t.batch, s.place, InBatch, id, Picked);
    OtherQueues(s, id, Picked);
    assert HandOk(s, id);
    OtherHands(s, t, id, InBatch, Picked);
  }

  lemma PickKeeps(s: Sys, index: nat)
    requires Inv(s) && s.dispatcher.DWaits? && index < |s.batch|
    ensures Inv(PickStep(s, index))
  {
    PickPlaced(s, index);
    MoveContents(s, PickStep(s, index), s.batch[index], InBatch, Picked);
  }

  /** A loop that moves on with the object it holds, touching no queue. */
  lemma HandMovePlaced(s: Sys, t: Sys, id: Id, from: Place, to: Place)
    requires Placed(s) && s.place[id] == from && t.place == s.place[id := to]
    requires LoopOf(from) != Nobody && LoopOf(to) != Nobody
    requires LoopsKept(s, t, id, LoopOf(from), LoopOf(to)) && HandOk(t, id)
    requires t.free == s.free
    requires t.validation == s.validation && t.ready == s.ready && t.batch == s.batch
    requires t.running == s.running && t.completion == s.completion
    ensures Placed(t)
  {
    OtherQueues(s, id, to);
    assert HandOk(s, id);
    OtherHands(s, t, id, from, to);
  }

  lemma DecidePlaced(s: Sys, stamp: nat)
    requires Placed(s) && |s.ticket| == POOL && s.dispatcher.DPicked? && s.pool[s.dispatcher.id].state == Queued
    ensures Placed(DecideStep(s, stamp))
  {
    var id, t := s.dispatcher.id, DecideStep(s, stamp);
    assert HandOk(s, id);
    if t.dispatcher.DFinished? {
      HandMovePlaced(s, t, id, Picked, Dispatched);
    } else {
      HandMovePlaced(s, t, id, Picked, Authorizing);
    }
  }

  lemma DecidedFits(c: Command, generation: u32, now: nat, stamp: nat, a: Arrival)
    requires Fits(c, Live(Queued)) && c.generation == generation && c.submission == a.submission
    requires c.deadline == DeadlineOf(a)
    ensures var d := Decided(c, generation, now, stamp);
            && SameCapture(c, d) && Fits(d, if d.state == Running then Live(Running) else Done)
            && (d.state == Running <==> IsPayload(c.submission.opcode) && now < c.deadline)
            && (d.state == CompletedError ==> d.completion.timestamp == stamp % 0x1_0000_0000_0000_0000)
            && (d.state != Running ==>
                  Deserved(Publication(d.completion, d.state), a, NOTHING.(decided := Some(now))))
  {
  }

  lemma DecideLogs(s: Sys, stamp: nat)
    requires |s.place| == |s.ticket| == POOL && s.dispatcher.DPicked? && s.pool[s.dispatcher.id].state == Queued
    ensures var t, id := DecideStep(s, stamp), s.dispatcher.id;
            && Logging(s, t, id) && LogOf(t, s.ticket[id]) == LogOf(s, s.ticket[id]).(decided := Some(s.now))
            && t.pool[id] == Decided(s.pool[id], s.generation, s.now, stamp)
            && t.place[id] == if t.pool[id].state == Running then Authorizing else Dispatched
  {
  }

  lemma DecideContents(s: Sys, stamp: nat)
    requires Contents(s) && s.dispatcher.DPicked? && s.place[s.dispatcher.id] == Picked
    ensures s.pool[s.dispatcher.id].state == Queued && Contents(DecideStep(s, stamp))
  {
    var id := s.dispatcher.id;
    assert Good(s, id);
    DecidedFits(s.pool[id], s.generation, s.now, stamp, s.arrivals[s.ticket[id]]);
    DecideLogs(s, stamp);
    var t := DecideStep(s, stamp);
    RecordContents(s, t, id, Picked, t.place[id]);
  }

  lemma DecideClocked(s: Sys, stamp: nat)
    requires Contents(s) && Clocked(s) && s.dispatcher.DPicked? && s.place[s.dispatcher.id] == Picked
    requires s.pool[s.dispatcher.id].state == Queued
    ensures Clocked(DecideStep(s, stamp))
  {
    assert Good(s, s.dispatcher.id);
  }

  lemma DecideKeeps(s: Sys, stamp: nat)
    requires Inv(s) && s.dispatcher.DPicked?
    ensures s.pool[s.dispatcher.id].state == Queued && Inv(DecideStep(s, stamp))
  {
    DecideContents(s, stamp);
    DecidePlaced(s, stamp);
    DecideClocked(s, stamp);
  }

  lemma AuthorizePlaced(s: Sys, accepted: bool)
    requires Placed(s) && |s.ticket| == POOL && s.dispatcher.DAuthorizes?
    ensures Placed(AuthorizeStep(s, accepted))
  {
    var id, t := s.dispatcher.id, AuthorizeStep(s, accepted);
    assert HandOk(s, id);
    HandMovePlaced(s, t, id, Authorizing, if accepted then Dispatching else DispatchHalted);
  }

  lemma AuthorizeContents(s: Sys)
    requires Contents(s) && Clocked(s) && s.dispatcher.DAuthorizes? && s.place[s.dispatcher.id] == Authorizing
    ensures Contents(AuthorizeStep(s, true))
  {
    var id, t := s.dispatcher.id, AuthorizeStep(s, true);
    assert Good(s, id);
    assert Timely(s.arrivals[s.ticket[id]], LogOf(s, s.ticket[id]));
    RecordContents(s, t, id, Authorizing, Dispatching);
  }

  lemma AuthorizeKeeps(s: Sys, accepted: bool)
    requires Inv(s) && s.dispatcher.DAuthorizes?
    ensures LogOf(s, s.ticket[s.dispatcher.id]).authorized.None? && Inv(AuthorizeStep(s, accepted))
  {
    AuthorizePlaced(s, accepted);
    assert Good(s, s.dispatcher.id);
    if accepted {
      AuthorizeContents(s);
    } else {
      MoveContents(s, AuthorizeStep(s, false), s.dispatcher.id, Authorizing, DispatchHalted);
    }
  }

  lemma PutRunningPlaced(s: Sys)
    requires Placed(s) && s.dispatcher.DAuthorized? && |s.running| < RUNNING_SLOTS
    ensures Placed(PutRunningStep(s))
  {
    var id, t := s.dispatcher.id, PutRunningStep(s);
    PutAt(s.running, s.place, InRunning, id);
    OtherQueues(s, id, InRunning);
    assert HandOk(s, id);
    OtherHands(s, t, id, Dispatching, InRunning);
  }

  lemma PutRunningKeeps(s: Sys)
    requires Inv(s) && s.dispatcher.DAuthorized? && |s.running| < RUNNING_SLOTS
    ensures Inv(PutRunningStep(s))
  {
    PutRunningPlaced(s);
    MoveContents(s, PutRunningStep(s), s.dispatcher.id, Dispatching, InRunning);
  }

  lemma PutDispatchedPlaced(s: Sys)
    requires Placed(s) && s.dispatcher.DFinished?
    ensures |s.completion| < POOL && Placed(PutDispatchedStep(s))
  {
    var id := s.dispatcher.id;
    RoomFor(s.completion, s.place, InCompletion, id);
    var t := PutDispatchedStep(s);
    PutAt(s.completion, s.place, InCompletion, id);
    OtherQueues(s, id, InCompletion);
    assert HandOk(s, id);
    OtherHands(s, t, id, Dispatched, InCompletion);
  }

  lemma PutDispatchedKeeps(s: Sys)
    requires Inv(s) && s.dispatcher.DFinished?
    ensures |s.completion| < POOL && Inv(PutDispatchedStep(s))
  {
    PutDispatchedPlaced(s);
    MoveContents(s, PutDispatchedStep(s), s.dispatcher.id, Dispatched, InCompletion);
  }

  // ---------------------------------------------------------------- the recovery loop

  lemma GetRunningPlaced(s: Sys)
    requires Placed(s) && s.recovery.XWaits? && s.running != []
    ensures s.place[s.running[0]] == InRunning && Placed(GetRunningStep(s))
  {
    var id, t := s.running[0], GetRunningStep(s);
    TakenHead(s.running, s.place, InRunning, Polling);
    OtherQueues(s, id, Polling);
    assert HandOk(s, id);
    OtherHands(s, t, id, InRunning, Polling);
  }

  lemma GetRunningKeeps(s: Sys)
    requires Inv(s) && s.recovery.XWaits? && s.running != []
    ensures Inv(GetRunningStep(s))
  {
    GetRunningPlaced(s);
    MoveContents(s, GetRunningStep(s), s.running[0], InRunning, Polling);
  }

  /** What the recovery manager makes of a result, or of none, is what the arrival deserves. */
  lemma RecoverGood(c: Command, result: Completion, stamp: nat, a: Arrival, log: Log)
    requires Fits(c, Live(Running)) || Fits(c, Live(Aborting))
    requires c.submission == a.submission && Acceptable(a.submission)
    requires log.decided.Some? && log.decided.value < DeadlineOf(a) && log.authorized.Some?
    ensures var t := Settle(c, result, stamp);
            && Settled(t) && SameCapture(c, t)
            && Deserved(Publication(t.completion, t.state), a, log.(result := Some(result)))
    ensures var t := Escalate(c, stamp);
            && Settled(t) && SameCapture(c, t)
            && t.completion.timestamp == stamp % 0x1_0000_0000_0000_0000
            && (log.aborted.Some? ==> Deserved(Publication(t.completion, t.state), a, log.(result := None)))
    ensures c.state == Running ==> Fits(BeginAbort(c, stamp), Live(Aborting)) && SameCapture(c, BeginAbort(c, stamp))
  {
  }

  lemma FinishPlaced(s: Sys, c: Command)
    requires Placed(s) && (s.recovery.XPolls? || s.recovery.XGrace?)
    ensures Placed(Finish(s, c))
  {
    var id := s.recovery.id;
    assert HandOk(s, id);
    HandMovePlaced(s, Finish(s, c), id, s.place[id], Recovered);
  }

  /** Placement does not look at the record. */
  lemma NotedPlaced(s: Sys, result: Completion)
    requires Placed(s) && |s.ticket| == POOL && !s.recovery.XWaits?
    ensures Placed(Noted(s, result))
  {
    var t := Noted(s, result);
    forall x: Id ensures HandOk(t, x) { assert HandOk(s, x); }
  }

  /** The recovery loop holds a command that is running or being aborted. */
  ghost predicate InRecovery(s: Sys) {
    && |s.place| == |s.ticket| == POOL
    && (s.recovery.XPolls? || s.recovery.XGrace?)
    && Good(s, s.recovery.id)
    && s.place[s.recovery.id] == if s.recovery.XPolls? then Polling else Granted
  }

  lemma FinishLogs(s: Sys, result: Completion, c: Command)
    requires |s.place| == |s.ticket| == POOL && !s.recovery.XWaits?
    ensures var t, id := Finish(Noted(s, result), c), s.recovery.id;
            && Logging(s, t, id) && LogOf(t, s.ticket[id]) == LogOf(s, s.ticket[id]).(result := Some(result))
            && t.pool[id] == c && t.place[id] == Recovered
  {
  }

  lemma HeldRecord(s: Sys)
    requires Contents(s) && InRecovery(s)
    ensures var id, k := s.recovery.id, s.ticket[s.recovery.id];
            && k < |s.arrivals| && Timely(s.arrivals[k], LogOf(s, k)) && Acceptable(s.arrivals[k].submission)
            && (Fits(s.pool[id], Live(Running)) || Fits(s.pool[id], Live(Aborting)))
            && LogFits(s.place[id], s.pool[id], s.arrivals[k], LogOf(s, k))
            && s.pool[id].submission == s.arrivals[k].submission
  {
  }

  lemma SettleContents(s: Sys, result: Completion, stamp: nat)
    requires Contents(s) && InRecovery(s)
    ensures s.pool[s.recovery.id].state == Running || s.pool[s.recovery.id].state == Aborting
    ensures Contents(Finish(Noted(s, result), Settle(s.pool[s.recovery.id], result, stamp)))
  {
    SettledRecord(s, result, stamp);
    var id := s.recovery.id;
    var c := Settle(s.pool[id], result, stamp);
    FinishLogs(s, result, c);
    RecordContents(s, Finish(Noted(s, result), c), id, s.place[id], Recovered);
  }

  lemma SettledRecord(s: Sys, result: Completion, stamp: nat)
    requires Contents(s) && InRecovery(s)
    ensures s.pool[s.recovery.id].state == Running || s.pool[s.recovery.id].state == Aborting
    ensures var id, k := s.recovery.id, s.ticket[s.recovery.id];
            var c, log := Settle(s.pool[id], result, stamp), LogOf(s, k).(result := Some(result));
            && Carries(StageOf(s.place[id])) && SameCapture(s.pool[id], c) && Fits(c, Done)
            && k < |s.arrivals| && LogFits(Recovered, c, s.arrivals[k], log) && Timely(s.arrivals[k], log)
  {
    HeldRecord(s);
    var id, k := s.recovery.id, s.ticket[s.recovery.id];
    RecoverGood(s.pool[id], result, stamp, s.arrivals[k], LogOf(s, k));
  }

  lemma SettleKeeps(s: Sys, result: Completion, stamp: nat)
    requires Inv(s) && InRecovery(s)
    ensures Inv(Finish(Noted(s, result), Settle(s.pool[s.recovery.id], result, stamp)))
  {
    SettleContents(s, result, stamp);
    NotedPlaced(s, result);
    FinishPlaced(Noted(s, result), Settle(s.pool[s.recovery.id], result, stamp));
  }

  lemma EscalateKeeps(s: Sys, stamp: nat)
    requires Inv(s) && InRecovery(s) && s.recovery.XGrace?
    ensures Inv(Finish(s, Escalate(s.pool[s.recovery.id], stamp)))
  {
    var id, k := s.recovery.id, s.ticket[s.recovery.id];
    FinishPlaced(s, Escalate(s.pool[id], stamp));
    RecoverGood(s.pool[id], ZERO_COMPLETION, stamp, s.arrivals[k], LogOf(s, k));
    ChangeContents(s, Finish(s, Escalate(s.pool[id], stamp)), id, Granted, Recovered);
  }

  lemma StartAbortPlaced(s: Sys, c: Command)
    requires Placed(s) && |s.ticket| == POOL && s.recovery.XPolls?
    ensures Placed(StartAbort(s, c))
  {
    assert HandOk(s, s.recovery.id);
    HandMovePlaced(s, StartAbort(s, c), s.recovery.id, Polling, Aborts);
  }

  lemma StartAbortContents(s: Sys, c: Command)
    requires Contents(s) && s.recovery.XPolls? && s.place[s.recovery.id] == Polling
    requires SameCapture(s.pool[s.recovery.id], c) && Fits(c, Live(Aborting)) && s.now >= c.deadline
    ensures Contents(StartAbort(s, c))
  {
    var id, t := s.recovery.id, StartAbort(s, c);
    assert Good(s, id);
    assert Timely(s.arrivals[s.ticket[id]], LogOf(s, s.ticket[id]));
    RecordContents(s, t, id, Polling, Aborts);
  }

  lemma StartAbortKeeps(s: Sys, c: Command)
    requires Inv(s) && s.recovery.XPolls? && SameCapture(s.pool[s.recovery.id], c) && Fits(c, Live(Aborting))
    requires s.now >= c.deadline
    ensures LogOf(s, s.ticket[s.recovery.id]).aborted.None? && Inv(StartAbort(s, c))
  {
    StartAbortPlaced(s, c);
    StartAbortContents(s, c);
    assert Good(s, s.recovery.id);
  }

  lemma PollKeeps(s: Sys, result: Option<Completion>, stamp: nat)
    requires Inv(s) && s.recovery.XPolls?
    ensures s.pool[s.recovery.id].state == Running && Inv(PollStep(s, result, stamp))
  {
    var c := s.pool[s.recovery.id];
    assert Good(s, s.recovery.id);
    if result.Some? {
      SettleKeeps(s, result.value, stamp);
    } else if s.now >= c.deadline {
      StartAbortKeeps(s, BeginAbort(c, stamp));
    }
  }

  lemma AbortPlaced(s: Sys)
    requires Placed(s) && s.recovery.XAborts?
    ensures Placed(AbortStep(s))
  {
    assert HandOk(s, s.recovery.id);
    HandMovePlaced(s, AbortStep(s), s.recovery.id, Aborts, Granted);
  }

  lemma AbortKeeps(s: Sys)
    requires Inv(s) && s.recovery.XAborts?
    ensures Inv(AbortStep(s))
  {
    AbortPlaced(s);
    MoveContents(s, AbortStep(s), s.recovery.id, Aborts, Granted);
  }

  lemma GraceKeeps(s: Sys, result: Option<Completion>, stamp: nat)
    requires Inv(s) && s.recovery.XGrace?
    ensures s.pool[s.recovery.id].state == Aborting && Inv(GraceStep(s, result, stamp))
  {
    assert Good(s, s.recovery.id);
    if result.Some? {
      SettleKeeps(s, result.value, stamp);
    } else {
      EscalateKeeps(s, stamp);
    }
  }

  lemma PutRecoveredPlaced(s: Sys)
    requires Placed(s) && s.recovery.XFinished?
    ensures |s.completion| < POOL && Placed(PutRecoveredStep(s))
  {
    var id := s.recovery.id;
    RoomFor(s.completion, s.place, InCompletion, id);
    var t := PutRecoveredStep(s);
    PutAt(s.completion, s.place, InCompletion, id);
    OtherQueues(s, id, InCompletion);
    assert HandOk(s, id);
    OtherHands(s, t, id, Recovered, InCompletion);
  }

  lemma PutRecoveredKeeps(s: Sys)
    requires Inv(s) && s.recovery.XFinished?
    ensures |s.completion| < POOL && Inv(PutRecoveredStep(s))
  {
    PutRecoveredPlaced(s);
    MoveContents(s, PutRecoveredStep(s), s.recovery.id, Recovered, InCompletion);
  }

  // ---------------------------------------------------------------- the completion loop

  lemma GetCompletionPlaced(s: Sys)
    requires Placed(s) && s.publisher.PWaits? && s.completion != []
    ensures s.place[s.completion[0]] == InCompletion && Placed(GetCompletionStep(s))
  {
    var id, t := s.completion[0], GetCompletionStep(s);
    TakenHead(s.completion, s.place, InCompletion, Publishing);
    OtherQueues(s, id, Publishing);
    assert HandOk(s, id);
    OtherHands(s, t, id, InCompletion, Publishing);
  }

  lemma GetCompletionKeeps(s: Sys)
    requires Inv(s) && s.publisher.PWaits? && s.completion != []
    ensures Inv(GetCompletionStep(s))
  {
    GetCompletionPlaced(s);
    MoveContents(s, GetCompletionStep(s), s.completion[0], InCompletion, Publishing);
  }

  lemma PublishPlaced(s: Sys, accepted: bool)
    requires Placed(s) && |s.ticket| == POOL && s.publisher.PHolds?
    ensures Placed(PublishStep(s, accepted))
  {
    var id, t := s.publisher.id, PublishStep(s, accepted);
    assert HandOk(s, id);
    HandMovePlaced(s, t, id, Publishing, if accepted then Published else PublishHalted);
  }

  lemma PublishGood(s: Sys)
    requires Contents(s) && s.publisher.PHolds? && s.place[s.publisher.id] == Publishing
    ensures forall x: Id :: Good(PublishStep(s, true), x)
  {
    var t := PublishStep(s, true);
    assert Good(s, s.publisher.id);
    forall x: Id ensures Good(t, x) { assert Good(s, x); }
  }

  lemma PublishLedger(s: Sys)
    requires Contents(s) && s.publisher.PHolds? && s.place[s.publisher.id] == Publishing
    ensures Ledger(PublishStep(s, true))
  {
    var t := PublishStep(s, true);
    assert Good(s, s.publisher.id);
    forall k: nat | k < |t.arrivals| ensures Accounted(t, k) && Timely(t.arrivals[k], LogOf(t, k)) {
      assert Accounted(s, k) && Timely(s.arrivals[k], LogOf(s, k));
    }
  }

  lemma PublishContents(s: Sys)
    requires Contents(s) && s.publisher.PHolds? && s.place[s.publisher.id] == Publishing
    ensures s.ticket[s.publisher.id] !in s.published && Contents(PublishStep(s, true))
  {
    assert Good(s, s.publisher.id);
    PublishGood(s);
    PublishLedger(s);
  }

  lemma PublishKeeps(s: Sys, accepted: bool)
    requires Inv(s) && s.publisher.PHolds?
    ensures s.ticket[s.publisher.id] !in s.published && Inv(PublishStep(s, accepted))
  {
    PublishPlaced(s, accepted);
    PublishContents(s);
    if !accepted {
      MoveContents(s, PublishStep(s, accepted), s.publisher.id, Publishing, PublishHalted);
    }
  }

  lemma ReleasePlaced(s: Sys)
    requires Placed(s) && s.publisher.PPublished?
    requires Terminal(s.pool[s.publisher.id].state) && s.pool[s.publisher.id].publications == 0
    ensures Placed(ReleaseStep(s))
  {
    var id, t := s.publisher.id, ReleaseStep(s);
    OtherQueues(s, id, Slab);
    assert HandOk(s, id);
    OtherHands(s, t, id, Published, Slab);
  }

  lemma ReleaseKeeps(s: Sys)
    requires Inv(s) && s.publisher.PPublished?
    ensures Terminal(s.pool[s.publisher.id].state) && s.pool[s.publisher.id].publications == 0
    ensures Inv(ReleaseStep(s))
  {
    assert Good(s, s.publisher.id);
    ReleasePlaced(s);
    QuietStep(s, ReleaseStep(s), s.publisher.id);
  }

  // ---------------------------------------------------------------- every step, and the assertions in it

  lemma TickKeeps(s: Sys, to: nat)
    requires Inv(s) && s.now <= to
    ensures Inv(s.(now := to))
  {
    var t := s.(now := to);
    forall x: Id ensures HandOk(t, x) && Good(t, x) { assert HandOk(s, x) && Good(s, x); }
    forall k: nat | k < |t.arrivals| ensures Accounted(t, k) && Timely(t.arrivals[k], LogOf(t, k)) {
      assert Accounted(s, k) && Timely(s.arrivals[k], LogOf(s, k));
    }
  }

  lemma AdmitKeeps(s: Sys)
    requires Inv(s) && s.receiver.RWaits?
    ensures Inv(s.(receiver := RAdmitted))
  {
    var t := s.(receiver := RAdmitted);
    forall x: Id ensures HandOk(t, x) && Good(t, x) { assert HandOk(s, x) && Good(s, x); }
    forall k: nat | k < |t.arrivals| ensures Accounted(t, k) && Timely(t.arrivals[k], LogOf(t, k)) {
      assert Accounted(s, k) && Timely(s.arrivals[k], LogOf(s, k));
    }
  }

  /** No assertion of a step can fail, but for the room in the one-slot running queue; and the invariant is kept. */
  lemma StepKeeps(s: Sys, e: Event)
    requires Inv(s) && Enabled(s, e)
    requires e.PutRunning? ==> |s.running| < RUNNING_SLOTS
    ensures Asserts(s, e) && Inv(Step(s, e))
  {
    match e
    case Tick(to) => TickKeeps(s, to);
    case Admit => AdmitKeeps(s);
    case Allocate(id) => AllocateKeeps(s, id);
    case Receive(d) => ReceiveKeeps(s, d);
    case PutValidation => PutValidationKeeps(s);
    case GetValidation => GetValidationKeeps(s);
    case Validated(stamp) => ValidatedKeeps(s, stamp);
    case GetReady => GetReadyKeeps(s);
    case Pick(index) => PickKeeps(s, index);
    case Decide(stamp) => DecideKeeps(s, stamp);
    case Authorize(accepted) => AuthorizeKeeps(s, accepted);
    case PutRunning => PutRunningKeeps(s);
    case PutDispatched => PutDispatchedKeeps(s);
    case GetRunning => GetRunningKeeps(s);
    case Poll(result, stamp) => PollKeeps(s, result, stamp);
    case Abort => AbortKeeps(s);
    case Grace(result, stamp) => GraceKeeps(s, result, stamp);
    case PutRecovered => PutRecoveredKeeps(s);
    case GetCompletion => GetCompletionKeeps(s);
    case Publish(accepted) => PublishKeeps(s, accepted);
    case Release => ReleaseKeeps(s);
  }
}
