/**
 Whole runs of the firmware pipeline, from boot, under every interleaving and every portal behaviour.
 */
module PipelineRuns {
  import opened Abi
  import opened Validation
  import opened Scheduler
  import opened Pipeline
  import opened PipelineRules
  import opened PipelineProofs

  ghost predicate Init(s: Sys) {
    && (forall id: Id :: id in s.free)
    && s.validation == s.ready == s.batch == s.running == s.completion == []
    && s.receiver == RWaits && s.validator == VWaits && s.dispatcher == DWaits
    && s.recovery == XWaits && s.publisher == PWaits
    && s.sequence == 0 && s.arrivals == []
    && s.published == map[] && s.logs == map[]
    && |s.place| == |s.ticket| == POOL && (forall id: Id :: s.place[id] == Slab)
  }

  /** One step that is taken: its assertions held. */
  ghost predicate Next(s: Sys, e: Event, t: Sys) {
    |s.place| == |s.ticket| == POOL && Enabled(s, e) && Asserts(s, e) && t == Step(s, e)
  }

  /** A payload that validation lets through; no other descriptor can come to the running queue. */
  ghost predicate Runs(d: Submission) { IsPayload(d.opcode) && Acceptable(d) }

  /** An arrival that is such a payload and has not had its terminal completion. */
  ghost predicate OpenPayload(s: Sys, k: nat) {
    k < |s.arrivals| && k !in s.published && Runs(s.arrivals[k].submission)
  }

  /** The endpoint's side of the bargain: no such payload is sent while another has no terminal completion. */
  ghost predicate Obeys(s: Sys, e: Event) {
    e.Receive? && e.descriptor.Some? && Runs(e.descriptor.value) ==> forall k: nat :: !OpenPayload(s, k)
  }

  ghost predicate OneOutstanding(s: Sys) {
    forall j: nat, k: nat :: OpenPayload(s, j) && OpenPayload(s, k) ==> j == k
  }

  ghost predicate IsRun(trace: seq<Sys>, events: seq<Event>) {
    && |trace| == |events| + 1
    && Init(trace[0])
    && (forall i: nat :: i < |events| ==> Goes(trace, events, i))
  }

  ghost predicate Goes(trace: seq<Sys>, events: seq<Event>, i: nat)
    requires |trace| == |events| + 1 && i < |events|
  {
    Next(trace[i], events[i], trace[i + 1])
  }

  ghost predicate RunObeys(trace: seq<Sys>, events: seq<Event>)
    requires |trace| == |events| + 1
  {
    forall i: nat :: i < |events| ==> Obeys(trace[i], events[i])
  }

  // ---------------------------------------------------------------- safety over runs

  lemma InitHolds(s: Sys)
    requires Init(s)
    ensures Inv(s) && OneOutstanding(s)
  {
    forall x: Id ensures HandOk(s, x) && Good(s, x) {}
    forall x: Id, p: Place | p != Slab ensures Counted([], s.place, p, x) {}
  }

  predicate Kept<T(==)>(x: Option<T>, y: Option<T>) { x.Some? ==> y == x }

  /** What is on record of an arrival stays there. */
  predicate LogKept(s: Sys, t: Sys, k: nat) {
    var was, now := LogOf(s, k), LogOf(t, k);
    && Kept(was.decided, now.decided) && Kept(was.authorized, now.authorized)
    && Kept(was.aborted, now.aborted) && Kept(was.result, now.result)
  }

  /** What a step does to the history: nothing is ever taken back. */
  ghost predicate Extends(s: Sys, t: Sys) {
    && s.arrivals <= t.arrivals
    && (forall k :: k in s.published ==> k in t.published && t.published[k] == s.published[k])
    && (forall k: nat :: LogKept(s, t, k))
  }

  predicate Records(e: Event) {
    e.Receive? || e.Decide? || e.Authorize? || e.Poll? || e.Grace? || e.Publish? || e.Release?
  }

  lemma MostStepsRecordNothing(s: Sys, e: Event)
    requires |s.place| == |s.ticket| == POOL && Enabled(s, e) && Asserts(s, e) && !Records(e)
    ensures NoRecord(s, Step(s, e))
  {
  }

  /** What enters the record of arrival `k` in a step, and when: the clock's reading, or the portal's answer. */
  ghost predicate Enters(s: Sys, e: Event, t: Sys, k: nat)
    requires |s.ticket| == POOL
  {
    var was, now := LogOf(s, k), LogOf(t, k);
    && (now.decided != was.decided ==>
          e.Decide? && s.dispatcher.DPicked? && s.ticket[s.dispatcher.id] == k && now.decided == Some(s.now))
    && (now.authorized != was.authorized ==>
          && e == Authorize(true) && s.dispatcher.DAuthorizes? && s.ticket[s.dispatcher.id] == k
          && now.authorized == Some(s.dispatcher.checkedAt))
    && (now.aborted != was.aborted ==>
          e.Poll? && e.result.None? && s.recovery.XPolls? && s.ticket[s.recovery.id] == k && now.aborted == Some(s.now))
    && (now.result != was.result ==> Answered(s, e, k) && now.result == e.result)
    && (Answered(s, e, k) ==> now.result == e.result)
  }

  /** The portal has a result while the recovery loop waits for arrival `k`. */
  predicate Answered(s: Sys, e: Event, k: nat)
    requires |s.ticket| == POOL
  {
    && ((e.Poll? && s.recovery.XPolls?) || (e.Grace? && s.recovery.XGrace?))
    && e.result.Some? && s.ticket[s.recovery.id] == k
  }

  lemma DispatcherEnters(s: Sys, e: Event, k: nat)
    requires |s.place| == |s.ticket| == POOL && Enabled(s, e) && Asserts(s, e) && (e.Decide? || e.Authorize?)
    ensures Enters(s, e, Step(s, e), k)
  {
  }

  lemma RecoveryEnters(s: Sys, e: Event, k: nat)
    requires |s.place| == |s.ticket| == POOL && Enabled(s, e) && Asserts(s, e) && (e.Poll? || e.Grace?)
    ensures Enters(s, e, Step(s, e), k)
  {
  }

  lemma OthersEnterNothing(s: Sys, e: Event)
    requires |s.place| == |s.ticket| == POOL && Enabled(s, e) && Asserts(s, e)
    requires e.Receive? || e.Publish? || e.Release?
    ensures Step(s, e).logs == s.logs
  {
  }

  lemma StepEnters(s: Sys, e: Event, k: nat)
    requires |s.place| == |s.ticket| == POOL && Enabled(s, e) && Asserts(s, e)
    ensures Enters(s, e, Step(s, e), k)
  {
    if e.Decide? || e.Authorize? {
      DispatcherEnters(s, e, k);
    } else if e.Poll? || e.Grace? {
      RecoveryEnters(s, e, k);
    } else if e.Receive? || e.Publish? || e.Release? {
      OthersEnterNothing(s, e);
    } else {
      MostStepsRecordNothing(s, e);
    }
  }

  /** The entries a loop is about to make are not there yet. */
  lemma NotYetEntered(s: Sys)
    requires Inv(s)
    ensures s.dispatcher.DPicked? ==> LogOf(s, s.ticket[s.dispatcher.id]) == NOTHING
    ensures s.dispatcher.DAuthorizes? ==> LogOf(s, s.ticket[s.dispatcher.id]).authorized.None?
    ensures s.recovery.XPolls? ==> LogOf(s, s.ticket[s.recovery.id]).aborted.None?
    ensures s.recovery.XPolls? || s.recovery.XGrace? ==> LogOf(s, s.ticket[s.recovery.id]).result.None?
  {
    if s.dispatcher.DPicked? || s.dispatcher.DAuthorizes? {
      assert Good(s, s.dispatcher.id);
    }
    if s.recovery.XPolls? || s.recovery.XGrace? {
      assert Good(s, s.recovery.id);
    }
  }

  lemma LoopsExtend(s: Sys, e: Event)
    requires Inv(s) && Enabled(s, e) && Asserts(s, e) && (e.Decide? || e.Authorize? || e.Poll? || e.Grace?)
    ensures Extends(s, Step(s, e))
  {
    NotYetEntered(s);
    forall k: nat ensures LogKept(s, Step(s, e), k) { StepEnters(s, e, k); }
  }

  lemma ReceiveExtends(s: Sys, d: Option<Submission>)
    requires |s.place| == |s.ticket| == POOL && s.receiver.RAllocated? &&
             (d.Some? ==> s.pool[s.receiver.id].state == Free)
    ensures Extends(s, ReceiveStep(s, d))
  {
  }

  lemma StepExtends(s: Sys, e: Event)
    requires Inv(s) && Enabled(s, e) && Asserts(s, e)
    ensures Extends(s, Step(s, e))
  {
    if e.Receive? {
      ReceiveExtends(s, e.descriptor);
    } else if e.Publish? {
      PublishKeeps(s, e.accepted);
    } else if e.Decide? || e.Authorize? || e.Poll? || e.Grace? {
      LoopsExtend(s, e);
    } else if !e.Release? {
      MostStepsRecordNothing(s, e);
    }
  }

  /** In a single step at most one descriptor arrives, the one the portal handed over. */
  lemma StepArrivals(s: Sys, e: Event)
    requires |s.place| == |s.ticket| == POOL && Enabled(s, e) && Asserts(s, e)
    ensures Step(s, e).arrivals ==
            if e.Receive? && e.descriptor.Some? then s.arrivals + [Arrival(e.descriptor.value, s.now, s.receiver.id)]
            else s.arrivals
  {
    if !Records(e) {
      MostStepsRecordNothing(s, e);
    }
  }

  lemma StepOneOutstanding(s: Sys, e: Event)
    requires Inv(s) && OneOutstanding(s) && Enabled(s, e) && Asserts(s, e) && Obeys(s, e)
    ensures OneOutstanding(Step(s, e))
  {
    var t := Step(s, e);
    StepExtends(s, e);
    StepArrivals(s, e);
    forall j: nat, k: nat | OpenPayload(t, j) && OpenPayload(t, k) ensures j == k {
      assert j < |s.arrivals| ==> OpenPayload(s, j);
      assert k < |s.arrivals| ==> OpenPayload(s, k);
    }
  }

  /** Under the rule the one-slot queue is empty whenever the scheduler is about to fill it. */
  lemma RunningHasRoom(s: Sys)
    requires Inv(s) && OneOutstanding(s) && s.dispatcher.DAuthorized?
    ensures |s.running| < RUNNING_SLOTS
  {
    if s.running != [] {
      var id, other := s.dispatcher.id, s.running[0];
      assert other in multiset(s.running);
      assert Counted(s.running, s.place, InRunning, other);
      assert Good(s, id) && Good(s, other);
      assert OpenPayload(s, s.ticket[id]) && OpenPayload(s, s.ticket[other]);
      assert false;
    }
  }

  /** Every reachable state satisfies the invariant, whatever the portal sends. */
  lemma {:induction false} RunKeepsInv(trace: seq<Sys>, events: seq<Event>, n: nat)
    requires IsRun(trace, events) && n < |trace|
    ensures Inv(trace[n])
    decreases n
  {
    if n == 0 {
      InitHolds(trace[0]);
    } else {
      RunKeepsInv(trace, events, n - 1);
      assert Goes(trace, events, n - 1);
      StepKeeps(trace[n - 1], events[n - 1]);
    }
  }

  /** So no assertion of the firmware can fail, but for the room in the running queue. */
  lemma NoAssertionFails(trace: seq<Sys>, events: seq<Event>, n: nat, e: Event)
    requires IsRun(trace, events) && n < |trace| && Enabled(trace[n], e) && !e.PutRunning?
    ensures Asserts(trace[n], e)
  {
    RunKeepsInv(trace, events, n);
    StepKeeps(trace[n], e);
  }

  lemma {:induction false} RunKeepsOneOutstanding(trace: seq<Sys>, events: seq<Event>, n: nat)
    requires IsRun(trace, events) && RunObeys(trace, events) && n < |trace|
    ensures OneOutstanding(trace[n])
    decreases n
  {
    if n == 0 {
      InitHolds(trace[0]);
    } else {
      RunKeepsOneOutstanding(trace, events, n - 1);
      RunKeepsInv(trace, events, n - 1);
      assert Goes(trace, events, n - 1);
      assert Obeys(trace[n - 1], events[n - 1]);
      StepOneOutstanding(trace[n - 1], events[n - 1]);
    }
  }

  /** And under the one-outstanding rule not even that one. */
  lemma RunningPutNeverFails(trace: seq<Sys>, events: seq<Event>, n: nat)
    requires IsRun(trace, events) && RunObeys(trace, events) && n < |trace| && Enabled(trace[n], PutRunning)
    ensures Asserts(trace[n], PutRunning)
  {
    RunKeepsInv(trace, events, n);
    RunKeepsOneOutstanding(trace, events, n);
    RunningHasRoom(trace[n]);
  }

  lemma NextExtends(trace: seq<Sys>, events: seq<Event>, n: nat)
    requires IsRun(trace, events) && n < |events|
    ensures Extends(trace[n], trace[n + 1])
  {
    RunKeepsInv(trace, events, n);
    assert Goes(trace, events, n);
    StepExtends(trace[n], events[n]);
  }

  lemma ExtendsTransitive(s: Sys, t: Sys, u: Sys)
    requires Extends(s, t) && Extends(t, u)
    ensures Extends(s, u)
  {
    forall k: nat ensures LogKept(s, u, k) { assert LogKept(s, t, k) && LogKept(t, u, k); }
  }

  /** What has been published, authorized or aborted at one point of a run stays so at every later point. */
  lemma {:induction false} HistoryIsKept(trace: seq<Sys>, events: seq<Event>, i: nat, j: nat)
    requires IsRun(trace, events) && i <= j < |trace|
    ensures Extends(trace[i], trace[j])
    decreases j - i
  {
    if i < j {
      HistoryIsKept(trace, events, i, j - 1);
      NextExtends(trace, events, j - 1);
      ExtendsTransitive(trace[i], trace[j - 1], trace[j]);
    }
  }

  // ---------------------------------------------------------------- the right outcome

  /** Over every run, what is published for an arrival is what it deserves by what is on record. */
  lemma PublishedAsDeserved(trace: seq<Sys>, events: seq<Event>, n: nat, k: nat)
    requires IsRun(trace, events) && n < |trace| && k in trace[n].published
    ensures k < |trace[n].arrivals| && Answers(trace[n].published[k].completion, trace[n].arrivals[k].submission)
    ensures Deserved(trace[n].published[k], trace[n].arrivals[k], LogOf(trace[n], k))
  {
    RunKeepsInv(trace, events, n);
    assert Accounted(trace[n], k);
  }

  /** And a result on record is one the portal had while the recovery loop waited for that arrival. */
  lemma {:induction false} ResultIsThePortals(trace: seq<Sys>, events: seq<Event>, n: nat, k: nat) returns (i: nat)
    requires IsRun(trace, events) && n < |trace| && LogOf(trace[n], k).result.Some?
    ensures i < n && |trace[i].ticket| == POOL && Answered(trace[i], events[i], k)
    ensures events[i].result == LogOf(trace[n], k).result
  {
    assert n > 0;
    i := n - 1;
    assert Goes(trace, events, i);
    if LogOf(trace[i], k).result.Some? {
      NextExtends(trace, events, i);
      assert LogKept(trace[i], trace[n], k);
      i := ResultIsThePortals(trace, events, i, k);
    } else {
      StepEnters(trace[i], events[i], k);
    }
  }

  /** A result that names its command is published as it is, as a success exactly if it says so; any other is not. */
  lemma ResultIsPublished(trace: seq<Sys>, events: seq<Event>, i: nat, n: nat, k: nat)
    requires IsRun(trace, events) && i < n < |trace| && |trace[i].ticket| == POOL
    requires Answered(trace[i], events[i], k) && k in trace[n].published
    ensures var r, p := events[i].result.value, trace[n].published[k];
            && k < |trace[n].arrivals|
            && if Answers(r, trace[n].arrivals[k].submission) then
                 p.completion == r && p.state == if r.status == STATUS_SUCCESS then Completed else CompletedError
               else
                 && p.state == CompletedError && p.completion.status == STATUS_FAILED
                 && p.completion.errorCode == ERR_ENGINE && p.completion.bytesProcessed == 0
  {
    assert Goes(trace, events, i);
    StepEnters(trace[i], events[i], k);
    HistoryIsKept(trace, events, i + 1, n);
    assert LogKept(trace[i + 1], trace[n], k);
    PublishedAsDeserved(trace, events, n, k);
  }

  // ---------------------------------------------------------------- exactly once

  function UpTo(n: nat): (r: set<nat>)
    ensures |r| == n && (forall k :: k in r ==> k < n) && (forall k: nat :: k < n ==> k in r)
  {
    if n == 0 then {}
    else
      var most := UpTo(n - 1);
      assert n - 1 !in most;
      most + {n - 1}
  }

  /** The arrivals not yet published, and the objects carrying a command. */
  ghost function Others(n: nat, done: set<nat>): set<nat> { set k | k in UpTo(n) && k !in done }

  ghost function Unpublished(s: Sys): set<nat> { Others(|s.arrivals|, s.published.Keys) }

  ghost function Carrying(s: Sys): set<Id>
    requires |s.place| == POOL
  {
    set id: Id | id < POOL && Carries(StageOf(s.place[id]))
  }

  /** Each arrival in `from` is owned by one object of `to`, and each object of `to` owns one. */
  lemma {:induction false} OneToOne(from: set<nat>, to: set<Id>, owner: map<nat, Id>, ticket: map<Id, nat>)
    requires forall k :: k in from ==> k in owner && owner[k] in to && owner[k] in ticket && ticket[owner[k]] == k
    requires forall id :: id in to ==>
                            && id in ticket && ticket[id] in from
                            && ticket[id] in owner && owner[ticket[id]] == id
    ensures |from| == |to|
    decreases |from|
  {
    if from == {} {
      assert to == {};
    } else {
      var k :| k in from;
      OneToOne(from - {k}, to - {owner[k]}, owner, ticket);
    }
  }

  lemma CarriedOnceEach(s: Sys)
    requires Inv(s)
    ensures |Unpublished(s)| == |Carrying(s)|
  {
    var open, carriers := Unpublished(s), Carrying(s);
    var owner := map k | k in open :: s.arrivals[k].owner;
    var ticket := map id | id in carriers :: s.ticket[id];
    forall k | k in open ensures owner[k] in carriers && ticket[owner[k]] == k {
      assert Accounted(s, k);
    }
    forall id | id in carriers ensures ticket[id] in open && owner[ticket[id]] == id {
      assert Good(s, id);
    }
    OneToOne(open, carriers, owner, ticket);
  }

  lemma SplitCount(n: nat, done: set<nat>)
    requires forall k :: k in done ==> k < n
    ensures n == |Others(n, done)| + |done|
  {
    var open := Others(n, done);
    assert UpTo(n) == open + done && open !! done;
    assert |open + done| == |open| + |done|;
  }

  /** Descriptors captured = commands still in the pipeline + terminal completions published. */
  lemma Conservation(s: Sys)
    requires Inv(s)
    ensures |s.arrivals| == |Carrying(s)| + |s.published|
  {
    CarriedOnceEach(s);
    SplitCount(|s.arrivals|, s.published.Keys);
  }

  lemma OnlyTheseRelease(s: Sys, e: Event)
    requires |s.place| == |s.ticket| == POOL && Enabled(s, e) && Asserts(s, e) && e != Receive(None) && e != Release
    ensures Step(s, e).free <= s.free
  {
    if !Records(e) {
      MostStepsRecordNothing(s, e);
    }
  }

  /** An object goes back to the slab only if it was never filled, or after its one publication. */
  lemma FreedOnlyWhenPublished(s: Sys, e: Event, id: Id)
    requires Inv(s) && Enabled(s, e) && Asserts(s, e) && id !in s.free && id in Step(s, e).free
    ensures || (e == Receive(None) && s.pool[id] == CLEARED)
            || (&& e == Release && Terminal(s.pool[id].state) && s.pool[id].publications == 0
                && s.ticket[id] in s.published && Step(s, e).pool[id] == CLEARED
                && s.published[s.ticket[id]] == Publication(s.pool[id].completion, s.pool[id].state))
  {
    if e == Receive(None) {
      assert Good(s, s.receiver.id);
    } else if e == Release {
      assert Good(s, s.publisher.id);
    } else {
      OnlyTheseRelease(s, e);
    }
  }

  /** Within a boot no command is stale, so the scheduler's cancellation branch is never taken. */
  lemma NeverStale(s: Sys)
    requires Inv(s) && s.dispatcher.DPicked?
    ensures s.pool[s.dispatcher.id].generation == s.generation
  {
    assert Good(s, s.dispatcher.id) && HandOk(s, s.dispatcher.id);
  }

  /** The scheduler dispatches the least (deadline, sequence) of everything validated and not yet dispatched. */
  lemma PicksEarliest(s: Sys, index: nat, id: Id)
    requires Inv(s) && Enabled(s, Pick(index)) && (s.place[id] == InBatch || s.place[id] == InReady)
    ensures !Precedes(s.pool[id], s.pool[s.batch[index]]) && s.pool[s.batch[index]].deadline <= s.pool[id].deadline
  {
    assert Counted(s.ready, s.place, InReady, id) && Counted(s.batch, s.place, InBatch, id);
    if s.place[id] == InReady {
      // then the ready queue is not empty, and the array is not full either
      RoomFor(s.batch, s.place, InBatch, id);
    }
    assert id in multiset(s.batch);
    var j :| 0 <= j < |s.batch| && s.batch[j] == id;
    assert Commands(s, s.batch)[j] == s.pool[id];
  }

  /** Among equal deadlines that is the one captured first, as long as the sequence number has not wrapped. */
  lemma PicksFirstCaptured(s: Sys, index: nat, id: Id)
    requires Inv(s) && Enabled(s, Pick(index)) && (s.place[id] == InBatch || s.place[id] == InReady)
    requires s.pool[id].deadline == s.pool[s.batch[index]].deadline && |s.arrivals| < TWO32 - 1
    ensures s.ticket[s.batch[index]] <= s.ticket[id]
  {
    PicksEarliest(s, index, id);
    var picked := s.batch[index];
    assert Counted(s.batch, s.place, InBatch, picked) && picked in multiset(s.batch);
    assert Good(s, id) && Good(s, picked);
  }
}
