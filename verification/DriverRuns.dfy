/**
 Whole runs of the driver, under every interleaving of ioctls, interrupts, reset work, close and remove.
 */
module DriverRuns {
  import opened Abi
  import opened Driver
  import opened DriverRules
  import opened DriverProofs

  const EMPTY :=
    State(map[], map[], map[], map[], {}, {}, map[], {}, {},
          Device(0, map[]), 0, Work(false, false, {}, None), None, false)

  /** At probe the driver reads the device's generation. */
  ghost predicate Init(s: State) {
    s == EMPTY.(device := Device(s.device.resets, map[]), generation := Wrap32(s.device.resets))
  }

  /** One step of a run. */
  ghost predicate Goes(trace: seq<State>, events: seq<Event>, i: nat)
    requires |trace| == |events| + 1 && i < |events|
  {
    Enabled(trace[i], events[i]) && Asserts(trace[i], events[i]) && trace[i + 1] == Step(trace[i], events[i])
  }

  ghost predicate IsRun(trace: seq<State>, events: seq<Event>) {
    |trace| == |events| + 1 && Init(trace[0]) && forall i: nat :: i < |events| ==> Goes(trace, events, i)
  }

  lemma InitHolds(s: State)
    requires Init(s)
    ensures Inv(s)
  {
  }

  /** In every reachable state each count is the number of references that exist. */
  lemma RunKeepsInv(trace: seq<State>, events: seq<Event>, n: nat)
    requires IsRun(trace, events) && n < |trace|
    ensures Inv(trace[n])
  {
    InitHolds(trace[0]);
    for i := 0 to n
      invariant Inv(trace[i])
    {
      assert Goes(trace, events, i);
      StepKeeps(trace[i], events[i]);
    }
  }

  /** And no step a reachable state allows makes a count underflow. */
  lemma NoUnderflow(trace: seq<State>, events: seq<Event>, n: nat, e: Event)
    requires IsRun(trace, events) && n < |trace| && Enabled(trace[n], e)
    ensures Asserts(trace[n], e)
  {
    RunKeepsInv(trace, events, n);
    StepKeeps(trace[n], e);
  }

  // ---------------------------------------------------------------- mappings

  /** A mapping is unmapped once, exactly when no table entry and no live request refers to it. */
  lemma UnmappedExactly(s: State, m: Id)
    requires Inv(s) && m in s.mappings
    ensures s.mappings[m].unmaps <= 1
    ensures s.mappings[m].unmaps == 1 <==>
              m !in s.listed && forall r :: r in s.requests && s.requests[r].refs > 0 ==>
                                              s.requests[r].source != Some(m) && s.requests[r].destination != Some(m)
  {
    assert MappingOk(s, m);
    if m !in s.listed && Sources(s.requests, m) == {} && Destinations(s.requests, m) == {} {
      forall r | r in s.requests && s.requests[r].refs > 0
        ensures s.requests[r].source != Some(m) && s.requests[r].destination != Some(m)
      {
        assert r !in Sources(s.requests, m) && r !in Destinations(s.requests, m);
      }
    } else if m !in s.listed {
      assert s.mappings[m].unmaps == 0;
      var r :| r in Sources(s.requests, m) || r in Destinations(s.requests, m);
      assert r in s.requests && s.requests[r].refs > 0;
    }
  }

  /** Unregistering takes a mapping out, and unmaps it, exactly when no live request uses it. */
  lemma UnregisterExactly(s: State, m: Id)
    requires Inv(s) && Enabled(s, Unregister(m))
    ensures Asserts(s, Unregister(m))
    ensures var t := Step(s, Unregister(m));
            var idle := forall r :: r in s.requests && s.requests[r].refs > 0 ==>
                                      s.requests[r].source != Some(m) && s.requests[r].destination != Some(m);
            && (idle ==> m !in t.listed && t.mappings[m].refs == 0 && t.mappings[m].unmaps == 1)
            && (!idle ==> t == s)
  {
    StepKeeps(s, Unregister(m));
    assert MappingOk(s, m);
    if forall r :: r in s.requests && s.requests[r].refs > 0 ==>
                     s.requests[r].source != Some(m) && s.requests[r].destination != Some(m) {
      assert Sources(s.requests, m) == {} && Destinations(s.requests, m) == {};
    } else {
      var r :| && r in s.requests && s.requests[r].refs > 0
               && (s.requests[r].source == Some(m) || s.requests[r].destination == Some(m));
      assert r in Sources(s.requests, m) || r in Destinations(s.requests, m);
    }
  }

  /** What the device may still be reading or writing is mapped, through close and unregister. */
  lemma TrackedStaysMapped(s: State, r: Id, m: Id)
    requires Inv(s) && r in s.requests && IsTracked(s, r)
    requires s.requests[r].source == Some(m) || s.requests[r].destination == Some(m)
    ensures m in s.mappings && s.mappings[m].refs > 0 && s.mappings[m].unmaps == 0
  {
    assert RequestCounted(s, r) && Linked(s, r) && MappingOk(s, m);
    LiveIsBacked(s, r);
  }

  // ---------------------------------------------------------------- outcomes

  /** A request that has ended keeps its outcome; a reaped one stays reaped and out of its file's table. */
  ghost predicate KeptEnd(s: State, t: State, r: Id) {
    r in s.requests ==>
      && r in t.requests
      && (s.requests[r].outcome != Pending ==> t.requests[r].outcome == s.requests[r].outcome)
      && (r in s.reaped ==> r in t.reaped)
  }

  lemma PutShape(s: State, r: Id)
    requires Puttable(s, r)
    ensures var t := PutRequest(s, r);
            t == s.(requests := s.requests[r := s.requests[r].(refs := s.requests[r].refs - 1)],
                    mappings := t.mappings, files := t.files)
  {
    if s.requests[r].refs == 1 {
      PutLastShape(s, r);
    }
  }

  /** A step that puts references may end a request, and cancels it only if it is of another generation. */
  ghost predicate PutEnd(s: State, t: State, r: Id) {
    && KeptEnd(s, t, r) && t.device == s.device && t.generation == s.generation
    && (r in s.requests ==>
          var q, p := s.requests[r], t.requests[r];
          && p == q.(refs := p.refs, outcome := p.outcome)
          && (p.outcome.Cancelled? && p.outcome != q.outcome ==> q.generation != s.generation))
  }

  ghost predicate SameOutcome(s: State, t: State, r: Id) {
    r in s.requests ==> r in t.requests && t.requests[r].outcome == s.requests[r].outcome
  }

  lemma TerminateEnd(s: State, command: u32, outcome: Outcome, r: Id)
    requires Inv(s) && command in s.tracked && Puttable(s, s.tracked[command]) && !outcome.Cancelled?
    ensures var t := Terminate(s, command, outcome);
            && PutEnd(s, t, r) && t.requests.Keys == s.requests.Keys
            && if r == s.tracked[command] then t.requests[r].outcome == outcome else SameOutcome(s, t, r)
  {
    var q := s.tracked[command];
    assert LifeOk(s, q);
    PutShape(s.(tracked := s.tracked - {command}, requests := s.requests[q := s.requests[q].(outcome := outcome)]), q);
  }

  lemma DecideEnd(s: State, seen: u32, r: Id)
    requires Inv(s) && Enabled(s, WorkDecides(seen)) && Asserts(s, WorkDecides(seen))
    ensures var t := WorkDecideStep(s, seen);
            && PutEnd(s, t, r) && t.requests.Keys == s.requests.Keys
            && (|| SameOutcome(s, t, r)
                || (r in t.requests && t.requests[r].outcome == Cancelled(s.generation)))
  {
    var command := s.work.loaded.value.command;
    if command in s.tracked {
      var q := s.tracked[command];
      var t := s.(work := s.work.(todo := s.work.todo - {command}, loaded := None));
      assert LifeOk(s, q);
      PutShape(t.(tracked := s.tracked - {command},
                  requests := s.requests[q := s.requests[q].(outcome := Cancelled(s.generation))]), q);
    }
  }

  lemma DropEnd(s: State, t: State, q: Id, r: Id)
    requires Puttable(t, q) && t.requests == s.requests
    requires t.reaped >= s.reaped
    requires t.device == s.device && t.generation == s.generation
    ensures var u := PutRequest(t, q);
            PutEnd(s, u, r) && u.requests.Keys == s.requests.Keys && SameOutcome(s, u, r) && u.reaped == t.reaped
  {
    PutShape(t, q);
  }

  lemma PutEndTransitive(s: State, t: State, u: State, r: Id)
    requires PutEnd(s, t, r) && PutEnd(t, u, r) && SameOutcome(s, t, r) && SameOutcome(t, u, r)
    ensures PutEnd(s, u, r) && SameOutcome(s, u, r)
  {
  }

  lemma EntryEnd(s: State, q: Id, r: Id)
    requires Inv(s) && q in s.reapable && Puttable(s, q)
    ensures var t := DropEntry(s.(reaped := s.reaped + {q}), q);
            PutEnd(s, t, r) && t.requests.Keys == s.requests.Keys && SameOutcome(s, t, r)
  {
    assert LifeOk(s, q);
    DropEnd(s, s.(reaped := s.reaped + {q}, reapable := s.reapable - {q}), q, r);
  }

  lemma ReapEnd(s: State, w: Id, r: Id)
    requires Inv(s) && w in s.waiters && Puttable(s, s.waiters[w]) && Backed(s, s.requests[s.waiters[w]])
    requires s.waiters[w] in s.reapable ==> s.requests[s.waiters[w]].refs > 1
    ensures var t := ReapStep(s, w);
            PutEnd(s, t, r) && t.requests.Keys == s.requests.Keys && SameOutcome(s, t, r)
  {
    var q := s.waiters[w];
    if q in s.reapable {
      EntryEnd(s, q, r);
      var t := DropEntry(s.(reaped := s.reaped + {q}), q);
      PutShape(s.(reaped := s.reaped + {q}, reapable := s.reapable - {q}), q);
      DropEnd(t, t.(waiters := t.waiters - {w}), q, r);
      PutEndTransitive(s, t, ReapStep(s, w), r);
    } else {
      DropEnd(s, s.(waiters := s.waiters - {w}), q, r);
    }
  }

  predicate MayPut(e: Event) { OfPut(e) || e.WorkDecides? }

  /** How a pending request ends: with the completion drained under its number, cancelled as stale, or by removal. */
  ghost predicate EndsBy(s: State, e: Event, t: State, r: Id)
    requires r in s.requests && r in t.requests
  {
    var q, outcome := s.requests[r], t.requests[r].outcome;
    || (e.Finish? && e.completion.commandId == q.command && outcome == Finished(e.completion))
    || (e.WorkDecides? && q.generation != s.generation && outcome == Cancelled(s.generation))
    || (e == RemoveCancels(q.command) && outcome == Gone)
  }

  /** A request keeps its outcome in a step, or ends in it. */
  ghost predicate KeepsOrEnds(s: State, e: Event, t: State, r: Id) {
    if r in s.requests then r in t.requests && (t.requests[r].outcome == s.requests[r].outcome || EndsBy(s, e, t, r))
    else r in t.requests ==> t.requests[r].outcome == Pending
  }

  lemma DropStepEnd(s: State, e: Event, r: Id)
    requires Enabled(s, e) && Asserts(s, e) && (e.CopyFailed? || e.CloseRequest? || e.NopEnds? || e.WaitGivesUp?)
    ensures PutEnd(s, Step(s, e), r) && KeepsOrEnds(s, e, Step(s, e), r)
  {
    if e.NopEnds? {
      DropEnd(s, s.(callers := s.callers - {e.r}), e.r, r);
    } else if e.WaitGivesUp? {
      DropEnd(s, s.(waiters := s.waiters - {e.w}), s.waiters[e.w], r);
    } else {
      DropEnd(s, s.(reapable := s.reapable - {e.r}), e.r, r);
    }
  }

  lemma PutStepEnd(s: State, e: Event, r: Id)
    requires Inv(s) && Enabled(s, e) && Asserts(s, e) && MayPut(e)
    ensures PutEnd(s, Step(s, e), r) && KeepsOrEnds(s, e, Step(s, e), r)
  {
    if e.WaitReaps? {
      ReapEnd(s, e.w, r);
    } else if e.WorkDecides? {
      DecideEnd(s, e.seen, r);
    } else if e.Finish? {
      TerminateEnd(s, e.completion.commandId, Finished(e.completion), r);
    } else if e.RemoveCancels? {
      TerminateEnd(s, e.command, Gone, r);
    } else {
      DropStepEnd(s, e, r);
    }
  }

  lemma FileStepShape(s: State, e: Event)
    requires Enabled(s, e) && Asserts(s, e) && OfFile(e)
    ensures var t := Step(s, e);
            t == s.(files := t.files, mappings := t.mappings, listed := t.listed, removing := t.removing)
  {
  }

  /** A step that leaves requests and results alone. */
  lemma UntouchedEnd(s: State, e: Event, t: State, r: Id)
    requires t.requests == s.requests && t.reaped == s.reaped
    ensures KeptEnd(s, t, r) && KeepsOrEnds(s, e, t, r)
  {
  }

  lemma DeviceEnd(s: State, r: Id)
    ensures KeptEnd(s, Step(s, DeviceResets), r) && KeepsOrEnds(s, DeviceResets, Step(s, DeviceResets), r)
  {
    UntouchedEnd(s, DeviceResets, Step(s, DeviceResets), r);
  }

  lemma ReadEnd(s: State, o: Id, r: Id)
    requires o !in s.device.readers
    ensures var e := ObserverReads(o); KeptEnd(s, Step(s, e), r) && KeepsOrEnds(s, e, Step(s, e), r)
  {
    UntouchedEnd(s, ObserverReads(o), ReadStep(s, o), r);
  }

  lemma StoreEnd(s: State, o: Id, r: Id)
    requires o in s.device.readers
    ensures var e := ObserverStores(o); KeptEnd(s, Step(s, e), r) && KeepsOrEnds(s, e, Step(s, e), r)
  {
    UntouchedEnd(s, ObserverStores(o), StoreStep(s, o), r);
  }

  lemma WorkStepShape(s: State, e: Event)
    requires Enabled(s, e) && Asserts(s, e) && (e.WorkStarts? || e.WorkLoads? || e.WorkEnds?)
    ensures var t := Step(s, e);
            t.requests == s.requests && t.reaped == s.reaped && t.device == s.device && t.generation == s.generation
  {
  }

  lemma RequestStepEnd(s: State, e: Event, r: Id)
    requires Enabled(s, e) && Asserts(s, e) && (e.Track? || e.Ring? || e.WaitBegins?)
    ensures KeptEnd(s, Step(s, e), r) && KeepsOrEnds(s, e, Step(s, e), r)
  {
  }

  lemma QuietEnd(s: State, e: Event, r: Id)
    requires Enabled(s, e) && Asserts(s, e) && !MayPut(e)
    ensures KeptEnd(s, Step(s, e), r) && KeepsOrEnds(s, e, Step(s, e), r)
  {
    if OfFile(e) {
      FileStepShape(s, e);
      UntouchedEnd(s, e, Step(s, e), r);
    } else if e.DeviceResets? {
      DeviceEnd(s, r);
    } else if e.ObserverReads? {
      ReadEnd(s, e.o, r);
    } else if e.ObserverStores? {
      StoreEnd(s, e.o, r);
    } else if e.WorkStarts? || e.WorkLoads? || e.WorkEnds? {
      WorkStepShape(s, e);
      UntouchedEnd(s, e, Step(s, e), r);
    } else {
      RequestStepEnd(s, e, r);
    }
  }

  lemma StepEnd(s: State, e: Event, r: Id)
    requires Inv(s) && Enabled(s, e) && Asserts(s, e)
    ensures KeptEnd(s, Step(s, e), r) && KeepsOrEnds(s, e, Step(s, e), r)
  {
    if MayPut(e) {
      PutStepEnd(s, e, r);
    } else {
      QuietEnd(s, e, r);
    }
  }

  /** Each request ends at most once: over a whole run an outcome, once given, never changes. */
  lemma {:induction false} EndsOnce(trace: seq<State>, events: seq<Event>, i: nat, j: nat, r: Id)
    requires IsRun(trace, events) && i <= j < |trace|
    ensures KeptEnd(trace[i], trace[j], r)
    decreases j - i
  {
    if i < j {
      EndsOnce(trace, events, i, j - 1, r);
      RunKeepsInv(trace, events, j - 1);
      assert Goes(trace, events, j - 1);
      StepEnd(trace[j - 1], events[j - 1], r);
    }
  }

  /** The step that returns a request's result to a wait. */
  ghost predicate Reaps(s: State, e: Event, r: Id) {
    e.WaitReaps? && e.w in s.waiters && s.waiters[e.w] == r && r in s.reapable
  }

  lemma ReapMarks(s: State, e: Event, r: Id)
    requires Inv(s) && Enabled(s, e) && Asserts(s, e) && Reaps(s, e, r)
    ensures r !in s.reaped && r in s.requests && s.requests[r].outcome != Pending && r in Step(s, e).reaped
  {
    assert LifeOk(s, r);
    PutShape(s.(reaped := s.reaped + {r}, reapable := s.reapable - {r}), r);
    var t := DropEntry(s.(reaped := s.reaped + {r}), r);
    PutShape(t.(waiters := t.waiters - {e.w}), r);
  }

  lemma ReapedBefore(trace: seq<State>, events: seq<Event>, i: nat, j: nat, r: Id)
    requires IsRun(trace, events) && i < j < |events| && Reaps(trace[i], events[i], r)
    ensures r in trace[j].reaped
  {
    RunKeepsInv(trace, events, i);
    assert Goes(trace, events, i);
    ReapMarks(trace[i], events[i], r);
    StepEnd(trace[i], events[i], r);
    EndsOnce(trace, events, i + 1, j, r);
  }

  /** At most one wait in a run gets the result, and only after the request has ended. */
  lemma ReapedAtMostOnce(trace: seq<State>, events: seq<Event>, i: nat, j: nat, r: Id)
    requires IsRun(trace, events) && i <= j < |events|
    requires Reaps(trace[i], events[i], r) && Reaps(trace[j], events[j], r)
    ensures i == j && r in trace[j].requests && trace[j].requests[r].outcome != Pending
  {
    RunKeepsInv(trace, events, j);
    assert Goes(trace, events, j);
    ReapMarks(trace[j], events[j], r);
    if i < j {
      ReapedBefore(trace, events, i, j, r);
    }
  }

  /** A request that has ended did so in one step of the run, in one of the three ways. */
  lemma {:induction false} EndedBy(trace: seq<State>, events: seq<Event>, n: nat, r: Id) returns (i: nat)
    requires IsRun(trace, events) && n < |trace| && r in trace[n].requests && trace[n].requests[r].outcome != Pending
    ensures i < n && r in trace[i].requests && trace[i].requests[r].outcome == Pending
    ensures r in trace[i + 1].requests && trace[i + 1].requests[r].outcome == trace[n].requests[r].outcome
    ensures EndsBy(trace[i], events[i], trace[i + 1], r)
    decreases n
  {
    assert n > 0;
    i := n - 1;
    RunKeepsInv(trace, events, i);
    assert Goes(trace, events, i);
    StepEnd(trace[i], events[i], r);
    if trace[i].requests[r].outcome != Pending {
      i := EndedBy(trace, events, i, r);
    }
  }

  /** A completion drained ends the request tracked under its number, and that one has it as its result. */
  lemma FinishDelivers(s: State, completion: Completion)
    requires Inv(s) && Enabled(s, Finish(completion))
    ensures Asserts(s, Finish(completion))
    ensures var t, r := Step(s, Finish(completion)), s.tracked[completion.commandId];
            r in t.requests && t.requests[r].outcome == Finished(completion) && completion.commandId !in t.tracked
  {
    StepKeeps(s, Finish(completion));
    TerminateEnd(s, completion.commandId, Finished(completion), s.tracked[completion.commandId]);
    var r := s.tracked[completion.commandId];
    PutShape(s.(tracked := s.tracked - {completion.commandId},
                requests := s.requests[r := s.requests[r].(outcome := Finished(completion))]), r);
  }

  /** What a wait copies to the user. */
  function ResultOf(s: State, w: Id): Outcome
    requires w in s.waiters && s.waiters[w] in s.requests
  {
    s.requests[s.waiters[w]].outcome
  }

  /** What a wait returns is how the request ended: the completion drained under its number, if there was one. */
  lemma WaitReturnsTheEnd(trace: seq<State>, events: seq<Event>, j: nat, r: Id) returns (i: nat)
    requires IsRun(trace, events) && j < |events| && Reaps(trace[j], events[j], r)
    ensures i < j && r in trace[i].requests && r in trace[i + 1].requests && r in trace[j].requests
    ensures EndsBy(trace[i], events[i], trace[i + 1], r)
    ensures ResultOf(trace[j], events[j].w) == trace[i + 1].requests[r].outcome
    ensures events[i].Finish? ==>
              && events[i].completion.commandId == trace[i].requests[r].command
              && ResultOf(trace[j], events[j].w) == Finished(events[i].completion)
  {
    RunKeepsInv(trace, events, j);
    assert Goes(trace, events, j);
    ReapMarks(trace[j], events[j], r);
    i := EndedBy(trace, events, j, r);
  }

  /** A request is cancelled only if the driver saw another generation than the one its doorbell was rung under. */
  lemma CancelledOnlyAcrossReset(trace: seq<State>, events: seq<Event>, n: nat, r: Id)
    requires IsRun(trace, events) && n < |trace| && r in trace[n].requests && trace[n].requests[r].outcome.Cancelled?
    ensures trace[n].requests[r].rung && trace[n].requests[r].outcome.observed != trace[n].requests[r].generation
  {
    RunKeepsInv(trace, events, n);
    assert LifeOk(trace[n], r);
  }

  /** A tracked request of an older generation always has the reset work, or the removal, ahead of it. */
  lemma StaleIsPursued(trace: seq<State>, events: seq<Event>, n: nat, r: Id)
    requires IsRun(trace, events) && n < |trace| && r in trace[n].requests && IsTracked(trace[n], r)
    requires trace[n].requests[r].rung && trace[n].requests[r].generation != trace[n].generation
    ensures var s := trace[n];
            s.work.queued || (s.work.running && s.requests[r].command in s.work.todo) || s.removing
  {
    RunKeepsInv(trace, events, n);
    assert LifeOk(trace[n], r);
  }

  /**
   The reset work reads a loaded request under no reference of its own: the request is still there
   exactly while the device, a file, a caller or a wait holds one.
   */
  lemma LoadedIsLive(trace: seq<State>, events: seq<Event>, n: nat)
    requires IsRun(trace, events) && n < |trace| && trace[n].work.loaded.Some?
    ensures var s, r := trace[n], trace[n].work.loaded.value.request;
            && r in s.requests
            && (s.requests[r].refs > 0 <==>
                IsTracked(s, r) || r in s.reapable || r in s.callers || exists w :: w in s.waiters && s.waiters[w] == r)
  {
    RunKeepsInv(trace, events, n);
    var s, r := trace[n], trace[n].work.loaded.value.request;
    assert RequestCounted(s, r);
    if Waiting(s.waiters, r) != {} {
      var w :| w in Waiting(s.waiters, r);
    } else {
      assert forall w :: w in s.waiters && s.waiters[w] == r ==> w in Waiting(s.waiters, r);
    }
  }

  /** A request gone before it is read has ended by itself; whatever is read instead, no request is touched. */
  lemma GoneIsLeftAlone(trace: seq<State>, events: seq<Event>, n: nat, seen: u32)
    requires IsRun(trace, events) && n < |trace| && Enabled(trace[n], WorkDecides(seen))
    requires trace[n].requests[trace[n].work.loaded.value.request].refs == 0
    ensures var s, e := trace[n], trace[n].work.loaded.value;
            && s.requests[e.request].outcome != Pending && Asserts(s, WorkDecides(seen))
            && Step(s, WorkDecides(seen)) == s.(work := s.work.(todo := s.work.todo - {e.command}, loaded := None))
  {
    RunKeepsInv(trace, events, n);
    var s, e := trace[n], trace[n].work.loaded.value;
    assert RequestCounted(s, e.request) && LifeOk(s, e.request);
    StepKeeps(s, WorkDecides(seen));
  }

  const ANSWER := ZERO_COMPLETION.(commandId := 1)

  /** One NOP request and nothing else. */
  function Lone(q: Request, tracked: bool, called: bool, device: Device, generation: u32, work: Work, submitting: bool)
    : State
  {
    State(map[0 := q], map[], map[],
          if tracked then map[1 := 0] else map[], {}, {}, map[], if called then {0} else {}, {},
          device, generation, work, if submitting then Some(0) else None, false)
  }

  lemma RunExtends(trace: seq<State>, events: seq<Event>, e: Event, next: State)
    returns (longer: seq<State>, more: seq<Event>)
    requires IsRun(trace, events) && Enabled(trace[|events|], e) && Asserts(trace[|events|], e)
    requires Step(trace[|events|], e) == next
    ensures IsRun(longer, more) && longer[|more|] == next
  {
    longer, more := trace + [next], events + [e];
    forall i: nat | i < |more| ensures Goes(longer, more, i) {
      assert i < |events| ==> Goes(trace, events, i);
    }
  }

  lemma Rings(from: State) returns (trace: seq<State>, events: seq<Event>)
    requires Init(from)
    ensures IsRun(trace, events)
    ensures trace[|events|] == Lone(Request(None, None, None, 2, 1, from.generation, true, Pending), true, true,
                                    from.device, from.generation, from.work, false)
  {
    var made, g := Request(None, None, None, 2, 1, 0, false, Pending), from.generation;
    trace, events := RunExtends([from], [], Track(None, 0, 1, None, None),
                                Lone(made, true, true, from.device, g, from.work, true));
    var q := made.(generation := g, rung := true);
    trace, events := RunExtends(trace, events, Ring(0), Lone(q, true, true, from.device, g, from.work, false));
  }

  lemma Resets() returns (trace: seq<State>, events: seq<Event>)
    ensures IsRun(trace, events)
    ensures trace[|events|] == Lone(Request(None, None, None, 2, 1, 0, true, Pending), true, true,
                                    Device(1, map[0 := 1]), 0, Work(false, false, {}, None), false)
  {
    trace, events := Rings(EMPTY);
    var q, idle := Request(None, None, None, 2, 1, 0, true, Pending), Work(false, false, {}, None);
    trace, events := RunExtends(trace, events, DeviceResets, Lone(q, true, true, Device(1, map[]), 0, idle, false));
    trace, events := RunExtends(trace, events, ObserverReads(0),
                                Lone(q, true, true, Device(1, map[0 := 1]), 0, idle, false));
  }

  lemma Loads() returns (trace: seq<State>, events: seq<Event>)
    ensures IsRun(trace, events)
    ensures trace[|events|] == Lone(Request(None, None, None, 2, 1, 0, true, Pending), true, true, Device(1, map[]), 1,
                                    Work(false, true, {1}, Some(Entry(1, 0))), false)
  {
    trace, events := Resets();
    var q, d := Request(None, None, None, 2, 1, 0, true, Pending), Device(1, map[]);
    assert map[0 as Id := 1 as u32] - {0} == map[];
    trace, events := RunExtends(trace, events, ObserverStores(0),
                                Lone(q, true, true, d, 1, Work(true, false, {}, None), false));
    var running := Work(false, true, {1}, None);
    assert map[1 := 0 as Id].Keys == {1};
    trace, events := RunExtends(trace, events, WorkStarts, Lone(q, true, true, d, 1, running, false));
    trace, events := RunExtends(trace, events, WorkLoads(1),
                                Lone(q, true, true, d, 1, running.(loaded := Some(Entry(1, 0))), false));
  }

  /** It can be gone: a NOP whose answer arrives and whose caller leaves between the load and the read. */
  lemma LoadedMayBeGone() returns (trace: seq<State>, events: seq<Event>)
    ensures IsRun(trace, events)
    ensures var s := trace[|events|]; s.work.loaded == Some(Entry(1, 0)) && 0 in s.requests && s.requests[0].refs == 0
  {
    trace, events := Loads();
    var work, d := Work(false, true, {1}, Some(Entry(1, 0))), Device(1, map[]);
    var done := Request(None, None, None, 1, 1, 0, true, Finished(ANSWER));
    trace, events := RunExtends(trace, events, Finish(ANSWER), Lone(done, false, true, d, 1, work, false));
    trace, events := RunExtends(trace, events, NopEnds(0), Lone(done.(refs := 0), false, false, d, 1, work, false));
  }
}
