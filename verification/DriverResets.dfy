/**
 What a cancel says about the device: an observer of a reset reads the generation register without a
 lock and stores what it read later, under one.
 */
module DriverResets {
  import opened Abi
  import opened Driver
  import opened DriverRules
  import opened DriverProofs
  import opened DriverRuns

  /** The driver has the device's generation, and no observer is about to store another. */
  ghost predicate Settled(s: State) {
    s.generation == Wrap32(s.device.resets) && forall o :: o in s.device.readers ==> s.device.readers[o] == s.generation
  }

  /** A stretch of a run in which the device does not reset. */
  ghost predicate Quietly(trace: seq<State>, events: seq<Event>) {
    |trace| == |events| + 1 && forall i: nat :: i < |events| ==> Goes(trace, events, i) && !events[i].DeviceResets?
  }

  ghost predicate IsCancelled(s: State, r: Id) { r in s.requests && s.requests[r].outcome.Cancelled? }

  /** The request can be cancelled although the device does not reset. */
  ghost predicate MayCancel(s: State, r: Id) {
    exists trace, events :: Quietly(trace, events) && trace[0] == s && IsCancelled(trace[|events|], r)
  }

  /** Rung under the generation the driver believes the device has, and not cancelled. */
  ghost predicate Current(s: State, r: Id) {
    r in s.requests && s.requests[r].rung && s.requests[r].generation == s.generation && !IsCancelled(s, r)
  }

  // ---------------------------------------------------------------- a settled driver

  lemma ObserverCurrent(s: State, o: Id, r: Id)
    requires Settled(s) && Current(s, r)
    ensures Settled(ReadStep(s, o)) && Current(ReadStep(s, o), r)
    ensures o in s.device.readers ==> Settled(StoreStep(s, o)) && Current(StoreStep(s, o), r)
  {
  }

  lemma RequestCurrent(s: State, e: Event, r: Id)
    requires Inv(s) && Enabled(s, e) && Asserts(s, e) && (e.Track? || e.Ring? || e.WaitBegins?)
    requires Settled(s) && Current(s, r)
    ensures Settled(Step(s, e)) && Current(Step(s, e), r)
  {
  }

  lemma PlainCurrent(s: State, e: Event, r: Id)
    requires Inv(s) && Enabled(s, e) && Asserts(s, e) && !MayPut(e) && !e.DeviceResets?
    requires Settled(s) && Current(s, r)
    ensures Settled(Step(s, e)) && Current(Step(s, e), r)
  {
    if OfFile(e) {
      FileStepShape(s, e);
    } else if e.ObserverReads? || e.ObserverStores? {
      ObserverCurrent(s, e.o, r);
    } else if e.WorkStarts? || e.WorkLoads? || e.WorkEnds? {
      WorkStepShape(s, e);
    } else {
      RequestCurrent(s, e, r);
    }
  }

  /** Without a reset of the device nothing changes for a settled driver. */
  lemma StepCurrent(s: State, e: Event, r: Id)
    requires Inv(s) && Enabled(s, e) && Asserts(s, e) && !e.DeviceResets? && Settled(s) && Current(s, r)
    ensures Settled(Step(s, e)) && Current(Step(s, e), r)
  {
    if MayPut(e) {
      PutStepEnd(s, e, r);
    } else {
      PlainCurrent(s, e, r);
    }
  }

  lemma QuietIsKept(trace: seq<State>, events: seq<Event>, n: nat, r: Id)
    requires Quietly(trace, events) && Inv(trace[0]) && Settled(trace[0]) && Current(trace[0], r) && n < |trace|
    ensures Inv(trace[n]) && Settled(trace[n]) && Current(trace[n], r)
  {
    for i := 0 to n
      invariant Inv(trace[i]) && Settled(trace[i]) && Current(trace[i], r)
    {
      assert Goes(trace, events, i);
      StepCurrent(trace[i], events[i], r);
      StepKeeps(trace[i], events[i]);
    }
  }

  // ---------------------------------------------------------------- any other

  lemma QuietExtends(trace: seq<State>, events: seq<Event>, e: Event) returns (longer: seq<State>, more: seq<Event>)
    requires Quietly(trace, events) && Inv(trace[|events|]) && Enabled(trace[|events|], e) && !e.DeviceResets?
    ensures Asserts(trace[|events|], e)
    ensures Quietly(longer, more) && longer[0] == trace[0]
    ensures longer[|more|] == Step(trace[|events|], e) && Inv(longer[|more|])
  {
    StepKeeps(trace[|events|], e);
    longer, more := trace + [Step(trace[|events|], e)], events + [e];
    forall i: nat | i < |more| ensures Goes(longer, more, i) && !more[i].DeviceResets? {
      assert i < |events| ==> Goes(trace, events, i);
    }
  }

  /** A rung request in the device's table, with no lock held and the device staying. */
  ghost predicate Exposed(s: State, r: Id) {
    && r in s.requests && IsTracked(s, r) && s.requests[r].rung && s.requests[r].refs > 0
    && s.submitting.None? && !s.work.running && !s.removing
  }

  lemma CancelMarks(s: State, r: Id)
    requires Inv(s) && r in s.requests && IsTracked(s, r) && s.requests[r].generation != s.generation
    requires s.work.running && s.work.loaded == Some(Entry(s.requests[r].command, r))
    ensures var e := WorkDecides(s.requests[r].generation); Enabled(s, e) && Asserts(s, e) && IsCancelled(Step(s, e), r)
  {
    var e := WorkDecides(s.requests[r].generation);
    StepKeeps(s, e);
    var command := s.requests[r].command;
    var t := s.(work := s.work.(todo := s.work.todo - {command}, loaded := None));
    PutShape(t.(tracked := s.tracked - {command},
                requests := s.requests[r := s.requests[r].(outcome := Cancelled(s.generation))]), r);
  }

  lemma WorkCancels(trace: seq<State>, events: seq<Event>, r: Id)
    requires Quietly(trace, events) && Inv(trace[|events|]) && Exposed(trace[|events|], r)
    requires trace[|events|].work.queued && trace[|events|].requests[r].generation != trace[|events|].generation
    ensures MayCancel(trace[0], r)
  {
    var c := trace[|events|].requests[r].command;
    var t, es := QuietExtends(trace, events, WorkStarts);
    t, es := QuietExtends(t, es, WorkLoads(c));
    CancelMarks(t[|es|], r);
    t, es := QuietExtends(t, es, WorkDecides(t[|es|].requests[r].generation));
  }

  lemma LateStoreCancels(trace: seq<State>, events: seq<Event>, o: Id, r: Id)
    requires Quietly(trace, events) && Inv(trace[|events|])
    requires var s := trace[|events|];
             Exposed(s, r) && Current(s, r) && o in s.device.readers && s.device.readers[o] != s.generation
    ensures MayCancel(trace[0], r)
  {
    var t, es := QuietExtends(trace, events, ObserverStores(o));
    WorkCancels(t, es, r);
  }

  lemma NewObserver(readers: map<Id, u32>) returns (o: Id)
    ensures o !in readers
  {
    var keys := readers.Keys;
    o := 0;
    while exists k :: k in keys && k >= o
      invariant forall k :: k in readers && k !in keys ==> k < o
      invariant keys <= readers.Keys
      decreases keys
    {
      var k :| k in keys && k >= o;
      o := k + 1;
      keys := keys - {k};
    }
  }

  /**
   A request rung under the generation the driver believes in can be cancelled without any reset of the
   device exactly when the driver is behind the register or an observer holds an old reading.
   */
  lemma CancelExactly(s: State, r: Id)
    requires Inv(s) && Exposed(s, r) && Current(s, r)
    ensures MayCancel(s, r) <==> !Settled(s)
  {
    if Settled(s) {
      if MayCancel(s, r) {
        var trace, events :| Quietly(trace, events) && trace[0] == s && IsCancelled(trace[|events|], r);
        QuietIsKept(trace, events, |events|, r);
        assert false;
      }
    } else if o :| o in s.device.readers && s.device.readers[o] != s.generation {
      LateStoreCancels([s], [], o, r);
    } else {
      var o := NewObserver(s.device.readers);
      var t, es := QuietExtends([s], [], ObserverReads(o));
      LateStoreCancels(t, es, o, r);
    }
  }

  /** So over a whole run a cancel means a reset since the doorbell, if the driver was settled when it rang. */
  lemma CancelMeansReset(trace: seq<State>, events: seq<Event>, i: nat, n: nat, r: Id)
    requires IsRun(trace, events) && i <= n < |trace| && Settled(trace[i]) && Current(trace[i], r)
    requires IsCancelled(trace[n], r)
    ensures exists k: nat :: i <= k < n && events[k].DeviceResets?
  {
    if forall k: nat :: i <= k < n ==> !events[k].DeviceResets? {
      RunKeepsInv(trace, events, i);
      var t, es := trace[i..n + 1], events[i..n];
      forall k: nat | k < |es| ensures Goes(t, es, k) && !es[k].DeviceResets? {
        assert Goes(trace, events, i + k);
      }
      QuietIsKept(t, es, n - i, r);
      assert false;
    }
  }

  lemma Overtaken() returns (trace: seq<State>, events: seq<Event>)
    ensures IsRun(trace, events)
    ensures trace[|events|] == EMPTY.(device := Device(2, map[0 := 1, 1 := 2]))
  {
    trace, events := RunExtends([EMPTY], [], DeviceResets, EMPTY.(device := Device(1, map[])));
    trace, events := RunExtends(trace, events, ObserverReads(0), EMPTY.(device := Device(1, map[0 := 1])));
    trace, events := RunExtends(trace, events, DeviceResets, EMPTY.(device := Device(2, map[0 := 1])));
    trace, events := RunExtends(trace, events, ObserverReads(1), EMPTY.(device := Device(2, map[0 := 1, 1 := 2])));
  }

  /** Such a state is reached: of two observers of two resets, the first to read stores last. */
  lemma LateReader() returns (trace: seq<State>, events: seq<Event>)
    ensures IsRun(trace, events)
    ensures var s := trace[|events|];
            Exposed(s, 0) && Current(s, 0) && s.generation == Wrap32(s.device.resets) && MayCancel(s, 0)
  {
    trace, events := Overtaken();
    var work, made := Work(true, false, {}, None), Request(None, None, None, 2, 1, 0, false, Pending);
    var left := Device(2, map[0 := 1, 1 := 2] - {1});
    trace, events := RunExtends(trace, events, ObserverStores(1),
                                EMPTY.(device := left, generation := 2, work := work));
    trace, events := RunExtends(trace, events, Track(None, 0, 1, None, None),
                                Lone(made, true, true, left, 2, work, true));
    trace, events := RunExtends(trace, events, Ring(0),
                                Lone(made.(generation := 2, rung := true), true, true, left, 2, work, false));
    RunKeepsInv(trace, events, |events|);
    CancelExactly(trace[|events|], 0);
  }
}
