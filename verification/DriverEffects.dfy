/**
 What each step of the driver achieves, and that nothing is left behind in the end.
 */
module DriverEffects {
  import opened Abi
  import opened Driver
  import opened DriverRules
  import opened DriverProofs
  import opened DriverRuns

  /** What a step has done to the tables when it is over. */
  ghost predicate Does(s: State, e: Event, t: State) {
    match e
    case Open(f) => f in t.files && t.files[f] == File(1, true, false, false)
    case Register(f, m, copied) =>
      m in t.mappings && t.mappings[m].file == f && t.listed == if copied then s.listed + {m} else s.listed - {m}
    case Track(owner, r, command, source, destination) =>
      && r in t.requests && t.tracked == s.tracked[command := r] && t.submitting == Some(r)
      && t.reapable == (if owner.Some? then s.reapable + {r} else s.reapable)
      && t.callers == (if owner.None? then s.callers + {r} else s.callers)
      && t.requests[r].owner == owner && t.requests[r].command == command && t.requests[r].outcome == Pending
      && t.requests[r].source == source && t.requests[r].destination == destination
    case Ring(r) =>
      && t.submitting == None && t.tracked == s.tracked
      && r in t.requests && t.requests[r].rung && t.requests[r].generation == s.generation
    case CopyFailed(r) => t.reapable == s.reapable - {r} && t.tracked == s.tracked
    case CloseRequest(r) => t.reapable == s.reapable - {r} && t.tracked == s.tracked
    case NopEnds(r) => t.callers == s.callers - {r} && t.tracked == s.tracked
    case Finish(completion) => t.tracked == s.tracked - {completion.commandId} && t.reapable == s.reapable
    case RemoveCancels(command) => t.tracked == s.tracked - {command} && t.reapable == s.reapable
    case WaitBegins(w, r) => t.waiters == s.waiters[w := r]
    case WaitReaps(w) =>
      t.waiters == s.waiters - {w} && (w in s.waiters ==> t.reapable == s.reapable - {s.waiters[w]})
    case WaitGivesUp(w) => t.waiters == s.waiters - {w} && t.reapable == s.reapable
    case CloseBegins(f) => f in t.files && t.files[f].closing
    case CloseMapping(m) => t.listed == s.listed - {m}
    case CloseEnds(f) => f in t.files && !t.files[f].open
    case RemoveBegins => t.removing
    case DeviceResets => t.device.resets == s.device.resets + 1
    case ObserverStores(o) =>
      o in s.device.readers ==> t.generation == s.device.readers[o] && o !in t.device.readers
    case WorkStarts => !t.work.queued && (!s.removing ==> t.work.running && t.work.todo == s.tracked.Keys)
    case WorkDecides(_) =>
      && t.work.loaded.None?
      && (s.work.loaded.Some? ==> t.work.todo == s.work.todo - {s.work.loaded.value.command})
    case WorkEnds => !t.work.running
    case WorkLoads(command) =>
      if command in s.tracked then t.work.loaded == Some(Entry(command, s.tracked[command]))
      else t.work.loaded.None? && t.work.todo == s.work.todo - {command}
    case ObserverReads(o) =>
      Wrap32(s.device.resets) != s.generation ==>
        o in t.device.readers && t.device.readers[o] == Wrap32(s.device.resets)
    case Unregister(m) => t.listed == s.listed || t.listed == s.listed - {m}
  }

  lemma FileDoes(s: State, e: Event)
    requires Enabled(s, e) && Asserts(s, e) && OfFile(e)
    ensures Does(s, e, Step(s, e))
  {
  }

  lemma ObserverDoes(s: State, e: Event)
    requires Enabled(s, e) && Asserts(s, e) && OfReset(e) && !e.WorkDecides?
    ensures Does(s, e, Step(s, e))
  {
  }

  lemma RequestDoes(s: State, e: Event)
    requires Enabled(s, e) && Asserts(s, e) && (e.Track? || e.Ring? || e.WaitBegins?)
    ensures Does(s, e, Step(s, e))
  {
  }

  /** A put changes counts only. */
  ghost predicate TablesKept(s: State, t: State) {
    && t.tracked == s.tracked && t.reapable == s.reapable && t.callers == s.callers && t.waiters == s.waiters
    && t.work == s.work
  }

  lemma PutKeepsTables(s: State, r: Id)
    requires Puttable(s, r)
    ensures TablesKept(s, PutRequest(s, r))
  {
    PutShape(s, r);
  }

  lemma TerminateDoes(s: State, command: u32, outcome: Outcome)
    requires command in s.tracked && Puttable(s, s.tracked[command])
    ensures var t := Terminate(s, command, outcome);
            && t.tracked == s.tracked - {command} && t.reapable == s.reapable && t.callers == s.callers
            && t.waiters == s.waiters && t.work == s.work
  {
    var r := s.tracked[command];
    var ended := s.requests[r := s.requests[r].(outcome := outcome)];
    PutKeepsTables(s.(tracked := s.tracked - {command}, requests := ended), r);
  }

  lemma ReapDoes(s: State, w: Id)
    requires Enabled(s, WaitReaps(w)) && Asserts(s, WaitReaps(w))
    ensures var t := ReapStep(s, w); t.waiters == s.waiters - {w} && t.reapable == s.reapable - {s.waiters[w]}
  {
    var q := s.waiters[w];
    if q in s.reapable {
      var a := s.(reaped := s.reaped + {q}, reapable := s.reapable - {q});
      PutShape(a, q);
      var t := PutRequest(a, q);
      PutKeepsTables(t.(waiters := t.waiters - {w}), q);
    } else {
      PutKeepsTables(s.(waiters := s.waiters - {w}), q);
    }
  }

  lemma DropDoes(s: State, e: Event)
    requires Enabled(s, e) && Asserts(s, e) && (e.CopyFailed? || e.CloseRequest? || e.NopEnds? || e.WaitGivesUp?)
    ensures Does(s, e, Step(s, e))
  {
    if e.NopEnds? {
      PutKeepsTables(s.(callers := s.callers - {e.r}), e.r);
    } else if e.WaitGivesUp? {
      PutKeepsTables(s.(waiters := s.waiters - {e.w}), s.waiters[e.w]);
    } else {
      PutKeepsTables(s.(reapable := s.reapable - {e.r}), e.r);
    }
  }

  lemma DecideDoes(s: State, seen: u32)
    requires Enabled(s, WorkDecides(seen)) && Asserts(s, WorkDecides(seen))
    ensures Does(s, WorkDecides(seen), Step(s, WorkDecides(seen)))
  {
    var command := s.work.loaded.value.command;
    var t := s.(work := s.work.(todo := s.work.todo - {command}, loaded := None));
    if command in s.tracked {
      TerminateDoes(t, command, Cancelled(s.generation));
    }
  }

  /** Every step does what it is for. */
  lemma StepDoes(s: State, e: Event)
    requires Enabled(s, e) && Asserts(s, e)
    ensures Does(s, e, Step(s, e))
  {
    if OfFile(e) {
      FileDoes(s, e);
    } else if e.WorkDecides? {
      DecideDoes(s, e.seen);
    } else if OfReset(e) {
      ObserverDoes(s, e);
    } else if e.Track? || e.Ring? || e.WaitBegins? {
      RequestDoes(s, e);
    } else if e.WaitReaps? {
      ReapDoes(s, e.w);
    } else if e.Finish? {
      TerminateDoes(s, e.completion.commandId, Finished(e.completion));
    } else if e.RemoveCancels? {
      TerminateDoes(s, e.command, Gone);
    } else {
      DropDoes(s, e);
    }
  }

  // ---------------------------------------------------------------- the end

  /** No file is open, and neither the device nor an ioctl has a request. */
  ghost predicate Quiescent(s: State) {
    s.tracked == map[] && s.waiters == map[] && s.callers == {} && forall f :: f in s.files ==> !s.files[f].open
  }

  lemma NoRequestLeft(s: State, r: Id)
    requires Inv(s) && Quiescent(s) && r in s.requests
    ensures s.requests[r].refs == 0 && s.requests[r].outcome != Pending
  {
    assert RequestCounted(s, r) && Linked(s, r) && LifeOk(s, r);
    assert Waiting(s.waiters, r) == {};
  }

  /** Once all is closed no request is pending or held, each mapping has been unmapped once and each file freed. */
  lemma NothingIsLeft(trace: seq<State>, events: seq<Event>, n: nat)
    requires IsRun(trace, events) && n < |trace| && Quiescent(trace[n])
    ensures var s := trace[n];
            && (forall r :: r in s.requests ==> s.requests[r].refs == 0 && s.requests[r].outcome != Pending)
            && (forall m :: m in s.mappings ==> s.mappings[m].refs == 0 && s.mappings[m].unmaps == 1)
            && (forall f :: f in s.files ==> s.files[f].refs == 0 && s.files[f].freed)
  {
    var s := trace[n];
    RunKeepsInv(trace, events, n);
    forall r | r in s.requests ensures s.requests[r].refs == 0 && s.requests[r].outcome != Pending {
      NoRequestLeft(s, r);
    }
    forall m | m in s.mappings ensures s.mappings[m].refs == 0 && s.mappings[m].unmaps == 1 {
      assert MappingOk(s, m);
      assert Sources(s.requests, m) == {} && Destinations(s.requests, m) == {};
    }
    forall f | f in s.files ensures s.files[f].refs == 0 && s.files[f].freed {
      assert FileOk(s, f);
      assert Owned(s.requests, f) == {};
    }
  }
}
