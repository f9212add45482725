/**
 What every step of the driver keeps.
 */
module DriverRules {
  import opened Abi
  import opened Driver

  function Bit(b: bool): nat { if b then 1 else 0 }

  // ---------------------------------------------------------------- the references that exist

  /** Waits holding the request; live requests using the mapping, or belonging to the file. */
  ghost function Waiting(waiters: map<Id, Id>, r: Id): set<Id> { set w | w in waiters && waiters[w] == r }

  ghost function Sources(q: map<Id, Request>, m: Id): set<Id> {
    set r | r in q && q[r].refs > 0 && q[r].source == Some(m)
  }

  ghost function Destinations(q: map<Id, Request>, m: Id): set<Id> {
    set r | r in q && q[r].refs > 0 && q[r].destination == Some(m)
  }

  ghost function Owned(q: map<Id, Request>, f: Id): set<Id> {
    set r | r in q && q[r].refs > 0 && q[r].owner == Some(f)
  }

  ghost function References(s: State, r: Id): nat
    requires r in s.requests
  {
    Bit(r in s.reapable) + Bit(IsTracked(s, r)) + Bit(r in s.callers) + |Waiting(s.waiters, r)|
  }

  // ---------------------------------------------------------------- the invariant

  /** Each count is the number of references that exist. */
  ghost predicate RequestCounted(s: State, r: Id) {
    r in s.requests ==> s.requests[r].refs == References(s, r)
  }

  ghost predicate MappingOk(s: State, m: Id) {
    m in s.mappings ==>
      && s.mappings[m].refs == Bit(m in s.listed) + |Sources(s.requests, m)| + |Destinations(s.requests, m)|
      && s.mappings[m].unmaps == Bit(s.mappings[m].refs == 0)
      && (m in s.listed ==> s.mappings[m].file in s.files && s.files[s.mappings[m].file].open)
  }

  ghost predicate FileOk(s: State, f: Id) {
    f in s.files ==>
      && s.files[f].refs == Bit(s.files[f].open) + |Owned(s.requests, f)|
      && (s.files[f].freed <==> s.files[f].refs == 0)
  }

  /** What a request names exists. */
  ghost predicate Linked(s: State, r: Id) {
    r in s.requests ==>
      var q := s.requests[r];
      && (q.source.Some? ==> q.source.value in s.mappings)
      && (q.destination.Some? ==> q.destination.value in s.mappings)
      && (q.owner.Some? ==> q.owner.value in s.files)
      && (r in s.reapable ==> q.owner.Some? && s.files[q.owner.value].open)
  }

  /** A request is pending exactly while the device tracks it, ends once, and is cancelled only across a reset. */
  ghost predicate LifeOk(s: State, r: Id) {
    r in s.requests ==>
      var q := s.requests[r];
      && (IsTracked(s, r) ==> q.outcome == Pending)
      && (!IsTracked(s, r) ==> q.outcome != Pending)
      && (IsTracked(s, r) && !q.rung ==> s.submitting == Some(r))
      && (q.outcome.Cancelled? ==> q.rung && q.outcome.observed != q.generation)
      && (r in s.reaped ==> r !in s.reapable && q.outcome != Pending)
      && (IsTracked(s, r) ==> Pursued(s, r))
  }

  /** A tracked request rung under another generation is one the reset work will visit, or the device is going away. */
  ghost predicate Pursued(s: State, r: Id)
    requires r in s.requests
  {
    var q := s.requests[r];
    q.rung && q.generation != s.generation ==>
      s.work.queued || (s.work.running && q.command in s.work.todo) || s.removing
  }

  /** The tables name existing objects under the right numbers. */
  ghost predicate TablesOk(s: State) {
    && (forall c :: c in s.tracked ==> s.tracked[c] in s.requests && s.requests[s.tracked[c]].command == c)
    && s.reapable <= s.requests.Keys && s.callers <= s.requests.Keys && s.reaped <= s.requests.Keys
    && (forall w :: w in s.waiters ==> s.waiters[w] in s.requests)
    && s.listed <= s.mappings.Keys
    && (s.submitting.Some? ==> s.submitting.value in s.requests && !s.requests[s.submitting.value].rung)
    && (s.work.running ==> s.submitting.None?)
    && (s.work.loaded.Some? ==> LoadedOk(s, s.work.loaded.value))
  }

  /** The loaded entry is one the work is about, and the table has nothing else under its number. */
  ghost predicate LoadedOk(s: State, e: Entry) {
    && s.work.running && e.command in s.work.todo
    && e.request in s.requests && s.requests[e.request].command == e.command
    && (e.command in s.tracked ==> s.tracked[e.command] == e.request)
  }

  /** Everything but the request counts. */
  ghost predicate Sound(s: State) {
    && TablesOk(s)
    && (forall r :: Linked(s, r)) && (forall r :: LifeOk(s, r))
    && (forall m :: MappingOk(s, m)) && (forall f :: FileOk(s, f))
  }

  ghost predicate Inv(s: State) {
    Sound(s) && (forall r :: RequestCounted(s, r))
  }

  /** As `Inv`, with one reference of `r` taken out of its table and not yet put. */
  ghost predicate Owing(s: State, r: Id) {
    && Sound(s) && r in s.requests && s.requests[r].refs == References(s, r) + 1
    && (forall x :: x != r ==> RequestCounted(s, x))
  }
}

module DriverProofs {
  import opened Abi
  import opened Driver
  import opened DriverRules

  // ---------------------------------------------------------------- putting a reference

  lemma LiveIsBacked(s: State, r: Id)
    requires Sound(s) && r in s.requests && s.requests[r].refs > 0
    ensures Backed(s, s.requests[r])
  {
    var q := s.requests[r];
    assert Linked(s, r);
    if q.source.Some? {
      assert MappingOk(s, q.source.value);
      assert r in Sources(s.requests, q.source.value);
    }
    if q.destination.Some? {
      assert MappingOk(s, q.destination.value);
      assert r in Destinations(s.requests, q.destination.value);
    }
    if q.owner.Some? {
      assert FileOk(s, q.owner.value);
      assert r in Owned(s.requests, q.owner.value);
    }
  }

  /** The request is live, and names the same things, in both states or in neither. */
  ghost predicate SameUse(s: State, t: State, r: Id) {
    && (r in s.requests <==> r in t.requests)
    && (r in s.requests ==>
          && (s.requests[r].refs > 0 <==> t.requests[r].refs > 0)
          && s.requests[r].source == t.requests[r].source && s.requests[r].destination == t.requests[r].destination
          && s.requests[r].owner == t.requests[r].owner && s.requests[r].command == t.requests[r].command)
  }

  lemma SameUsers(s: State, t: State, x: Id)
    requires forall r :: SameUse(s, t, r)
    ensures Sources(t.requests, x) == Sources(s.requests, x)
    ensures Destinations(t.requests, x) == Destinations(s.requests, x)
    ensures Owned(t.requests, x) == Owned(s.requests, x)
  {
    forall r ensures r in Sources(t.requests, x) <==> r in Sources(s.requests, x) { assert SameUse(s, t, r); }
    forall r ensures r in Destinations(t.requests, x) <==> r in Destinations(s.requests, x) { assert SameUse(s, t, r); }
    forall r ensures r in Owned(t.requests, x) <==> r in Owned(s.requests, x) { assert SameUse(s, t, r); }
  }

  /** Only request contents changed, and not who uses what: mappings and files are as sound as before. */
  lemma UsersKept(s: State, t: State)
    requires (forall m :: MappingOk(s, m)) && (forall f :: FileOk(s, f)) && (forall r :: SameUse(s, t, r))
    requires t.mappings == s.mappings && t.files == s.files && t.listed == s.listed
    ensures (forall m :: MappingOk(t, m)) && (forall f :: FileOk(t, f))
  {
    forall m ensures MappingOk(t, m) {
      assert MappingOk(s, m);
      SameUsers(s, t, m);
    }
    forall f ensures FileOk(t, f) {
      assert FileOk(s, f);
      SameUsers(s, t, f);
    }
  }

  lemma PutOneOfMany(s: State, r: Id)
    requires Owing(s, r) && s.requests[r].refs > 1
    ensures Inv(PutRequest(s, r))
  {
    var t := PutRequest(s, r);
    forall x ensures SameUse(s, t, x) {}
    UsersKept(s, t);
    forall x ensures Linked(t, x) && LifeOk(t, x) && RequestCounted(t, x) {
      assert Linked(s, x) && LifeOk(s, x) && (x != r ==> RequestCounted(s, x));
      assert Waiting(t.waiters, x) == Waiting(s.waiters, x);
    }
  }

  /** The mapping's count after one use ends. */
  lemma PutMappingExact(s: State, m: Option<Id>, x: Id)
    requires m.Some? ==> m.value in s.mappings && s.mappings[m.value].refs > 0
    ensures var t := PutMapping(s, m);
            && t == s.(mappings := t.mappings) && t.mappings.Keys == s.mappings.Keys
            && (x in s.mappings ==> && t.mappings[x].file == s.mappings[x].file
                                    && t.mappings[x].refs == s.mappings[x].refs - Bit(m == Some(x))
                                    && t.mappings[x].unmaps == s.mappings[x].unmaps
                                                               + Bit(m == Some(x) && s.mappings[x].refs == 1))
  {
  }

  /** The state after the last reference of a request is put: only the request, its mappings and its file change. */
  lemma PutLastShape(s: State, r: Id)
    requires r in s.requests && s.requests[r].refs == 1 && Backed(s, s.requests[r])
    ensures var t := PutRequest(s, r);
            && t == s.(requests := s.requests[r := s.requests[r].(refs := 0)], mappings := t.mappings, files := t.files)
            && t.mappings.Keys == s.mappings.Keys && t.files.Keys == s.files.Keys
  {
  }

  lemma PutLastCounts(s: State, r: Id, x: Id)
    requires r in s.requests && s.requests[r].refs == 1 && Backed(s, s.requests[r]) && x in s.mappings
    ensures var t, q := PutRequest(s, r), s.requests[r];
            && x in t.mappings && t.mappings[x].file == s.mappings[x].file
            && t.mappings[x].refs == s.mappings[x].refs - Bit(q.source == Some(x)) - Bit(q.destination == Some(x))
            && t.mappings[x].unmaps == s.mappings[x].unmaps + Bit(t.mappings[x].refs == 0 && s.mappings[x].refs > 0)
  {
    var q := s.requests[r];
    var t0 := s.(requests := s.requests[r := q.(refs := 0)]);
    PutMappingExact(t0, q.source, x);
    PutMappingExact(PutMapping(t0, q.source), q.destination, x);
  }

  lemma PutLastOwner(s: State, r: Id, x: Id)
    requires r in s.requests && s.requests[r].refs == 1 && Backed(s, s.requests[r]) && x in s.files
    ensures var t, q := PutRequest(s, r), s.requests[r];
            && x in t.files && t.files[x].open == s.files[x].open
            && t.files[x].refs == s.files[x].refs - Bit(q.owner == Some(x))
            && t.files[x].freed == (if q.owner == Some(x) then t.files[x].refs == 0 else s.files[x].freed)
  {
    var q := s.requests[r];
    var t0 := s.(requests := s.requests[r := q.(refs := 0)]);
    PutMappingExact(t0, q.source, x);
    PutMappingExact(PutMapping(t0, q.source), q.destination, x);
  }

  /** The dead request leaves the users of what it named. */
  lemma SourcesWithout(q: map<Id, Request>, r: Id, x: Id)
    requires r in q && q[r].refs == 1
    ensures |Sources(q[r := q[r].(refs := 0)], x)| == |Sources(q, x)| - Bit(q[r].source == Some(x))
  {
    assert Sources(q[r := q[r].(refs := 0)], x) == Sources(q, x) - {r};
    assert r in Sources(q, x) <==> q[r].source == Some(x);
  }

  lemma DestinationsWithout(q: map<Id, Request>, r: Id, x: Id)
    requires r in q && q[r].refs == 1
    ensures |Destinations(q[r := q[r].(refs := 0)], x)| == |Destinations(q, x)| - Bit(q[r].destination == Some(x))
  {
    assert Destinations(q[r := q[r].(refs := 0)], x) == Destinations(q, x) - {r};
    assert r in Destinations(q, x) <==> q[r].destination == Some(x);
  }

  lemma OwnedWithout(q: map<Id, Request>, r: Id, x: Id)
    requires r in q && q[r].refs == 1
    ensures |Owned(q[r := q[r].(refs := 0)], x)| == |Owned(q, x)| - Bit(q[r].owner == Some(x))
  {
    assert Owned(q[r := q[r].(refs := 0)], x) == Owned(q, x) - {r};
    assert r in Owned(q, x) <==> q[r].owner == Some(x);
  }

  lemma PutLastMapping(s: State, r: Id, m: Id)
    requires r in s.requests && s.requests[r].refs == 1 && Backed(s, s.requests[r]) && MappingOk(s, m)
    ensures MappingOk(PutRequest(s, r), m)
  {
    PutLastShape(s, r);
    if m in s.mappings {
      PutLastCounts(s, r, m);
      SourcesWithout(s.requests, r, m);
      DestinationsWithout(s.requests, r, m);
      if s.mappings[m].file in s.files {
        PutLastOwner(s, r, s.mappings[m].file);
      }
    }
  }

  lemma PutLastFile(s: State, r: Id, f: Id)
    requires r in s.requests && s.requests[r].refs == 1 && Backed(s, s.requests[r]) && FileOk(s, f)
    ensures FileOk(PutRequest(s, r), f)
  {
    PutLastShape(s, r);
    if f in s.files {
      PutLastOwner(s, r, f);
      OwnedWithout(s.requests, r, f);
    }
  }

  lemma PutLastLinked(s: State, r: Id, x: Id)
    requires r in s.requests && s.requests[r].refs == 1 && Backed(s, s.requests[r]) && Linked(s, x)
    ensures Linked(PutRequest(s, r), x)
  {
    PutLastShape(s, r);
    if x in s.requests && s.requests[x].owner.Some? {
      PutLastOwner(s, r, s.requests[x].owner.value);
    }
  }

  lemma PutLastRequest(s: State, r: Id, x: Id)
    requires r in s.requests && s.requests[r].refs == 1 && Backed(s, s.requests[r])
    requires LifeOk(s, x) && s.requests[r].refs == References(s, r) + 1 && (x != r ==> RequestCounted(s, x))
    ensures LifeOk(PutRequest(s, r), x) && RequestCounted(PutRequest(s, r), x)
  {
    PutLastShape(s, r);
  }

  lemma PutLast(s: State, r: Id)
    requires Owing(s, r) && s.requests[r].refs == 1
    ensures Backed(s, s.requests[r]) && Inv(PutRequest(s, r))
  {
    LiveIsBacked(s, r);
    var t := PutRequest(s, r);
    PutLastShape(s, r);
    forall m ensures MappingOk(t, m) {
      assert MappingOk(s, m);
      PutLastMapping(s, r, m);
    }
    forall f ensures FileOk(t, f) {
      assert FileOk(s, f);
      PutLastFile(s, r, f);
    }
    forall x ensures Linked(t, x) && LifeOk(t, x) && RequestCounted(t, x) {
      assert Linked(s, x) && LifeOk(s, x) && (x != r ==> RequestCounted(s, x));
      PutLastLinked(s, r, x);
      PutLastRequest(s, r, x);
    }
  }

  /** Putting a reference that has left its table restores every count. */
  lemma PutKeeps(s: State, r: Id)
    requires Owing(s, r)
    ensures Puttable(s, r) && Inv(PutRequest(s, r))
  {
    if s.requests[r].refs == 1 {
      PutLast(s, r);
    } else {
      PutOneOfMany(s, r);
    }
  }

  // ---------------------------------------------------------------- steps that put a request reference

  lemma DropEntryKeeps(s: State, r: Id)
    requires Inv(s) && r in s.reapable
    ensures Puttable(s, r) && Inv(DropEntry(s, r))
  {
    assert RequestCounted(s, r);
    EntryGone(s, r, s.reaped);
    PutKeeps(s.(reapable := s.reapable - {r}), r);
  }

  /** Taking a request out of its file's table leaves one reference to put. */
  lemma EntryGone(s: State, r: Id, reaped: set<Id>)
    requires Inv(s) && r in s.reapable
    requires reaped == s.reaped || (reaped == s.reaped + {r} && s.requests[r].outcome != Pending)
    ensures Owing(s.(reapable := s.reapable - {r}, reaped := reaped), r)
  {
    var t := s.(reapable := s.reapable - {r}, reaped := reaped);
    forall x ensures SameUse(s, t, x) {}
    UsersKept(s, t);
    assert RequestCounted(s, r);
    forall x ensures Linked(t, x) && LifeOk(t, x) && (x != r ==> RequestCounted(t, x)) {
      assert Linked(s, x) && LifeOk(s, x) && RequestCounted(s, x);
    }
  }

  lemma DropWaiterKeeps(s: State, w: Id)
    requires Inv(s) && w in s.waiters
    ensures Puttable(s, s.waiters[w]) && Inv(DropWaiter(s, w))
  {
    var r, t := s.waiters[w], s.(waiters := s.waiters - {w});
    forall x ensures SameUse(s, t, x) {}
    UsersKept(s, t);
    forall x ensures Linked(t, x) && LifeOk(t, x) && (x != r ==> RequestCounted(t, x)) {
      assert Linked(s, x) && LifeOk(s, x) && RequestCounted(s, x);
      assert x != r ==> Waiting(t.waiters, x) == Waiting(s.waiters, x);
    }
    assert RequestCounted(s, r) && w in Waiting(s.waiters, r);
    assert Waiting(t.waiters, r) == Waiting(s.waiters, r) - {w};
    PutKeeps(t, r);
  }

  lemma DropCallerKeeps(s: State, r: Id)
    requires Inv(s) && r in s.callers
    ensures Puttable(s, r) && Inv(DropCaller(s, r))
  {
    var t := s.(callers := s.callers - {r});
    forall x ensures SameUse(s, t, x) {}
    UsersKept(s, t);
    forall x ensures Linked(t, x) && LifeOk(t, x) && (x != r ==> RequestCounted(t, x)) {
      assert Linked(s, x) && LifeOk(s, x) && RequestCounted(s, x);
    }
    assert RequestCounted(s, r);
    PutKeeps(t, r);
  }

  /** The work goes on as before, or has just visited this entry. */
  predicate Visiting(before: Work, after: Work, command: u32) {
    after == before || after == before.(todo := before.todo - {command}, loaded := None)
  }

  /** Taking a request out of the device's table, with an outcome, leaves one reference to put. */
  lemma EntryEnded(s: State, command: u32, outcome: Outcome, work: Work)
    requires Inv(s) && command in s.tracked && outcome != Pending && Visiting(s.work, work, command)
    requires outcome.Cancelled? ==>
               var q := s.requests[s.tracked[command]]; q.rung && outcome.observed != q.generation
    ensures var r := s.tracked[command];
            Owing(s.(work := work, tracked := s.tracked - {command},
                     requests := s.requests[r := s.requests[r].(outcome := outcome)]), r)
  {
    var r := s.tracked[command];
    var t := s.(work := work, tracked := s.tracked - {command},
                requests := s.requests[r := s.requests[r].(outcome := outcome)]);
    forall x ensures SameUse(s, t, x) {}
    UsersKept(s, t);
    assert RequestCounted(s, r);
    forall x ensures Linked(t, x) && LifeOk(t, x) && (x != r ==> RequestCounted(t, x)) {
      assert Linked(s, x) && LifeOk(s, x) && RequestCounted(s, x);
      assert x in s.requests && x != r ==> (IsTracked(s, x) <==> IsTracked(t, x));
    }
  }

  lemma TerminateKeeps(s: State, command: u32, outcome: Outcome, work: Work)
    requires Inv(s) && command in s.tracked && outcome != Pending && Visiting(s.work, work, command)
    requires outcome.Cancelled? ==>
               var q := s.requests[s.tracked[command]]; q.rung && outcome.observed != q.generation
    ensures Puttable(s, s.tracked[command]) && Inv(Terminate(s.(work := work), command, outcome))
  {
    var r := s.tracked[command];
    EntryEnded(s, command, outcome, work);
    assert RequestCounted(s, r);
    LiveIsBacked(s, r);
    PutKeeps(s.(work := work, tracked := s.tracked - {command},
                requests := s.requests[r := s.requests[r].(outcome := outcome)]), r);
  }

  /** A wait reaps at most once: the request leaves the file's table as its result is returned. */
  lemma ReapKeeps(s: State, w: Id)
    requires Inv(s) && w in s.waiters && s.requests[s.waiters[w]].outcome != Pending
    ensures Puttable(s, s.waiters[w]) && Backed(s, s.requests[s.waiters[w]])
    ensures s.waiters[w] in s.reapable ==> s.requests[s.waiters[w]].refs > 1 && s.waiters[w] !in s.reaped
    ensures Inv(ReapStep(s, w))
  {
    var r := s.waiters[w];
    assert RequestCounted(s, r) && w in Waiting(s.waiters, r) && LifeOk(s, r);
    LiveIsBacked(s, r);
    if r in s.reapable {
      var t := s.(reapable := s.reapable - {r}, reaped := s.reaped + {r});
      EntryGone(s, r, t.reaped);
      PutKeeps(t, r);
      assert DropEntry(s.(reaped := s.reaped + {r}), r) == PutRequest(t, r);
      DropWaiterKeeps(PutRequest(t, r), w);
    } else {
      DropWaiterKeeps(s, w);
    }
  }

  // ---------------------------------------------------------------- the other steps

  /** A step that changes neither the objects nor the tables. */
  lemma ControlKeeps(s: State, t: State)
    requires Inv(s) && t == s.(device := t.device, generation := t.generation, work := t.work, removing := t.removing)
    requires t.work.running ==> s.submitting.None?
    requires t.work.loaded.Some? ==> LoadedOk(t, t.work.loaded.value)
    requires forall r :: r in s.requests && IsTracked(s, r) ==> Pursued(t, r)
    ensures Inv(t)
  {
    forall x ensures SameUse(s, t, x) {}
    UsersKept(s, t);
    forall x ensures Linked(t, x) && LifeOk(t, x) && RequestCounted(t, x) {
      assert Linked(s, x) && LifeOk(s, x) && RequestCounted(s, x);
      assert x in s.requests && IsTracked(s, x) ==> Pursued(t, x);
    }
  }

  lemma StoreKeeps(s: State, o: Id)
    requires Inv(s) && o in s.device.readers
    ensures Inv(StoreStep(s, o))
  {
    var t := StoreStep(s, o);
    forall r | r in s.requests && IsTracked(s, r) ensures Pursued(t, r) { StorePursues(s, o, r); }
    ControlKeeps(s, t);
  }

  lemma StorePursues(s: State, o: Id, r: Id)
    requires Inv(s) && o in s.device.readers && r in s.requests && IsTracked(s, r)
    ensures Pursued(StoreStep(s, o), r)
  {
    assert LifeOk(s, r);
  }

  lemma DeviceKeeps(s: State, device: Device)
    requires Inv(s)
    ensures Inv(s.(device := device))
  {
    var t := s.(device := device);
    forall r | r in s.requests && IsTracked(s, r) ensures Pursued(t, r) { assert LifeOk(s, r); }
    ControlKeeps(s, t);
  }

  lemma WorkStartKeeps(s: State)
    requires Inv(s) && s.submitting.None?
    ensures Inv(WorkStartStep(s))
  {
    var t := WorkStartStep(s);
    forall r | r in s.requests && IsTracked(s, r) ensures Pursued(t, r) { assert LifeOk(s, r); }
    ControlKeeps(s, t);
  }

  lemma WorkEndKeeps(s: State)
    requires Inv(s) && s.work.todo == {} && s.work.loaded.None?
    ensures Inv(s.(work := s.work.(running := false)))
  {
    var t := s.(work := s.work.(running := false));
    forall r | r in s.requests && IsTracked(s, r) ensures Pursued(t, r) { assert LifeOk(s, r); }
    ControlKeeps(s, t);
  }

  lemma RemoveKeeps(s: State)
    requires Inv(s)
    ensures Inv(s.(removing := true))
  {
    var t := s.(removing := true);
    forall r | r in s.requests && IsTracked(s, r) ensures Pursued(t, r) { assert LifeOk(s, r); }
    ControlKeeps(s, t);
  }

  lemma LoadPursues(s: State, command: u32, x: Id)
    requires Inv(s) && s.work.running && command in s.work.todo && x in s.requests && IsTracked(s, x)
    ensures Pursued(WorkLoadStep(s, command), x)
  {
    assert LifeOk(s, x);
  }

  lemma WorkLoadKeeps(s: State, command: u32)
    requires Inv(s) && s.work.running && s.work.loaded.None? && command in s.work.todo
    ensures Inv(WorkLoadStep(s, command))
  {
    var t := WorkLoadStep(s, command);
    forall x | x in s.requests && IsTracked(s, x) ensures Pursued(t, x) { LoadPursues(s, command, x); }
    ControlKeeps(s, t);
  }

  /** A loaded entry is cancelled exactly when it is stale and still there, so it no longer needs a visit. */
  lemma WorkDecideKeeps(s: State, seen: u32)
    requires Inv(s) && Enabled(s, WorkDecides(seen))
    ensures Asserts(s, WorkDecides(seen)) && Inv(WorkDecideStep(s, seen))
  {
    var e := s.work.loaded.value;
    var t := s.(work := s.work.(todo := s.work.todo - {e.command}, loaded := None));
    if e.command in s.tracked {
      assert LifeOk(s, e.request) && RequestCounted(s, e.request);
      LiveIsBacked(s, e.request);
    }
    if seen != s.generation && e.command in s.tracked {
      TerminateKeeps(s, e.command, Cancelled(s.generation), t.work);
    } else {
      forall x | x in s.requests && IsTracked(s, x) ensures Pursued(t, x) {
        assert LifeOk(s, x) && RequestCounted(s, x);
      }
      ControlKeeps(s, t);
    }
  }

  lemma RingKeeps(s: State, r: Id)
    requires Inv(s) && s.submitting == Some(r)
    ensures Inv(RingStep(s, r))
  {
    var t := RingStep(s, r);
    forall x ensures SameUse(s, t, x) {}
    UsersKept(s, t);
    forall x ensures Linked(t, x) && LifeOk(t, x) && RequestCounted(t, x) {
      assert Linked(s, x) && LifeOk(s, x) && RequestCounted(s, x);
    }
  }

  lemma WaitingWith(waiters: map<Id, Id>, w: Id, r: Id, x: Id)
    requires w !in waiters
    ensures |Waiting(waiters[w := r], x)| == |Waiting(waiters, x)| + Bit(x == r)
  {
    if x == r {
      assert Waiting(waiters[w := r], x) == Waiting(waiters, x) + {w};
    } else {
      assert Waiting(waiters[w := r], x) == Waiting(waiters, x);
    }
  }

  lemma WaitBeginKeeps(s: State, w: Id, r: Id)
    requires Inv(s) && w !in s.waiters && r in s.reapable
    ensures r in s.requests && Inv(WaitBeginStep(s, w, r))
  {
    var t := WaitBeginStep(s, w, r);
    assert RequestCounted(s, r);
    forall x ensures SameUse(s, t, x) {}
    UsersKept(s, t);
    forall x ensures Linked(t, x) && LifeOk(t, x) && RequestCounted(t, x) {
      assert Linked(s, x) && LifeOk(s, x) && RequestCounted(s, x);
      WaitingWith(s.waiters, w, r, x);
    }
  }

  // ---------------------------------------------------------------- files and mappings

  /** Nothing names a mapping or a file that does not exist. */
  lemma NobodyUses(s: State, x: Id)
    requires Sound(s)
    ensures x !in s.mappings ==> Sources(s.requests, x) == {} && Destinations(s.requests, x) == {}
    ensures x !in s.files ==> Owned(s.requests, x) == {}
  {
    if x !in s.mappings {
      forall r ensures r !in Sources(s.requests, x) && r !in Destinations(s.requests, x) { assert Linked(s, r); }
    }
    if x !in s.files {
      forall r ensures r !in Owned(s.requests, x) { assert Linked(s, r); }
    }
  }

  ghost predicate OwnerOpen(s: State, t: State, r: Id) {
    r in s.reapable && r in s.requests && s.requests[r].owner.Some? ==>
      s.requests[r].owner.value in t.files && t.files[s.requests[r].owner.value].open
  }

  /** Steps on files and mappings leave the requests alone. */
  lemma RequestsKept(s: State, t: State)
    requires Inv(s) && t == s.(files := t.files, mappings := t.mappings, listed := t.listed)
    requires t.listed <= t.mappings.Keys && s.mappings.Keys <= t.mappings.Keys && s.files.Keys <= t.files.Keys
    requires forall r :: OwnerOpen(s, t, r)
    requires (forall m :: MappingOk(t, m)) && (forall f :: FileOk(t, f))
    ensures Inv(t)
  {
    forall x ensures Linked(t, x) && LifeOk(t, x) && RequestCounted(t, x) {
      assert Linked(s, x) && LifeOk(s, x) && RequestCounted(s, x) && OwnerOpen(s, t, x);
    }
  }

  lemma OpenKeeps(s: State, f: Id)
    requires Inv(s) && f !in s.files
    ensures Inv(s.(files := s.files[f := File(1, true, false, false)]))
  {
    var t := s.(files := s.files[f := File(1, true, false, false)]);
    NobodyUses(s, f);
    forall x ensures MappingOk(t, x) && FileOk(t, x) { assert MappingOk(s, x) && FileOk(s, x); }
    forall r ensures OwnerOpen(s, t, r) { assert Linked(s, r); }
    RequestsKept(s, t);
  }

  lemma CloseBeginKeeps(s: State, f: Id)
    requires Inv(s) && f in s.files
    ensures Inv(s.(files := s.files[f := s.files[f].(closing := true)]))
  {
    var t := s.(files := s.files[f := s.files[f].(closing := true)]);
    forall x ensures MappingOk(t, x) && FileOk(t, x) { assert MappingOk(s, x) && FileOk(s, x); }
    forall r ensures OwnerOpen(s, t, r) { assert Linked(s, r); }
    RequestsKept(s, t);
  }

  lemma DropMappingKeeps(s: State, m: Id)
    requires Inv(s) && m in s.listed
    ensures m in s.mappings && s.mappings[m].refs > 0 && Inv(DropMapping(s, m))
  {
    assert MappingOk(s, m);
    var t := DropMapping(s, m);
    forall x ensures MappingOk(t, x) && FileOk(t, x) { assert MappingOk(s, x) && FileOk(s, x); }
    forall r ensures OwnerOpen(s, t, r) { assert Linked(s, r); }
    RequestsKept(s, t);
  }

  lemma ListKeeps(s: State, f: Id, m: Id)
    requires Inv(s) && m !in s.mappings && f in s.files && s.files[f].open
    ensures Inv(s.(mappings := s.mappings[m := Mapping(f, 1, 0)], listed := s.listed + {m}))
  {
    var t := s.(mappings := s.mappings[m := Mapping(f, 1, 0)], listed := s.listed + {m});
    NobodyUses(s, m);
    forall x ensures MappingOk(t, x) && FileOk(t, x) { assert MappingOk(s, x) && FileOk(s, x); }
    forall r ensures OwnerOpen(s, t, r) { assert Linked(s, r); }
    RequestsKept(s, t);
  }

  lemma RegisterKeeps(s: State, f: Id, m: Id, copied: bool)
    requires Inv(s) && m !in s.mappings && f in s.files && s.files[f].open
    ensures Inv(RegisterStep(s, f, m, copied))
  {
    ListKeeps(s, f, m);
    if !copied {
      DropMappingKeeps(s.(mappings := s.mappings[m := Mapping(f, 1, 0)], listed := s.listed + {m}), m);
    }
  }

  lemma CloseEndKeeps(s: State, f: Id)
    requires Inv(s) && Enabled(s, CloseEnds(f))
    ensures s.files[f].refs > 0 && Inv(CloseEndStep(s, f))
  {
    assert FileOk(s, f);
    var t := CloseEndStep(s, f);
    forall x ensures MappingOk(t, x) && FileOk(t, x) {
      assert MappingOk(s, x) && FileOk(s, x);
    }
    forall r ensures OwnerOpen(s, t, r) { assert Linked(s, r); }
    RequestsKept(s, t);
  }

  // ---------------------------------------------------------------- a new request

  lemma SourcesWith(q: map<Id, Request>, r: Id, made: Request, x: Id)
    requires r !in q && made.refs > 0
    ensures |Sources(q[r := made], x)| == |Sources(q, x)| + Bit(made.source == Some(x))
  {
    if made.source == Some(x) {
      assert Sources(q[r := made], x) == Sources(q, x) + {r};
    } else {
      assert Sources(q[r := made], x) == Sources(q, x);
    }
  }

  lemma DestinationsWith(q: map<Id, Request>, r: Id, made: Request, x: Id)
    requires r !in q && made.refs > 0
    ensures |Destinations(q[r := made], x)| == |Destinations(q, x)| + Bit(made.destination == Some(x))
  {
    if made.destination == Some(x) {
      assert Destinations(q[r := made], x) == Destinations(q, x) + {r};
    } else {
      assert Destinations(q[r := made], x) == Destinations(q, x);
    }
  }

  lemma OwnedWith(q: map<Id, Request>, r: Id, made: Request, x: Id)
    requires r !in q && made.refs > 0
    ensures |Owned(q[r := made], x)| == |Owned(q, x)| + Bit(made.owner == Some(x))
  {
    if made.owner == Some(x) {
      assert Owned(q[r := made], x) == Owned(q, x) + {r};
    } else {
      assert Owned(q[r := made], x) == Owned(q, x);
    }
  }

  lemma GetMappingExact(s: State, m: Option<Id>, x: Id)
    requires m.Some? ==> m.value in s.mappings
    ensures var t := GetMapping(s, m);
            && t == s.(mappings := t.mappings) && t.mappings.Keys == s.mappings.Keys
            && (x in s.mappings ==> t.mappings[x] == s.mappings[x].(refs := s.mappings[x].refs + Bit(m == Some(x))))
  {
  }

  /** The objects after a request has been made, one by one. */
  lemma TrackExact(s: State, owner: Option<Id>, r: Id, command: u32, source: Option<Id>, destination: Option<Id>, x: Id)
    requires MappingOf(s, source, owner) && MappingOf(s, destination, owner) && (owner.Some? ==> owner.value in s.files)
    ensures var t := TrackStep(s, owner, r, command, source, destination);
            && t.mappings.Keys == s.mappings.Keys && t.files.Keys == s.files.Keys
            && (x in s.mappings ==>
                  t.mappings[x] == s.mappings[x].(refs := s.mappings[x].refs + Bit(source == Some(x))
                                                          + Bit(destination == Some(x))))
            && (x in s.files ==> t.files[x] == s.files[x].(refs := s.files[x].refs + Bit(owner == Some(x))))
  {
    GetMappingExact(s, source, x);
    GetMappingExact(GetMapping(s, source), destination, x);
  }

  lemma TrackMappingAndFile(s: State, owner: Option<Id>, r: Id, command: u32, source: Option<Id>,
                            destination: Option<Id>, x: Id)
    requires Inv(s) && Enabled(s, Track(owner, r, command, source, destination))
    ensures MappingOk(TrackStep(s, owner, r, command, source, destination), x)
    ensures FileOk(TrackStep(s, owner, r, command, source, destination), x)
  {
    assert MappingOk(s, x) && FileOk(s, x);
    TrackExact(s, owner, r, command, source, destination, x);
    var made := Request(owner, source, destination, 2, command, 0, false, Pending);
    SourcesWith(s.requests, r, made, x);
    DestinationsWith(s.requests, r, made, x);
    OwnedWith(s.requests, r, made, x);
    if x in s.mappings {
      TrackExact(s, owner, r, command, source, destination, s.mappings[x].file);
    }
  }

  lemma TrackLinked(s: State, owner: Option<Id>, r: Id, command: u32, source: Option<Id>, destination: Option<Id>,
                    x: Id)
    requires Inv(s) && Enabled(s, Track(owner, r, command, source, destination))
    ensures Linked(TrackStep(s, owner, r, command, source, destination), x)
  {
    assert Linked(s, x);
    var its := if x == r then owner else if x in s.requests then s.requests[x].owner else None;
    TrackExact(s, owner, r, command, source, destination, if its.Some? then its.value else 0);
  }

  lemma TrackOld(s: State, owner: Option<Id>, r: Id, command: u32, source: Option<Id>, destination: Option<Id>, x: Id)
    requires Inv(s) && Enabled(s, Track(owner, r, command, source, destination)) && x != r
    ensures var t := TrackStep(s, owner, r, command, source, destination);
            LifeOk(t, x) && RequestCounted(t, x)
  {
    assert LifeOk(s, x) && RequestCounted(s, x);
  }

  lemma TrackNew(s: State, owner: Option<Id>, r: Id, command: u32, source: Option<Id>, destination: Option<Id>)
    requires Inv(s) && Enabled(s, Track(owner, r, command, source, destination))
    ensures var t := TrackStep(s, owner, r, command, source, destination);
            LifeOk(t, r) && RequestCounted(t, r)
  {
    assert Waiting(s.waiters, r) == {};
  }

  lemma TrackKeeps(s: State, owner: Option<Id>, r: Id, command: u32, source: Option<Id>, destination: Option<Id>)
    requires Inv(s) && Enabled(s, Track(owner, r, command, source, destination))
    ensures Inv(TrackStep(s, owner, r, command, source, destination))
  {
    var t := TrackStep(s, owner, r, command, source, destination);
    TrackExact(s, owner, r, command, source, destination, 0);
    forall x ensures MappingOk(t, x) && FileOk(t, x) {
      TrackMappingAndFile(s, owner, r, command, source, destination, x);
    }
    TrackNew(s, owner, r, command, source, destination);
    forall x ensures Linked(t, x) && LifeOk(t, x) && RequestCounted(t, x) {
      TrackLinked(s, owner, r, command, source, destination, x);
      if x != r { TrackOld(s, owner, r, command, source, destination, x); }
    }
  }

  // ---------------------------------------------------------------- every step

  predicate OfReset(e: Event) {
    || e.DeviceResets? || e.ObserverReads? || e.ObserverStores?
    || e.WorkStarts? || e.WorkLoads? || e.WorkDecides? || e.WorkEnds?
  }

  lemma ResetStepKeeps(s: State, e: Event)
    requires Inv(s) && Enabled(s, e) && OfReset(e)
    ensures Asserts(s, e) && Inv(Step(s, e))
  {
    if e.DeviceResets? {
      DeviceKeeps(s, s.device.(resets := s.device.resets + 1));
    } else if e.ObserverReads? {
      DeviceKeeps(s, ReadStep(s, e.o).device);
    } else if e.ObserverStores? {
      StoreKeeps(s, e.o);
    } else if e.WorkStarts? {
      WorkStartKeeps(s);
    } else if e.WorkLoads? {
      WorkLoadKeeps(s, e.command);
    } else if e.WorkDecides? {
      WorkDecideKeeps(s, e.seen);
    } else {
      WorkEndKeeps(s);
    }
  }

  predicate OfFile(e: Event) {
    || e.Open? || e.Register? || e.Unregister? || e.CloseBegins? || e.CloseMapping? || e.CloseEnds? || e.RemoveBegins?
  }

  lemma FileStepKeeps(s: State, e: Event)
    requires Inv(s) && Enabled(s, e) && OfFile(e)
    ensures Asserts(s, e) && Inv(Step(s, e))
  {
    if e.Open? {
      OpenKeeps(s, e.f);
    } else if e.Register? {
      RegisterKeeps(s, e.f, e.m, e.copied);
    } else if e.CloseBegins? {
      CloseBeginKeeps(s, e.f);
    } else if e.CloseEnds? {
      CloseEndKeeps(s, e.f);
    } else if e.RemoveBegins? {
      RemoveKeeps(s);
    } else {
      DropMappingKeeps(s, e.m);
    }
  }

  predicate OfPut(e: Event) {
    e.CopyFailed? || e.CloseRequest? || e.NopEnds? || e.Finish? || e.RemoveCancels? || e.WaitReaps? || e.WaitGivesUp?
  }

  lemma PutStepKeeps(s: State, e: Event)
    requires Inv(s) && Enabled(s, e) && OfPut(e)
    ensures Asserts(s, e) && Inv(Step(s, e))
  {
    if e.NopEnds? {
      DropCallerKeeps(s, e.r);
    } else if e.Finish? {
      TerminateKeeps(s, e.completion.commandId, Finished(e.completion), s.work);
    } else if e.RemoveCancels? {
      TerminateKeeps(s, e.command, Gone, s.work);
    } else if e.WaitReaps? {
      ReapKeeps(s, e.w);
    } else if e.WaitGivesUp? {
      DropWaiterKeeps(s, e.w);
    } else {
      DropEntryKeeps(s, e.r);
    }
  }

  /** No count underflows in any step, and every count stays the number of references that exist. */
  lemma StepKeeps(s: State, e: Event)
    requires Inv(s) && Enabled(s, e)
    ensures Asserts(s, e) && Inv(Step(s, e))
  {
    if OfFile(e) {
      FileStepKeeps(s, e);
    } else if OfReset(e) {
      ResetStepKeeps(s, e);
    } else if OfPut(e) {
      PutStepKeeps(s, e);
    } else if e.Track? {
      TrackKeeps(s, e.owner, e.r, e.command, e.source, e.destination);
    } else if e.Ring? {
      RingKeeps(s, e.r);
    } else {
      WaitBeginKeeps(s, e.w, e.r);
    }
  }
}
