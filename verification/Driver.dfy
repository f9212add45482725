/**
 Request, mapping and file ownership in the Linux driver, as an interleaved step system: ioctls,
 interrupt drains, the reset work, close and remove, at the granularity of table and count operations.
 */
module Driver {
  import opened Abi

  type Id = nat

  /** How a request ended, if it has. */
  datatype Outcome = Pending | Finished(result: Completion) | Cancelled(observed: u32) | Gone

  datatype Request = Request(
    owner: Option<Id>, source: Option<Id>, destination: Option<Id>,
    refs: nat, command: u32, generation: u32, rung: bool, outcome: Outcome)

  datatype Mapping = Mapping(file: Id, refs: nat, unmaps: nat)

  datatype File = File(refs: nat, open: bool, closing: bool, freed: bool)

  /** A table entry the reset work has loaded; it takes no reference of its own. */
  datatype Entry = Entry(command: u32, request: Id)

  /** The reset work: queued, or running with the table entries it has still to visit, one of them loaded. */
  datatype Work = Work(queued: bool, running: bool, todo: set<u32>, loaded: Option<Entry>)

  /** The device's own count of resets, which its register holds modulo 2^32, and what observers have read of it. */
  datatype Device = Device(resets: nat, readers: map<Id, u32>)

  datatype State = State(
    requests: map<Id, Request>,
    mappings: map<Id, Mapping>,
    files: map<Id, File>,
    // the device's request table, the files' request and mapping tables, the waiting and NOP ioctls
    tracked: map<u32, Id>,
    reapable: set<Id>,
    listed: set<Id>,
    waiters: map<Id, Id>,
    callers: set<Id>,
    // requests whose result a wait has returned
    reaped: set<Id>,
    // the device, and the generation the driver believes it has
    device: Device,
    generation: u32,
    work: Work,
    // the request a submit is about to ring the doorbell for, under the submit lock
    submitting: Option<Id>,
    removing: bool)

  // ---------------------------------------------------------------- counts

  predicate IsTracked(s: State, r: Id)
    requires r in s.requests
  {
    s.requests[r].command in s.tracked && s.tracked[s.requests[r].command] == r
  }

  /** `vams_mapping_put`: the last reference unmaps. */
  function PutMapping(s: State, m: Option<Id>): State
    requires m.Some? ==> m.value in s.mappings && s.mappings[m.value].refs > 0
  {
    if m.None? then s
    else
      var was := s.mappings[m.value];
      var unmaps := if was.refs == 1 then was.unmaps + 1 else was.unmaps;
      s.(mappings := s.mappings[m.value := was.(refs := was.refs - 1, unmaps := unmaps)])
  }

  /** The file's `kref_put`: the last reference frees it. */
  function PutFile(s: State, f: Option<Id>): State
    requires f.Some? ==> f.value in s.files && s.files[f.value].refs > 0
  {
    if f.None? then s
    else
      var was := s.files[f.value];
      s.(files := s.files[f.value := was.(refs := was.refs - 1, freed := was.refs == 1)])
  }

  /** The references a request holds are there to be put. */
  predicate Backed(s: State, q: Request) {
    && (q.source.Some? ==> q.source.value in s.mappings && s.mappings[q.source.value].refs > 0)
    && (q.destination.Some? ==> q.destination.value in s.mappings && s.mappings[q.destination.value].refs > 0)
    && (q.source.Some? && q.source == q.destination ==> s.mappings[q.source.value].refs > 1)
    && (q.owner.Some? ==> q.owner.value in s.files && s.files[q.owner.value].refs > 0)
  }

  /** `vams_request_put`: the last reference puts the mappings and the owner. */
  function PutRequest(s: State, r: Id): State
    requires r in s.requests && s.requests[r].refs > 0 && (s.requests[r].refs == 1 ==> Backed(s, s.requests[r]))
  {
    var was := s.requests[r];
    var t := s.(requests := s.requests[r := was.(refs := was.refs - 1)]);
    if was.refs > 1 then t
    else PutFile(PutMapping(PutMapping(t, was.source), was.destination), was.owner)
  }

  function GetMapping(s: State, m: Option<Id>): State
    requires m.Some? ==> m.value in s.mappings
  {
    if m.None? then s
    else s.(mappings := s.mappings[m.value := s.mappings[m.value].(refs := s.mappings[m.value].refs + 1)])
  }

  function GetFile(s: State, f: Option<Id>): State
    requires f.Some? ==> f.value in s.files
  {
    if f.None? then s
    else s.(files := s.files[f.value := s.files[f.value].(refs := s.files[f.value].refs + 1)])
  }

  // ---------------------------------------------------------------- steps

  datatype Event =
    | Open(f: Id)
    | Register(f: Id, m: Id, copied: bool)
    | Unregister(m: Id)
    | Track(owner: Option<Id>, r: Id, command: u32, source: Option<Id>, destination: Option<Id>)
    | Ring(r: Id)
    | CopyFailed(r: Id)
    | NopEnds(r: Id)
    | Finish(completion: Completion)
    | DeviceResets
    | ObserverReads(o: Id)
    | ObserverStores(o: Id)
    | WorkStarts
    | WorkLoads(command: u32)
    | WorkDecides(seen: u32)
    | WorkEnds
    | WaitBegins(w: Id, r: Id)
    | WaitReaps(w: Id)
    | WaitGivesUp(w: Id)
    | CloseBegins(f: Id)
    | CloseRequest(r: Id)
    | CloseMapping(m: Id)
    | CloseEnds(f: Id)
    | RemoveBegins
    | RemoveCancels(command: u32)

  /** A submit on this file holds its lock. */
  predicate Locked(s: State, f: Id) {
    s.submitting.Some? && s.submitting.value in s.requests && s.requests[s.submitting.value].owner == Some(f)
  }

  /** A file whose lock can be taken: open, not being closed, no submit under way on it. */
  predicate Usable(s: State, f: Id) {
    f in s.files && s.files[f].open && !s.files[f].closing && !Locked(s, f)
  }

  /** The lock of the request's file is free: no submit and no close holds it. */
  predicate LockFree(s: State, owner: Option<Id>) {
    owner.Some? && owner.value in s.files ==>
      !Locked(s, owner.value) && !(s.files[owner.value].open && s.files[owner.value].closing)
  }

  /** The command number is free in the owner's table. */
  predicate NumberFree(s: State, owner: Option<Id>, command: u32) {
    forall q :: q in s.reapable && q in s.requests ==>
                  !(s.requests[q].owner == owner && s.requests[q].command == command)
  }

  predicate MappingOf(s: State, m: Option<Id>, f: Option<Id>) {
    m.Some? ==> f.Some? && m.value in s.listed && m.value in s.mappings && s.mappings[m.value].file == f.value
  }

  /** When a step can be taken: locks are free, tables have what the step looks up, ids are new. */
  predicate Enabled(s: State, e: Event) {
    match e
    case Open(f) => f !in s.files && !s.removing
    case Register(f, m, _) => Usable(s, f) && m !in s.mappings && !s.removing && s.submitting.None? && !s.work.running
    case Unregister(m) => m in s.listed && m in s.mappings && Usable(s, s.mappings[m].file)
    case Track(owner, r, command, source, destination) =>
      && r !in s.requests && command != 0 && command !in s.tracked && NumberFree(s, owner, command)
      && (owner.Some? ==> Usable(s, owner.value))
      && MappingOf(s, source, owner) && MappingOf(s, destination, owner)
      && s.submitting.None? && !s.work.running && !s.removing
    case Ring(r) => s.submitting == Some(r) && r in s.requests
    case CopyFailed(r) =>
      && r in s.reapable && r in s.requests && s.requests[r].rung
      && s.requests[r].owner.Some? && Usable(s, s.requests[r].owner.value)
    case NopEnds(r) => r in s.callers && r in s.requests && s.requests[r].rung
    case Finish(completion) => completion.commandId in s.tracked && s.tracked[completion.commandId] in s.requests
    case DeviceResets => true
    case ObserverReads(o) => o !in s.device.readers
    case ObserverStores(o) => o in s.device.readers
    case WorkStarts => s.work.queued && !s.work.running && s.submitting.None?
    case WorkLoads(command) => s.work.running && s.work.loaded.None? && command in s.work.todo
    case WorkDecides(seen) =>
      && s.work.running && s.work.loaded.Some? && s.work.loaded.value.request in s.requests
      && var q := s.requests[s.work.loaded.value.request]; q.refs > 0 ==> seen == q.generation
    case WorkEnds => s.work.running && s.work.loaded.None? && s.work.todo == {}
    case WaitBegins(w, r) =>
      && w !in s.waiters && r in s.reapable && r in s.requests
      && s.requests[r].owner.Some? && Usable(s, s.requests[r].owner.value)
    case WaitReaps(w) =>
      && w in s.waiters && s.waiters[w] in s.requests && s.requests[s.waiters[w]].outcome != Pending
      && LockFree(s, s.requests[s.waiters[w]].owner)
    case WaitGivesUp(w) => w in s.waiters && s.waiters[w] in s.requests
    case CloseBegins(f) => Usable(s, f)
    case CloseRequest(r) =>
      && r in s.reapable && r in s.requests && s.requests[r].owner.Some?
      && s.requests[r].owner.value in s.files && s.files[s.requests[r].owner.value].closing
    case CloseMapping(m) =>
      m in s.listed && m in s.mappings && s.mappings[m].file in s.files && s.files[s.mappings[m].file].closing
    case CloseEnds(f) =>
      && f in s.files && s.files[f].open && s.files[f].closing
      && (forall r :: r in s.reapable && r in s.requests ==> s.requests[r].owner != Some(f))
      && (forall m :: m in s.listed && m in s.mappings ==> s.mappings[m].file != f)
    case RemoveBegins => s.submitting.None? && !s.work.running
    case RemoveCancels(command) =>
      && s.removing && !s.work.running && !s.work.queued && command in s.tracked && s.tracked[command] in s.requests
  }

  /** No count underflows in a step. */
  predicate Asserts(s: State, e: Event)
    requires Enabled(s, e)
  {
    match e
    case Unregister(m) => s.mappings[m].refs > 0
    case CopyFailed(r) => Puttable(s, r)
    case NopEnds(r) => Puttable(s, r)
    case Finish(completion) => Puttable(s, s.tracked[completion.commandId])
    case WorkDecides(_) =>
      var command := s.work.loaded.value.command;
      command in s.tracked ==> s.tracked[command] in s.requests && Puttable(s, s.tracked[command])
    case WaitReaps(w) =>
      && Puttable(s, s.waiters[w]) && Backed(s, s.requests[s.waiters[w]])
      && (s.waiters[w] in s.reapable ==> s.requests[s.waiters[w]].refs > 1)
    case WaitGivesUp(w) => Puttable(s, s.waiters[w])
    case CloseRequest(r) => Puttable(s, r)
    case CloseMapping(m) => s.mappings[m].refs > 0
    case CloseEnds(f) => s.files[f].refs > 0
    case RemoveCancels(command) => Puttable(s, s.tracked[command])
    case _ => true
  }

  predicate Puttable(s: State, r: Id) {
    r in s.requests && s.requests[r].refs > 0 && (s.requests[r].refs == 1 ==> Backed(s, s.requests[r]))
  }

  /** Erase the device's entry for a command, give the request its outcome, and put the table's reference. */
  function Terminate(s: State, command: u32, outcome: Outcome): State
    requires command in s.tracked && Puttable(s, s.tracked[command])
  {
    var r := s.tracked[command];
    PutRequest(s.(tracked := s.tracked - {command}, requests := s.requests[r := s.requests[r].(outcome := outcome)]), r)
  }

  /** Erase the file's entry for a request and put its reference. */
  function DropEntry(s: State, r: Id): State
    requires Puttable(s, r)
  {
    PutRequest(s.(reapable := s.reapable - {r}), r)
  }

  function DropWaiter(s: State, w: Id): State
    requires w in s.waiters && Puttable(s, s.waiters[w])
  {
    PutRequest(s.(waiters := s.waiters - {w}), s.waiters[w])
  }

  function DropCaller(s: State, r: Id): State
    requires Puttable(s, r)
  {
    PutRequest(s.(callers := s.callers - {r}), r)
  }

  /** Erase the file's entry for a mapping and put its reference. */
  function DropMapping(s: State, m: Id): State
    requires m in s.mappings && s.mappings[m].refs > 0
  {
    PutMapping(s.(listed := s.listed - {m}), Some(m))
  }

  /** Registering lists a mapping with one reference; if the handle cannot be returned it is dropped again. */
  function RegisterStep(s: State, f: Id, m: Id, copied: bool): State {
    var t := s.(mappings := s.mappings[m := Mapping(f, 1, 0)], listed := s.listed + {m});
    if copied then t else DropMapping(t, m)
  }

  /** Unregistering succeeds only when the table holds the one reference. */
  function UnregisterStep(s: State, m: Id): State
    requires m in s.mappings && s.mappings[m].refs > 0
  {
    if s.mappings[m].refs != 1 then s else DropMapping(s, m)
  }

  /** A new request enters its owner's table (or its NOP caller's hands) and the device's table. */
  function TrackStep(s: State, owner: Option<Id>, r: Id, command: u32, source: Option<Id>,
                     destination: Option<Id>): State
    requires MappingOf(s, source, owner) && MappingOf(s, destination, owner) && (owner.Some? ==> owner.value in s.files)
  {
    var made := Request(owner, source, destination, 2, command, 0, false, Pending);
    var t := GetFile(GetMapping(GetMapping(s, source), destination), owner);
    t.(requests := t.requests[r := made], tracked := t.tracked[command := r], submitting := Some(r),
       reapable := if owner.Some? then t.reapable + {r} else t.reapable,
       callers := if owner.None? then t.callers + {r} else t.callers)
  }

  /** The doorbell is rung under the generation the driver knows. */
  function RingStep(s: State, r: Id): State
    requires r in s.requests
  {
    s.(requests := s.requests[r := s.requests[r].(generation := s.generation, rung := true)], submitting := None)
  }

  /** `vams_observe_reset` up to its lock: the register is read, and an observer that sees nothing new leaves. */
  function ReadStep(s: State, o: Id): State {
    var seen := Wrap32(s.device.resets);
    if seen == s.generation then s else s.(device := s.device.(readers := s.device.readers[o := seen]))
  }

  /** And under the lock: what was read is stored, unless it is known by now, and the reset work is queued. */
  function StoreStep(s: State, o: Id): State
    requires o in s.device.readers
  {
    var t := s.(device := s.device.(readers := s.device.readers - {o}));
    if s.device.readers[o] == s.generation then t
    else t.(generation := s.device.readers[o], work := s.work.(queued := true))
  }

  /** The reset work takes the submit lock; once the device is being removed it does nothing. */
  function WorkStartStep(s: State): State {
    s.(work := if s.removing then Work(false, false, {}, None) else Work(false, true, s.tracked.Keys, None))
  }

  /** The work loads one table entry, if it is still there. */
  function WorkLoadStep(s: State, command: u32): State {
    if command in s.tracked then s.(work := s.work.(loaded := Some(Entry(command, s.tracked[command]))))
    else s.(work := s.work.(todo := s.work.todo - {command}))
  }

  /**
   The work cancels the loaded entry if it is of another generation. What it sees is the request's
   generation if the request is still there; the entry is erased only if the table still has it.
   */
  function WorkDecideStep(s: State, seen: u32): State
    requires s.work.loaded.Some?
    requires var command := s.work.loaded.value.command; command in s.tracked ==> Puttable(s, s.tracked[command])
  {
    var command := s.work.loaded.value.command;
    var t := s.(work := s.work.(todo := s.work.todo - {command}, loaded := None));
    if seen != s.generation && command in s.tracked then Terminate(t, command, Cancelled(s.generation)) else t
  }

  function WaitBeginStep(s: State, w: Id, r: Id): State
    requires r in s.requests
  {
    s.(waiters := s.waiters[w := r], requests := s.requests[r := s.requests[r].(refs := s.requests[r].refs + 1)])
  }

  /** A wait whose request is still in the file's table takes it out with its result; any other gets -EALREADY. */
  function ReapStep(s: State, w: Id): State
    requires w in s.waiters && Puttable(s, s.waiters[w]) && Backed(s, s.requests[s.waiters[w]])
    requires s.waiters[w] in s.reapable ==> s.requests[s.waiters[w]].refs > 1
  {
    var r := s.waiters[w];
    if r in s.reapable then DropWaiter(DropEntry(s.(reaped := s.reaped + {r}), r), w) else DropWaiter(s, w)
  }

  function CloseEndStep(s: State, f: Id): State
    requires f in s.files && s.files[f].refs > 0
  {
    PutFile(s.(files := s.files[f := s.files[f].(open := false)]), Some(f))
  }

  function Step(s: State, e: Event): State
    requires Enabled(s, e) && Asserts(s, e)
  {
    match e
    case Open(f) => s.(files := s.files[f := File(1, true, false, false)])
    case Register(f, m, copied) => RegisterStep(s, f, m, copied)
    case Unregister(m) => UnregisterStep(s, m)
    case Track(owner, r, command, source, destination) => TrackStep(s, owner, r, command, source, destination)
    case Ring(r) => RingStep(s, r)
    case CopyFailed(r) => DropEntry(s, r)
    case NopEnds(r) => DropCaller(s, r)
    case Finish(completion) => Terminate(s, completion.commandId, Finished(completion))
    case DeviceResets => s.(device := s.device.(resets := s.device.resets + 1))
    case ObserverReads(o) => ReadStep(s, o)
    case ObserverStores(o) => StoreStep(s, o)
    case WorkStarts => WorkStartStep(s)
    case WorkLoads(command) => WorkLoadStep(s, command)
    case WorkDecides(seen) => WorkDecideStep(s, seen)
    case WorkEnds => s.(work := s.work.(running := false))
    case WaitBegins(w, r) => WaitBeginStep(s, w, r)
    case WaitReaps(w) => ReapStep(s, w)
    case WaitGivesUp(w) => DropWaiter(s, w)
    case CloseBegins(f) => s.(files := s.files[f := s.files[f].(closing := true)])
    case CloseRequest(r) => DropEntry(s, r)
    case CloseMapping(m) => DropMapping(s, m)
    case CloseEnds(f) => CloseEndStep(s, f)
    case RemoveBegins => s.(removing := true)
    case RemoveCancels(command) => Terminate(s, command, Gone)
  }
}
