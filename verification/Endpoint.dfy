/**
 The PCIe endpoint: two queues, a single-outstanding firmware bridge, a virtual-time engine, and the
 reset fences between them. One class, one method per register write, timer, bridge message,
 disconnect or reset. Every assertion the source makes on the way is a Dafny assertion here.
 */
module Endpoint {
  import opened Abi
  import opened Validation
  import opened EndpointQueues
  import opened EndpointRules
  import opened QueueSteps
  import opened Windows
  import Payload
  import Ring

  datatype DeviceError = BadConfig | DmaError | QueueError | FirmwareError | ReservedWrite
  datatype ResetReason = PowerOn | ByDevice | ByQueue | ByEngine

  // ---------------------------------------------------------------- completions

  function DeadlineNs(d: Submission, nowNs: nat): nat {
    nowNs + (if d.timeoutMs == 0 then DEFAULT_TIMEOUT_MS else d.timeoutMs) * MS
  }

  /** Status, error and zeroed results; the identity stays. */
  function Failed(c: Completion, status: u16, error: u16): Completion {
    c.(status := status, errorCode := error, bytesProcessed := 0, resultCrc := ZERO)
  }

  /** The endpoint's own verdict on a descriptor, when there is no firmware to ask. */
  method Judge(d: Submission, stamp: u64) returns (c: Completion)
    ensures c == OwnCompletion(d, if Acceptable(d) then STATUS_SUCCESS else STATUS_INVALID, c.errorCode, stamp)
    ensures Reports(d, c.errorCode)
  {
    var error := EndpointValidate(d);
    EndpointReports(d);
    return OwnCompletion(d, if error == ERR_NONE then STATUS_SUCCESS else STATUS_INVALID, error, stamp);
  }

  const RESET_TAG := 0x8000_0000_0000_0000

  /** A reset notice from the management side carries a tag in its timestamp, which is not published. */
  predicate IsTagged(c: Completion) { c.status == STATUS_RESET && c.errorCode == ERR_RESET && c.timestamp >= RESET_TAG }

  function Untagged(c: Completion): Completion {
    if c.timestamp >= RESET_TAG then c.(timestamp := c.timestamp - RESET_TAG) else c
  }

  /** The tag is the top bit of the timestamp, and nothing else is lost with it. */
  lemma UntaggedMeans(c: Completion)
    ensures Untagged(c) == c.(timestamp := c.timestamp % 0x8000_0000_0000_0000)
    ensures IsTagged(c) <==>
            c.status == STATUS_RESET && c.errorCode == ERR_RESET && c.timestamp / 0x8000_0000_0000_0000 == 1
  {
  }

  /** The completion the endpoint builds itself for a descriptor. */
  function OwnCompletion(d: Submission, status: u16, error: u16, stamp: u64): Completion {
    ZERO_COMPLETION.(commandId := d.commandId, cookie := d.cookie, status := status, errorCode := error,
                     timestamp := stamp)
  }

  class Device {
    /** The host memory the payloads work on. */
    const host: Payload.Engine
    var control: Control
    var busMaster: bool
    var errors: set<DeviceError>
    var sq: SubmissionQueue
    var cq: CompletionQueue
    var bridge: Bridge
    var command: Submission
    var completion: Completion
    var engine: Engine
    var generation: u32
    var epoch: u32
    var reason: ResetReason
    var timers: Timers
    var ackTimeouts: u32
    var sqBaseLo: u32
    var cqBaseLo: u32
    /** Since the last queue or device reset, every firmware message named the command it was about. */
    ghost var faithful: bool

    ghost predicate CheckInvariants()
      reads this
    {
      Checked(control, sq, cq, bridge, engine, generation, epoch)
    }

    ghost predicate Steady()
      reads this
    {
      Steadily(control, sq, cq, bridge, engine, timers, command, generation, epoch)
    }

    /** Ownership, fences, timers and queues; conservation; and order. */
    ghost predicate Valid()
      reads this
    {
      Sane(control, sq, cq, bridge, engine, timers, command, completion, generation, epoch, faithful)
    }

    /** The state while completion `c` is owed: its command has left the bridge and the engine. */
    ghost predicate Owing(c: Completion)
      reads this
    {
      Steady() && !Outstanding(bridge, engine) && !control.resetting && cq.HasRoom() && Due(sq, cq, c, faithful)
    }

    /** Power-on state. */
    constructor (host: Payload.Engine)
      ensures this.host == host
      ensures Valid() && generation == 0 && epoch == 0 && reason == PowerOn
      ensures sq == NoSubmissions(sq.memory) && cq == NoCompletions(cq.memory) && faithful
      ensures control == Control(true, false, false, false, false, false) && bridge == IDLE_BRIDGE && errors == {}
      ensures !busMaster && sqBaseLo == cqBaseLo == 0 && !engine.active
    {
      this.host := host;
      control := Control(true, false, false, false, false, false);
      busMaster, errors := false, {};
      sq := NoSubmissions(seq(Ring.MAX_DEPTH, _ => ZERO_SUBMISSION));
      cq := NoCompletions(seq(Ring.MAX_DEPTH, _ => ZERO_COMPLETION));
      bridge, command, completion := IDLE_BRIDGE, ZERO_SUBMISSION, ZERO_COMPLETION;
      engine := IDLE_ENGINE;
      generation, epoch, reason := 0, 0, PowerOn;
      timers, ackTimeouts, sqBaseLo, cqBaseLo := Timers(false, false, false), 0, 0, 0;
      faithful := true;
    }

    // ---------------------------------------------------------------- steps shared by the handlers

    method SetError(raised: set<DeviceError>)
      modifies this`errors
      ensures errors == old(errors) + raised
    {
      errors := errors + raised;
    }

    /** `vams_pcie_publish_completion`: pays the completion owed, or loses it to a failed write. */
    method Publish(c: Completion) returns (ok: bool)
      requires Owing(c)
      modifies this`cq, this`errors
      ensures Valid()
      ensures ok ==> cq.written == old(cq).written + [c] && cq.lost == old(cq).lost && errors == old(errors)
      ensures Published(old(cq), cq, c)
      ensures !ok ==> && cq == old(cq).(error := true, lost := old(cq).lost + 1)
                      && errors == old(errors) + {DmaError, QueueError}
      ensures Grown(old(cq), cq) && (ok || cq.error)
    {
      assert CheckInvariants();
      assert cq.HasRoom();
      ok := *;
      if !ok {
        cq := cq.(error := true, lost := cq.lost + 1);
        SetError({DmaError, QueueError});
        return;
      }
      if faithful && cq.lost == 0 {
        AnsweredAppend(sq.fetched, cq.written, c);
      }
      cq := QueueSteps.Write(cq, c);
      assert CheckInvariants();
    }

    method CancelEngine()
      requires CheckInvariants()
      modifies this`timers, this`engine, this`control, this`bridge
      ensures timers == old(timers).(engine := false) && engine == old(engine).(active := false)
      ensures bridge == old(bridge).(controlReceived := 0) && control == old(control).(busy := false)
      ensures CheckInvariants()
    {
      timers := timers.(engine := false);
      engine := engine.(active := false);
      bridge := bridge.(controlReceived := 0);
      control := control.(busy := false);
    }

    method CancelBridge()
      modifies this`bridge
      ensures bridge == if old(bridge).inflight
                        then old(bridge).(inflight := false, waitingFinal := false, discard := true)
                        else old(bridge)
    {
      if bridge.inflight {
        bridge := bridge.(discard := true);
        bridge := bridge.(inflight := false);
        bridge := bridge.(waitingFinal := false);
      }
    }

    /** `vams_pcie_report_engine_result`: hand the result to the firmware, to be published or discarded. */
    method Report(result: Completion, discarding: bool, connected: bool) returns (ok: bool)
      requires CheckInvariants() && !engine.active
      requires !bridge.inflight
      requires !bridge.discard
      modifies this`bridge, this`timers, this`errors
      ensures ok ==> connected
      ensures bridge == old(bridge).(inflight := ok && !discarding, waitingFinal := ok && !discarding,
                                     discard := ok && discarding)
      ensures timers == old(timers).(ack := old(timers).ack || (ok && discarding))
      ensures errors == if ok then old(errors) else old(errors) + {DmaError, QueueError}
    {
      if !connected {
        SetError({DmaError, QueueError});
        return false;
      }
      bridge := bridge.(inflight := !discarding);
      bridge := bridge.(waitingFinal := !discarding);
      bridge := bridge.(discard := discarding);
      var delivered: bool := *;
      if !delivered {
        bridge := bridge.(inflight := false);
        bridge := bridge.(waitingFinal := false);
        bridge := bridge.(discard := false);
        SetError({DmaError, QueueError});
        return false;
      }
      if discarding {
        timers := timers.(ack := true);
      }
      assert CheckInvariants();
      return true;
    }

    /** `vams_pcie_schedule_engine`. */
    method Schedule(nowNs: nat)
      requires !engine.active
      requires IsPayload(command.opcode)
      modifies this`engine, this`control, this`timers
      ensures timers == old(timers).(engine := true) && control == old(control).(busy := true)
      ensures engine == Engine(true, old(engine).deadlineNs, nowNs + 20_000_000, generation, epoch,
                               old(engine).readNs, nowNs)
    {
      engine := engine.(startedNs := nowNs, finishNs := nowNs + EXECUTION_NS);
      engine := engine.(generation := generation);
      engine := engine.(epoch := epoch);
      engine := engine.(active := true);
      control := control.(busy := true);
      timers := timers.(engine := true);
    }

    // ---------------------------------------------------------------- the submission loop

    predicate Free()
      reads this
    {
      !bridge.inflight && !bridge.discard && !engine.active
    }

    /** No descriptor that could be fetched is left waiting, unless a transfer failed. */
    predicate Settled()
      reads this
    {
      Stalled() || sq.error || cq.error
    }

    /** Nothing is to be looked at, or nothing is there. */
    predicate Idle()
      reads this
    {
      !control.enable || control.quiesce || !busMaster || sq.head == sq.tail
    }

    /** The queues let a descriptor be fetched. */
    predicate Fetchable()
      reads this
    {
      control.enable && !control.quiesce && busMaster && sq.head != sq.tail && cq.HasRoom() && !cq.throttled
    }

    /**
     What an engine that stops now will leave waiting if its completion is published here: descriptors
     that could be fetched. A completion lost to a failed write takes no room.
     */
    predicate Leaves(lost: bool)
      reads this
    {
      && control.enable && !control.quiesce && busMaster && sq.head != sq.tail
      && !cq.throttled && (lost || cq.LeavesRoom())
    }

    /** Nothing more can be fetched now. */
    predicate Stalled()
      reads this
    {
      !Fetchable() || !Free()
    }

    /** The descriptor at the head leaves the queue, and its completion is owed. */
    method Take() returns (d: Submission)
      requires Valid() && Free() && !control.resetting && cq.HasRoom() && sq.depth != 0 && sq.head != sq.tail
      modifies this`sq
      ensures d == old(sq).memory[old(sq).head]
      ensures forall c: Completion :: Answers(c, d) ==> Owing(c)
      ensures sq.fetched == old(sq).fetched + [d] && sq.Held() == old(sq).Held() - 1
      ensures Drawn(old(sq), sq) && sq.error == old(sq).error
    {
      if faithful && cq.lost == 0 {
        AnsweredFetch(sq.fetched, cq.written, sq.memory[sq.head]);
      }
      sq, d := Fetch(sq);
    }

    /** The current command and its deadline; nothing is outstanding yet. */
    method Note(d: Submission, nowNs: nat)
      requires Valid() && Free()
      modifies this`command, this`engine
      ensures Valid() && command == d && engine == old(engine).(deadlineNs := engine.deadlineNs, readNs := nowNs)
      ensures engine.deadlineNs == TimeLimit(engine, d)
    {
      command := d;
      engine := engine.(deadlineNs := DeadlineNs(d, nowNs), readNs := nowNs);
    }

    /** Send the descriptor to the firmware; it counts as fetched once the message is out. */
    method Send(d: Submission, nowNs: nat) returns (ok: bool)
      requires Valid() && Free() && control.enable && cq.HasRoom() && sq.head != sq.tail && d == sq.memory[sq.head]
      modifies this`sq, this`errors, this`bridge, this`command, this`engine
      ensures Valid()
      ensures Fetching(control, old(sq), cq, old(bridge), timers, control, sq, cq, bridge, timers, true)
      ensures bridge == old(bridge).(inflight := ok, waitingFinal := false)
      ensures ok ==> sq.fetched == old(sq).fetched + [d] && command == d && errors == old(errors)
      ensures !ok ==> sq == old(sq).(error := true) && errors == old(errors) + {DmaError, QueueError}
    {
      Note(d, nowNs);
      ok := *;
      if !ok {
        sq := sq.(error := true);
        SetError({DmaError, QueueError});
        return;
      }
      var taken := Take();
      assert Owing(OwnCompletion(d, 0, 0, 0));
      bridge := bridge.(inflight := true);
      assert CheckInvariants();
    }

    /** Start the engine on an accepted payload. */
    method Start(d: Submission, c: Completion, nowNs: nat)
      requires Owing(c) && !bridge.discard && Answers(c, d) && IsPayload(d.opcode)
      requires Current(sq, d)
      modifies this`command, this`completion, this`engine, this`control, this`timers
      ensures Valid() && engine.active && command == d && completion == c
      ensures control == old(control).(busy := true) && engine.readNs == engine.startedNs == nowNs
    {
      command := d;
      completion := c;
      engine := engine.(deadlineNs := DeadlineNs(d, nowNs), readNs := nowNs);
      Schedule(nowNs);
    }

    /** Without a firmware: validate here, and publish the verdict or start the engine. */
    method Serve(d: Submission, nowNs: nat, stamp: u64) returns (more: bool, c: Completion)
      requires Valid() && Free() && control.enable && cq.HasRoom() && sq.head != sq.tail && d == sq.memory[sq.head]
      modifies this`sq, this`cq, this`errors, this`command, this`completion, this`engine, this`control, this`timers
      ensures Valid()
      ensures control == old(control).(busy := engine.active)
      ensures sq.fetched == old(sq).fetched + [d] && sq.Held() == old(sq).Held() - 1
      ensures Fetching(old(control), old(sq), old(cq), bridge, old(timers), control, sq, cq, bridge, timers, false)
      ensures more || engine.active || cq.error
      ensures c == OwnCompletion(d, if Acceptable(d) then STATUS_SUCCESS else STATUS_INVALID, c.errorCode, stamp)
      ensures Reports(d, c.errorCode)
      ensures if Acceptable(d) && IsPayload(d.opcode)
              then !more && engine.active && command == d && completion == c && cq == old(cq)
              else !engine.active && cq.written == old(cq).written + (if more then [c] else [])
      ensures engine.active ==> engine.readNs == engine.startedNs == nowNs
      ensures engine.active ==> (engine.deadlineNs < engine.finishNs <==> 0 < d.timeoutMs < 20)
    {
      var taken := Take();
      c := Judge(d, stamp);
      assert Owing(c);
      if c.status == STATUS_SUCCESS && IsPayload(d.opcode) {
        Start(d, c, nowNs);
        return false, c;
      }
      more := Publish(c);
    }

    /** One turn of the submission loop. */
    method FetchOne(connected: bool) returns (ok: bool, more: bool)
      requires Valid() && Free() && control.enable && cq.HasRoom() && sq.head != sq.tail
      modifies this`sq, this`cq, this`errors, this`bridge, this`command, this`completion, this`engine, this`control,
               this`timers
      ensures Valid()
      ensures Fetching(old(control), old(sq), old(cq), old(bridge), old(timers), control, sq, cq, bridge, timers,
                       connected)
      ensures more ==> Free() && sq.Held() == old(sq).Held() - 1
      ensures ok && !more ==> !Free()
      ensures ok || more || sq.error || cq.error
      ensures !connected && engine.active ==> Vetted(engine, command, completion)
    {
      var readOk: bool := *;
      var d := sq.memory[sq.head];
      var nowNs: nat :| nowNs >= 0;
      var stamp: u64 :| 0 <= stamp < TWO64;
      if !readOk {
        sq := sq.(error := true);
        SetError({DmaError, QueueError});
        return false, false;
      }
      if connected {
        ok := Send(d, nowNs);
        return ok, false;
      }
      var verdict;
      more, verdict := Serve(d, nowNs, stamp);
      ok := more || engine.active;
    }

    /** One more turn, as part of a loop that started from the given values. */
    method Turn(connected: bool, ghost c: Control, ghost q: SubmissionQueue, ghost p: CompletionQueue, ghost b: Bridge,
                ghost t: Timers) returns (ok: bool, more: bool, full: bool)
      requires Valid() && Free() && control.enable && cq.HasRoom() && sq.head != sq.tail
      requires Fetching(c, q, p, b, t, control, sq, cq, bridge, timers, connected)
      modifies this`sq, this`cq, this`errors, this`bridge, this`command, this`completion, this`engine, this`control,
               this`timers
      ensures Valid() && Fetching(c, q, p, b, t, control, sq, cq, bridge, timers, connected)
      ensures full <==> !cq.HasRoom()
      ensures more ==> Free() && sq.Held() < old(sq).Held()
      ensures !more ==> if ok then !Free() else sq.error || cq.error
      ensures !connected && engine.active ==> Vetted(engine, command, completion)
    {
      ok, more := FetchOne(connected);
      full := Ring.IsFull(cq.head, cq.tail, cq.depth);
    }

    /** The loop of `vams_pcie_process_sq`: fetch until the queue, the completion room or the owner stops it. */
    method FetchAll(connected: bool) returns (ok: bool)
      requires Valid() && control.enable
      modifies this`sq, this`cq, this`errors, this`bridge, this`command, this`completion, this`engine, this`control,
               this`timers
      ensures Valid()
      ensures Fetching(old(control), old(sq), old(cq), old(bridge), old(timers), control, sq, cq, bridge, timers,
                       connected)
      ensures if ok then Stalled() else sq.error || cq.error
      ensures old(sq).head == old(sq).tail ==> sq == old(sq) && cq == old(cq) && bridge == old(bridge)
      ensures old(sq).head == old(sq).tail ==> engine == old(engine) && control == old(control)
      ensures RunsVetted(connected, old(engine), old(command), old(completion), engine, command, completion)
    {
      var full := Ring.IsFull(cq.head, cq.tail, cq.depth);
      var more := true;
      while sq.head != sq.tail && !full && !cq.throttled && Free()
        invariant Valid() && control.enable && (full <==> !cq.HasRoom())
        invariant Fetching(old(control), old(sq), old(cq), old(bridge), old(timers),
                           control, sq, cq, bridge, timers, connected)
        invariant old(sq).head == old(sq).tail ==> sq == old(sq) && cq == old(cq) && bridge == old(bridge)
        invariant old(sq).head == old(sq).tail ==> engine == old(engine) && control == old(control)
        invariant RunsVetted(connected, old(engine), old(command), old(completion), engine, command, completion)
        decreases sq.Held()
      {
        ok, more, full := Turn(connected, old(control), old(sq), old(cq), old(bridge), old(timers));
        if !more {
          return;
        }
      }
      return true;
    }

    /** `vams_pcie_process_sq`. */
    method ProcessSq(connected: bool) returns (ok: bool)
      requires Valid()
      modifies this`sq, this`cq, this`errors, this`bridge, this`command, this`completion, this`engine, this`control,
               this`timers
      ensures Valid()
      ensures Fetching(old(control), old(sq), old(cq), old(bridge), old(timers), control, sq, cq, bridge, timers,
                       connected)
      ensures if ok then Stalled() else sq.error || cq.error
      ensures old(Idle()) ==> sq == old(sq) && cq == old(cq) && bridge == old(bridge)
      ensures old(Idle()) ==> engine == old(engine) && control == old(control)
      ensures RunsVetted(connected, old(engine), old(command), old(completion), engine, command, completion)
    {
      assert CheckInvariants();
      if !control.enable || control.quiesce || !busMaster {
        return true;
      }
      ok := FetchAll(connected);
    }

    // ---------------------------------------------------------------- engine and bridge events

    /** The engine has just been stopped on the current command. */
    ghost predicate Halted()
      reads this
    {
      && Steady() && Free() && !control.resetting && cq.HasRoom()
      && Stopped(sq, cq, command, completion, faithful)
    }

    method Halt()
      requires Valid() && engine.active
      modifies this`timers, this`engine, this`control, this`bridge
      ensures Halted() && engine == old(engine).(active := false) && timers == old(timers).(engine := false)
      ensures control == old(control).(busy := false) && bridge == old(bridge).(controlReceived := 0)
    {
      timers := timers.(engine := false);
      engine := engine.(active := false);
      bridge := bridge.(controlReceived := 0);
      control := control.(busy := false);
      assert CheckInvariants();
    }

    method NextEpoch()
      requires Halted()
      modifies this`epoch
      ensures Halted() && epoch == Inc32(old(epoch))
    {
      epoch := Inc32(epoch);
    }

    /** The engine is stopped before its time, and what it was doing is fenced off. */
    method StopEngine()
      requires Valid() && engine.active
      modifies this`timers, this`engine, this`control, this`bridge, this`epoch
      ensures Halted() && epoch == Inc32(old(epoch))
      ensures Leaves(true) == old(Leaves(true)) && Leaves(false) == old(Leaves(false))
    {
      Halt();
      NextEpoch();
    }

    /** The stopped command's completion is published here. */
    method PublishHere(c: Completion)
      requires Halted() && Identified(c, command, completion)
      modifies this`completion, this`cq, this`errors
      ensures Valid() && Free() && completion == c && Published(old(cq), cq, c) && Grown(old(cq), cq)
      ensures !Stalled() <==> if cq.lost > old(cq).lost then old(Leaves(true)) else old(Leaves(false))
    {
      StoppedIsDue(sq, cq, command, completion, faithful, c);
      completion := c;
      var published := Publish(c);
      RoomAfter(old(cq), cq, c);
    }

    /** The stopped command's result has been handed to the firmware, which is to send it back. */
    method HandOver(result: Completion, connected: bool) returns (ok: bool)
      requires Halted() && Identified(result, command, completion)
      modifies this`completion, this`bridge, this`timers, this`errors
      ensures ok ==> Valid() && completion == result && bridge.inflight && bridge.waitingFinal && connected
      ensures !ok ==> Halted() && completion == old(completion)
      ensures bridge.inflight == ok && !bridge.discard
    {
      StoppedIsDue(sq, cq, command, completion, faithful, result);
      ok := Report(result, false, connected);
      if ok {
        completion := result;
      }
    }

    /** The stopped command's result goes to the firmware, or `fallback` is published when it cannot be reached. */
    method Conclude(result: Completion, fallback: Completion, connected: bool)
      requires Halted() && Identified(result, command, completion) && Identified(fallback, command, completion)
      modifies this`completion, this`bridge, this`timers, this`cq, this`errors
      ensures Valid() && completion == if bridge.inflight then result else fallback
      ensures if bridge.inflight then bridge.waitingFinal && cq == old(cq) && connected
              else Published(old(cq), cq, fallback)
      ensures Grown(old(cq), cq) && !bridge.discard
      ensures !Stalled() <==>
                !bridge.inflight && if cq.lost > old(cq).lost then old(Leaves(true)) else old(Leaves(false))
    {
      var ok := HandOver(result, connected);
      if !ok {
        PublishHere(fallback);
      }
    }

    /**
     The engine timer fires: time out or execute, and return the result. Nothing is fetched afterwards,
     so descriptors that could be are left waiting exactly as `Leaves` tells beforehand.
     */
    method EngineComplete(connected: bool)
      requires Valid() && timers.engine
      modifies host, this`timers, this`engine, this`control, this`bridge, this`completion, this`cq, this`errors
      ensures Valid() && Grown(old(cq), cq)
      ensures if TooLate(old(engine), command)
              then completion == Failed(old(completion), STATUS_TIMED_OUT, ERR_TIMEOUT) && host.mem == old(host.mem)
              else exists error: u16 ::
                     Payload.Executed(old(host.mem), host.mem, command, old(completion), completion, error)
      ensures if bridge.inflight then bridge.waitingFinal && cq == old(cq) && connected
              else Published(old(cq), cq, completion)
      ensures !Stalled() <==>
                !bridge.inflight && if cq.lost > old(cq).lost then old(Leaves(true)) else old(Leaves(false))
      ensures control == old(control).(busy := false) && !bridge.discard
    {
      assert engine.active;
      // so neither stale return of the source is taken
      assert engine.generation == generation && engine.epoch == epoch;
      Halt();
      var result := Failed(completion, STATUS_TIMED_OUT, ERR_TIMEOUT);
      if engine.deadlineNs >= engine.finishNs {
        var error;
        result, error := host.Execute(command, completion);
      }
      Conclude(result, result, connected);
    }

    method ResetRunningEngine(stamp: u64, connected: bool)
      requires Valid() && engine.active
      modifies this`timers, this`engine, this`control, this`bridge, this`completion, this`cq, this`errors, this`epoch
      ensures Valid() && epoch == Inc32(old(epoch)) && !engine.active
      ensures !Stalled() <==>
                !bridge.inflight && if cq.lost > old(cq).lost then old(Leaves(true)) else old(Leaves(false))
      ensures completion == Failed(old(completion), STATUS_RESET, ERR_RESET).(timestamp := stamp)
      ensures if bridge.inflight then bridge.waitingFinal && cq == old(cq) else Published(old(cq), cq, completion)
    {
      StopEngine();
      var result := Failed(completion, STATUS_RESET, ERR_RESET).(timestamp := stamp);
      Conclude(result, result, connected);
    }

    /** An engine-only reset: the running command, if any, completes with RESET; the generation stays. */
    method EngineReset(stamp: u64, connected: bool)
      requires Valid()
      modifies this`timers, this`engine, this`control, this`bridge, this`completion, this`cq, this`errors
      modifies this`sq, this`command, this`epoch, this`reason
      ensures Valid() && generation == old(generation) && epoch == Inc32(old(epoch)) && reason == ByEngine
      ensures old(engine).active ==>
                && completion == Failed(old(completion), STATUS_RESET, ERR_RESET).(timestamp := stamp)
                && sq == old(sq) && !engine.active
                && (if bridge.inflight then bridge.waitingFinal && cq == old(cq)
                    else Published(old(cq), cq, completion))
                && (!Stalled() <==>
                    !bridge.inflight && if cq.lost > old(cq).lost then old(Leaves(true)) else old(Leaves(false)))
      ensures !old(engine).active ==> Settled()
    {
      reason := ByEngine;
      if engine.active {
        ResetRunningEngine(stamp, connected);
      } else {
        bridge := bridge.(controlReceived := 0);
        epoch := Inc32(epoch);
        assert CheckInvariants();
        var ok := ProcessSq(connected);
      }
    }

    /** Tell the management side its reset notice arrived. */
    method AckReset(request: Completion)
      modifies this`errors
      ensures errors == old(errors) || errors == old(errors) + {FirmwareError, QueueError}
    {
      var delivered: bool := *;
      if !delivered {
        SetError({FirmwareError, QueueError});
      }
    }

    /** A reset notice for the running command: stop the engine and publish the notice. */
    method ResetNotice(request: Completion)
      requires Valid() && engine.active && Answers(request, command)
      modifies this`timers, this`engine, this`control, this`bridge, this`completion, this`cq, this`errors, this`epoch
      ensures Valid() && Free() && epoch == Inc32(old(epoch)) && completion == Untagged(request)
      ensures Published(old(cq), cq, Untagged(request))
      ensures !Stalled() <==> if cq.lost > old(cq).lost then old(Leaves(true)) else old(Leaves(false))
    {
      StopEngine();
      PublishHere(Untagged(request));
      if IsTagged(request) {
        AckReset(request);
      }
    }

    /** What an abort request makes of the running command: itself if it is valid, an engine failure otherwise. */
    method AbortResult(request: Completion, stamp: u64) returns (result: Completion)
      modifies this`errors
      ensures Answers(result, command)
      ensures var valid := && Answers(request, command)
                           && request.status == STATUS_TIMED_OUT && request.errorCode == ERR_TIMEOUT;
              if valid then result == request.(timestamp := stamp)
              else && result.status == STATUS_FAILED && result.errorCode == ERR_ENGINE && result.bytesProcessed == 0
                   && result.timestamp == stamp
    {
      result := request;
      if !(request.commandId == command.commandId && request.cookie == command.cookie
           && request.status == STATUS_TIMED_OUT && request.errorCode == ERR_TIMEOUT) {
        result := Failed(completion, STATUS_FAILED, ERR_ENGINE).(commandId := command.commandId,
                                                                 cookie := command.cookie);
        SetError({QueueError});
      }
      result := result.(timestamp := stamp);
    }

    /** Any other request while the engine runs: a valid abort, or a bad one answered as an engine failure. */
    method AbortMessage(request: Completion, stamp: u64, connected: bool)
      requires Valid() && engine.active
      modifies this`timers, this`engine, this`control, this`bridge, this`completion, this`cq, this`errors, this`epoch
      ensures Valid() && !engine.active && epoch == Inc32(old(epoch)) && Answers(completion, command)
      ensures var valid := && Answers(request, command)
                           && request.status == STATUS_TIMED_OUT && request.errorCode == ERR_TIMEOUT;
              if bridge.inflight && valid then completion == request.(timestamp := stamp)
              else && completion.status == STATUS_FAILED && completion.errorCode == ERR_ENGINE
                   && completion.bytesProcessed == 0
      ensures !Stalled() <==>
                !bridge.inflight && if cq.lost > old(cq).lost then old(Leaves(true)) else old(Leaves(false))
      ensures if bridge.inflight then bridge.waitingFinal && cq == old(cq) else Published(old(cq), cq, completion)
    {
      StopEngine();
      var result := AbortResult(request, stamp);
      Conclude(result, Failed(result, STATUS_FAILED, ERR_ENGINE), connected);
    }

    /** The request in flight has been answered by a whole message, which is now in the completion buffer. */
    method Settle(message: Completion)
      requires Valid() && bridge.inflight
      modifies this`bridge, this`completion, this`faithful
      ensures Owing(message) && Owing(Untagged(message)) && Free() && completion == message
      ensures faithful == (old(faithful) && Answers(message, command))
      ensures faithful && cq.lost == 0 ==> Current(sq, command)
      ensures bridge == old(bridge).(inflight := false, waitingFinal := false)
    {
      faithful := faithful && Answers(message, command);
      bridge := bridge.(inflight := false, waitingFinal := false);
      completion := message;
    }

    /** The firmware authorized the payload: start the engine. */
    method Authorize(message: Completion, nowNs: nat)
      requires Owing(message) && Free() && completion == message && IsPayload(command.opcode)
      requires engine.deadlineNs == TimeLimit(engine, command)
      requires faithful ==> Answers(message, command)
      requires faithful && cq.lost == 0 ==> Current(sq, command)
      modifies this`engine, this`control, this`timers
      ensures Valid() && engine.active
    {
      Schedule(nowNs);
      assert CheckInvariants();
    }

    /** The final completion: published, without the tag of a reset notice, which is then acknowledged. */
    method Finish(message: Completion)
      requires Owing(message) && Owing(Untagged(message)) && completion == message && Free()
      modifies this`completion, this`cq, this`errors
      ensures Valid()
      ensures cq.written == old(cq).written + [if IsTagged(message) then Untagged(message) else message]
              || cq.lost == old(cq).lost + 1
    {
      if IsTagged(message) {
        completion := Untagged(message);
        var published := Publish(completion);
        AckReset(message);
      } else {
        var published := Publish(completion);
      }
    }

    /** A whole message for the command in flight: authorize the engine, or publish the final completion. */
    method Answer(message: Completion, nowNs: nat)
      requires Valid() && bridge.inflight
      modifies this`bridge, this`completion, this`engine, this`control, this`timers, this`cq, this`errors, this`faithful
      ensures Valid() && !bridge.inflight && faithful == (old(faithful) && Answers(message, command))
      ensures if !old(bridge).waitingFinal && message.status == STATUS_SUCCESS && IsPayload(command.opcode)
              then engine.active && completion == message && cq == old(cq)
              else && !engine.active
                   && (|| cq.written == old(cq).written + [if IsTagged(message) then Untagged(message) else message]
                       || cq.lost == old(cq).lost + 1)
    {
      var waiting := bridge.waitingFinal;
      Settle(message);
      if !waiting && message.status == STATUS_SUCCESS && IsPayload(command.opcode) {
        Authorize(message, nowNs);
      } else {
        Finish(message);
      }
    }

    /** How many bytes the endpoint is willing to take now. */
    function CanReceive(): nat
      requires Valid()
      reads this
    {
      if engine.active then MESSAGE_BYTES - bridge.controlReceived
      else if Outstanding(bridge, engine) || bridge.discard then MESSAGE_BYTES - bridge.received
      else 0
    }

    /** These bytes complete an answer to the request in flight that does not name its command. */
    predicate Misnames(size: nat, message: Completion)
      reads this
    {
      bridge.inflight && !engine.active && bridge.received + size == MESSAGE_BYTES && !Answers(message, command)
    }

    /** Bytes of a request that arrives while the engine runs; a whole one stops it. */
    method ControlReceive(size: nat, message: Completion, stamp: u64, connected: bool)
      requires Valid() && engine.active && 0 < size <= MESSAGE_BYTES - bridge.controlReceived
      modifies this`timers, this`engine, this`control, this`bridge, this`completion, this`cq, this`errors, this`epoch
      ensures Valid()
      ensures old(bridge).controlReceived + size == MESSAGE_BYTES ==>
                (!Stalled() <==>
                 !bridge.inflight && if cq.lost > old(cq).lost then old(Leaves(true)) else old(Leaves(false)))
      ensures old(bridge).controlReceived + size < MESSAGE_BYTES ==>
                && cq == old(cq) && engine == old(engine) && epoch == old(epoch)
                && bridge == old(bridge).(controlReceived := old(bridge).controlReceived + size)
    {
      bridge := bridge.(controlReceived := bridge.controlReceived + size);
      if bridge.controlReceived != MESSAGE_BYTES {
        return;
      }
      if message.commandId == command.commandId && message.cookie == command.cookie
         && message.status == STATUS_RESET && message.errorCode == ERR_RESET {
        ResetNotice(message);
      } else {
        AbortMessage(message, stamp, connected);
      }
    }

    /** Bytes of an answer; a whole one is taken, or releases a discarded request. */
    method AnswerReceive(size: nat, message: Completion, nowNs: nat, connected: bool)
      requires Valid() && !engine.active && (bridge.inflight || bridge.discard)
      requires 0 < size <= MESSAGE_BYTES - bridge.received
      modifies this`timers, this`engine, this`control, this`bridge, this`command, this`completion
      modifies this`sq, this`cq, this`errors, this`faithful
      ensures Valid() && faithful == (old(faithful) && !old(Misnames(size, message))) && Settled()
      ensures old(bridge).received + size < MESSAGE_BYTES ==>
                && sq == old(sq) && cq == old(cq) && engine == old(engine)
                && bridge == old(bridge).(received := old(bridge).received + size)
    {
      if bridge.received + size != MESSAGE_BYTES {
        bridge := bridge.(received := bridge.received + size);
        return;
      }
      bridge := bridge.(received := 0);
      if bridge.discard {
        Release();
      } else {
        Answer(message, nowNs);
        if engine.active {
          return;
        }
      }
      LookAround(connected);
    }

    /** Bytes arrive from the firmware, never more than the endpoint asked for; a whole message is handled. */
    method BridgeReceive(size: nat, message: Completion, nowNs: nat, stamp: u64, connected: bool)
      requires Valid() && 0 < size <= CanReceive()
      modifies this`timers, this`engine, this`control, this`bridge, this`command, this`completion
      modifies this`sq, this`cq, this`errors, this`epoch, this`faithful
      ensures Valid() && faithful == (old(faithful) && !old(Misnames(size, message)))
      ensures !old(engine).active ==> Settled()
      ensures old(engine).active && old(bridge).controlReceived + size == MESSAGE_BYTES ==>
                (!Stalled() <==>
                 !bridge.inflight && if cq.lost > old(cq).lost then old(Leaves(true)) else old(Leaves(false)))
      ensures size < old(CanReceive()) ==>
                && sq == old(sq) && cq == old(cq) && engine == old(engine) && epoch == old(epoch)
                && bridge == if engine.active then old(bridge).(controlReceived := old(bridge).controlReceived + size)
                             else old(bridge).(received := old(bridge).received + size)
    {
      assert CheckInvariants();
      if engine.active {
        assert size <= MESSAGE_BYTES - bridge.controlReceived;
        ControlReceive(size, message, stamp, connected);
      } else {
        assert bridge.inflight || bridge.discard;
        assert size <= MESSAGE_BYTES - bridge.received;
        AnswerReceive(size, message, nowNs, connected);
      }
    }

    /** The discarded request has been acknowledged. */
    method Release()
      requires Valid() && bridge.discard
      modifies this`timers, this`bridge
      ensures Valid() && bridge == old(bridge).(discard := false) && !timers.ack
    {
      timers := timers.(ack := false);
      bridge := bridge.(discard := false);
      assert CheckInvariants();
    }

    /** The firmware did not acknowledge a discarded result in time: give the bridge back. */
    method AckTimeout(connected: bool)
      requires Valid() && timers.ack
      modifies this`timers, this`engine, this`control, this`bridge, this`command, this`completion
      modifies this`sq, this`cq, this`errors, this`ackTimeouts
      ensures Valid() && !timers.ack && !bridge.discard && ackTimeouts == SatInc(old(ackTimeouts)) && Settled()
    {
      assert bridge.discard;
      timers := timers.(ack := false);
      bridge := bridge.(discard := false, received := 0);
      ackTimeouts := SatInc(ackTimeouts);
      SetError({FirmwareError, QueueError});
      assert CheckInvariants();
      var ok := ProcessSq(connected);
    }

    /** The outstanding command's owner is gone: everything is given up and its completion is owed. */
    method Abandon()
      requires Valid() && Outstanding(bridge, engine)
      modifies this`timers, this`engine, this`control, this`bridge
      ensures bridge == IDLE_BRIDGE && !engine.active && Steady() && cq.HasRoom() && !control.resetting
      ensures forall c: Completion :: Answers(c, command) ==> Owing(c)
    {
      CancelEngine();
      bridge := IDLE_BRIDGE;
      timers := timers.(ack := false);
    }

    /** The firmware side disconnects: the outstanding command fails here, and a pending discard is dropped. */
    method BridgeClosed(stamp: u64, connected: bool)
      requires Valid()
      modifies this`timers, this`engine, this`control, this`bridge, this`command, this`completion, this`sq, this`cq,
               this`errors
      ensures Valid() && (old(Stalled()) ==> Settled())
      ensures !connected && (old(Outstanding(bridge, engine)) || old(bridge).discard) ==>
                !bridge.inflight && !bridge.discard
      ensures old(Outstanding(bridge, engine)) ==>
                exists c: Completion ::
                  && Answers(c, old(command)) && c.status == STATUS_FAILED && c.errorCode == ERR_ENGINE
                  && c.bytesProcessed == 0 && c.timestamp == stamp
                  && (old(cq).written + [c] <= cq.written || cq.lost > old(cq).lost)
    {
      if Outstanding(bridge, engine) {
        Abandon();
        SetError({DmaError, QueueError});
        var failure := OwnCompletion(command, STATUS_FAILED, ERR_ENGINE, stamp);
        assert Owing(failure);
        var published := Publish(failure);
        var ok := ProcessSq(connected);
      } else if bridge.discard {
        Release();
        bridge := bridge.(received := 0, controlReceived := 0);
        SetError({DmaError, QueueError});
        var ok := ProcessSq(connected);
      }
    }

    // ---------------------------------------------------------------- resets

    /** A reset takes the outstanding command away; its answer, if one will come, is to be discarded. */
    method Withdraw(error: u16, stamp: u64, connected: bool)
      requires Valid()
      modifies this`timers, this`engine, this`control, this`bridge, this`completion, this`errors
      ensures CheckInvariants() && !bridge.inflight && !engine.active && !timers.engine
      ensures control == old(control).(busy := false) && timers.reset == old(timers).reset
      ensures bridge.received == old(bridge).received
      // a running engine is reported to the firmware, under a deadline
      ensures old(engine).active ==> bridge.discard == timers.ack
      ensures old(engine).active ==> completion == Failed(old(completion), STATUS_RESET, error).(timestamp := stamp)
      // a request in flight is discarded without one
      ensures old(bridge).inflight ==> bridge.discard && !timers.ack
      ensures old(Free()) ==> !bridge.discard && !timers.ack
      ensures old(bridge).discard ==> bridge.discard && timers.ack == old(timers).ack
    {
      CancelBridge();
      if engine.active {
        CancelEngine();
        completion := Failed(completion, STATUS_RESET, error).(timestamp := stamp);
        var ok := Report(completion, true, connected);
      } else {
        CancelEngine();
      }
    }

    /** `vams_pcie_queue_reset`: both queues stop and empty; the generation and the epoch move on. */
    method QueueReset(stamp: u64, connected: bool)
      requires Valid() && !control.resetting
      modifies this
      ensures Valid() && !Outstanding(bridge, engine) && !control.enable && !control.queuesReady
      ensures generation == Inc32(old(generation)) && epoch == Inc32(old(epoch)) && reason == ByQueue
      ensures sq == NoSubmissions(old(sq).memory).(base := old(sq).base, depth := old(sq).depth)
      ensures cq == NoCompletions(old(cq).memory).(base := old(cq).base, depth := old(cq).depth) && faithful
      ensures old(engine).active ==> bridge.discard == timers.ack
      ensures old(bridge).inflight ==> bridge.discard && !timers.ack
    {
      Withdraw(ERR_QUEUE_RESET, stamp, connected);
      control := control.(enable := false, queuesReady := false);
      sq := sq.(head := 0, tail := 0, enabled := false, error := false, stream := [], fetched := []);
      cq := cq.(head := 0, tail := 0, enabled := false, error := false, high := 0, low := 0, throttled := false,
                interrupt := false, written := [], acknowledged := 0, lost := 0, moved := false);
      faithful := true;
      NextGeneration(ByQueue);
      StoppedSane(control, sq, cq, bridge, engine, timers, command, completion, generation, epoch);
      assert CheckInvariants();
    }

    method ClearLatches()
      modifies this`errors, this`sqBaseLo, this`cqBaseLo
      ensures errors == {} && sqBaseLo == cqBaseLo == 0
    {
      errors, sqBaseLo, cqBaseLo := {}, 0, 0;
    }

    method ClearWork()
      modifies this`timers, this`bridge, this`command, this`completion, this`engine
      ensures timers == Timers(false, false, false) && bridge == IDLE_BRIDGE && engine == IDLE_ENGINE
      ensures command == ZERO_SUBMISSION && completion == ZERO_COMPLETION
    {
      timers := Timers(false, false, false);
      bridge, command, completion := IDLE_BRIDGE, ZERO_SUBMISSION, ZERO_COMPLETION;
      engine := IDLE_ENGINE;
    }

    /** The fences move on. */
    method NextGeneration(why: ResetReason)
      modifies this`generation, this`epoch, this`reason
      ensures generation == Inc32(old(generation)) && epoch == Inc32(old(epoch)) && reason == why
    {
      generation := Inc32(generation);
      epoch := Inc32(epoch);
      reason := why;
    }

    /** `vams_pcie_device_reset`: everything goes back to its initial value but the fences, which move on. */
    method DeviceReset(stamp: u64, connected: bool)
      requires Valid() && !control.resetting
      modifies this
      ensures Valid()
      ensures generation == Inc32(old(generation)) && epoch == Inc32(old(epoch)) && reason == ByDevice
      ensures sq == NoSubmissions(old(sq).memory) && cq == NoCompletions(old(cq).memory)
      ensures faithful && errors == {} && timers.reset
      ensures control == Control(false, false, false, true, false, false)
      ensures old(engine).active ==> bridge.discard == timers.ack
      ensures old(bridge).inflight ==> bridge.discard && !timers.ack
    {
      Withdraw(ERR_RESET, stamp, connected);
      NextGeneration(ByDevice);
      control := Control(false, false, false, true, false, false);
      ClearLatches();
      sq, cq := NoSubmissions(sq.memory), NoCompletions(cq.memory);
      faithful := true;
      timers := timers.(reset := true);
      StoppedSane(control, sq, cq, bridge, engine, timers, command, completion, generation, epoch);
      assert CheckInvariants();
    }

    /** The reset bit of DEVICE_CONTROL: refused while a reset is under way. */
    method RequestDeviceReset(stamp: u64, connected: bool)
      requires Valid()
      modifies this
      ensures Valid() && control.resetting && faithful == (old(faithful) || !old(control).resetting)
      ensures generation == if old(control).resetting then old(generation) else Inc32(old(generation))
    {
      if control.resetting {
        SetError({BadConfig});
        return;
      }
      DeviceReset(stamp, connected);
    }

    /** The device reset delay is over. */
    method ResetComplete()
      requires Valid() && timers.reset
      modifies this`control, this`timers
      ensures Valid() && control == old(control).(ready := true, resetting := false) && !timers.reset
    {
      timers := timers.(reset := false);
      control := Control(true, false, false, false, control.enable, control.quiesce);
    }

    /** A reset of the whole machine: the power-on state, in the middle of anything. */
    method MachineReset()
      requires |sq.memory| == |cq.memory| == Ring.MAX_DEPTH
      modifies this
      ensures Valid() && generation == 0 && epoch == 0 && reason == PowerOn && faithful && errors == {}
      ensures sq == NoSubmissions(old(sq).memory) && cq == NoCompletions(old(cq).memory)
      ensures control == Control(true, false, false, false, false, false) && bridge == IDLE_BRIDGE && !busMaster
      ensures timers == Timers(false, false, false)
    {
      SaneAtPowerOn(sq.memory, cq.memory);
      ClearLatches();
      ClearWork();
      control := Control(true, false, false, false, false, false);
      busMaster, ackTimeouts := false, 0;
      sq, cq := NoSubmissions(sq.memory), NoCompletions(cq.memory);
      generation, epoch, reason, faithful := 0, 0, PowerOn, true;
      assert CheckInvariants();
    }

    // ---------------------------------------------------------------- register writes

    /** The host stores a descriptor in the submission ring's memory. */
    method HostStore(index: nat, d: Submission)
      requires Valid() && index < Ring.MAX_DEPTH
      modifies this`sq
      ensures Valid() && sq == old(sq).(memory := old(sq).memory[index := d], stream := sq.stream)
    {
      sq := Behind(sq, sq.memory[index := d]);
    }

    /** The queue with other memory behind it: what waits is what is there now. */
    function Behind(q: SubmissionQueue, memory: seq<Submission>): (r: SubmissionQueue)
      requires q.Good() && |memory| == Ring.MAX_DEPTH
      ensures r.Good()
    {
      q.(memory := memory,
         stream := q.fetched + if q.depth == 0 then [] else Entries(memory, q.head, q.tail, q.depth))
    }

    /** A submission doorbell announces descriptors, or is refused and changes nothing but the error bits. */
    method SqDoorbell(value: u32, connected: bool) returns (legal: bool)
      requires Valid()
      modifies this`timers, this`engine, this`control, this`bridge, this`command, this`completion, this`sq, this`cq,
               this`errors
      ensures Valid()
      ensures legal <==> && !old(control).resetting && old(sq).enabled && value < old(sq).depth
                         && old(sq).Held() + Ring.Between(old(sq).tail, value, old(sq).depth) < old(sq).depth
      ensures legal ==> && Settled()
                        && Fetching(old(control), Extended(old(sq), value), old(cq), old(bridge), old(timers),
                                    control, sq, cq, bridge, timers, connected)
      ensures RunsVetted(connected, old(engine), old(command), old(completion), engine, command, completion)
      ensures legal && !busMaster ==> && sq == Extended(old(sq), value) && cq == old(cq) && bridge == old(bridge)
                                      && engine == old(engine) && control == old(control)
      ensures !legal ==> && sq == old(sq).(error := sq.error) && cq == old(cq) && bridge == old(bridge)
                         && engine == old(engine) && control == old(control)
      ensures !legal ==> errors == old(errors) + {if control.resetting then BadConfig else QueueError}
    {
      if control.resetting {
        SetError({BadConfig});
        return false;
      }
      legal, sq := Announce(sq, value);
      if !legal {
        SetError({QueueError});
        return;
      }
      LookAround(connected);
    }

    /** `vams_pcie_process_sq` at the end of a handler. */
    method LookAround(connected: bool)
      requires Valid()
      modifies this`timers, this`engine, this`control, this`bridge, this`command, this`completion, this`sq, this`cq,
               this`errors
      ensures Valid() && Settled()
      ensures Fetching(old(control), old(sq), old(cq), old(bridge), old(timers), control, sq, cq, bridge, timers,
                       connected)
      ensures !busMaster ==> && sq == old(sq) && cq == old(cq) && bridge == old(bridge)
                             && engine == old(engine) && control == old(control)
      ensures RunsVetted(connected, old(engine), old(command), old(completion), engine, command, completion)
    {
      var ok := ProcessSq(connected);
    }

    /** A completion doorbell acknowledges completions, or is refused and changes nothing but the error bits. */
    method CqDoorbell(value: u32, connected: bool) returns (legal: bool)
      requires Valid()
      modifies this`timers, this`engine, this`control, this`bridge, this`command, this`completion, this`sq, this`cq,
               this`errors
      ensures Valid()
      ensures legal <==> && !old(control).resetting && old(cq).enabled && value < old(cq).depth
                         && Ring.Between(old(cq).head, value, old(cq).depth) <= old(cq).Held()
      ensures legal ==> && Settled()
                        && Fetching(old(control), old(sq), Released(old(cq), value), old(bridge), old(timers),
                                    control, sq, cq, bridge, timers, connected)
      ensures RunsVetted(connected, old(engine), old(command), old(completion), engine, command, completion)
      ensures !legal ==> && cq == old(cq).(error := cq.error) && sq == old(sq) && bridge == old(bridge)
                         && engine == old(engine) && control == old(control)
      ensures !legal ==> errors == old(errors) + {if control.resetting then BadConfig else QueueError}
    {
      if control.resetting {
        SetError({BadConfig});
        return false;
      }
      var acknowledged;
      legal, acknowledged := Acknowledge(cq, value);
      SaneWith(control, sq, cq, bridge, engine, timers, command, completion, generation, epoch, faithful, acknowledged);
      cq := acknowledged;
      if !legal {
        SetError({QueueError});
        return;
      }
      LookAround(connected);
    }

    method UpdateQueuesReady()
      modifies this`control
      ensures control == Switched(old(control), sq.enabled, cq.enabled)
    {
      if sq.enabled && cq.enabled {
        control := control.(queuesReady := true);
      } else {
        control := control.(queuesReady := false, enable := false);
      }
    }

    method SwitchSq(on: bool)
      requires Valid() && !control.resetting && (on ==> sq.depth != 0)
      modifies this`sq, this`control
      ensures Valid() && sq == old(sq).(enabled := on) && control == Switched(old(control), on, cq.enabled)
    {
      SwitchSteady(control, sq, cq, bridge, engine, timers, command, generation, epoch, sq.(enabled := on), cq);
      sq := sq.(enabled := on);
      UpdateQueuesReady();
    }

    /** SQ_CONTROL without the reset bit (which is `QueueReset`): enable needs a base and a depth. */
    method SqControl(on: bool) returns (ok: bool)
      requires Valid()
      modifies this`sq, this`control, this`errors
      ensures Valid()
      ensures ok <==> !old(control).resetting && (on ==> old(sq).base != 0 && old(sq).depth != 0)
      ensures sq == if ok then old(sq).(enabled := on) else old(sq)
      ensures old(Stalled()) ==> Stalled()
      ensures control == if ok then Switched(old(control), on, cq.enabled) else old(control)
      ensures errors == if ok then old(errors) else old(errors) + {BadConfig}
    {
      ok := !control.resetting && (on ==> sq.base != 0 && Ring.ValidDepth(sq.depth));
      if !ok {
        SetError({BadConfig});
        return;
      }
      SwitchSq(on);
    }

    method SwitchCq(on: bool)
      requires Valid() && !control.resetting && (on ==> cq.depth != 0)
      modifies this`cq, this`control
      ensures Valid() && cq.enabled == on && cq.Held() == old(cq).Held() && (old(Stalled()) ==> Stalled())
      ensures cq.high == (if on && old(cq).high == 0 then cq.depth - 1 else old(cq).high)
      ensures cq == old(cq).(enabled := on, high := cq.high, low := cq.low, throttled := cq.throttled)
      ensures control == Switched(old(control), sq.enabled, on)
      ensures cq.throttled == cq.Throttle(old(cq).throttled)
    {
      var switched := Switch(cq, on);
      SwitchSteady(control, sq, cq, bridge, engine, timers, command, generation, epoch, sq, switched);
      cq := switched;
      UpdateQueuesReady();
    }

    /** CQ_CONTROL without the reset bit: the first enable sets the default watermarks. */
    method CqControl(on: bool) returns (ok: bool)
      requires Valid()
      modifies this`cq, this`control, this`errors
      ensures Valid()
      ensures ok <==> !old(control).resetting && (on ==> old(cq).base != 0 && old(cq).depth != 0)
      ensures !ok ==> cq == old(cq) && errors == old(errors) + {BadConfig}
      ensures ok ==> cq == old(cq).(enabled := on, high := cq.high, low := cq.low, throttled := cq.throttled)
      ensures ok ==> control == Switched(old(control), sq.enabled, on) && errors == old(errors)
      ensures ok ==> cq.high == if on && old(cq).high == 0 then cq.depth - 1 else old(cq).high
      ensures old(Stalled()) ==> Stalled()
    {
      ok := !control.resetting && (on ==> cq.base != 0 && Ring.ValidDepth(cq.depth));
      if !ok {
        SetError({BadConfig});
        return;
      }
      SwitchCq(on);
    }

    /** CQ_WATERMARK: only on a stopped queue, with low below high below the depth. */
    method CqWatermark(high: nat, low: nat)
      requires Valid()
      modifies this`cq, this`errors
      ensures Valid()
      ensures if control.resetting || old(cq).enabled || high == 0 || low >= high || high >= Ring.MAX_DEPTH
                 || (old(cq).depth != 0 && high >= old(cq).depth)
              then cq == old(cq) && errors == old(errors) + {BadConfig}
              else cq == old(cq).(high := high, low := low) && errors == old(errors)
    {
      if control.resetting || cq.enabled || high == 0 || low >= high || high >= Ring.MAX_DEPTH
         || (cq.depth != 0 && high >= cq.depth) {
        SetError({BadConfig});
        return;
      }
      cq := cq.(high := high, low := low);
    }

    /** DEVICE_CONTROL without the reset bit: starting needs both queues and bus mastering. */
    method DeviceControl(enable: bool, quiesce: bool, connected: bool)
      requires Valid()
      modifies this`timers, this`engine, this`control, this`bridge, this`command, this`completion, this`sq, this`cq,
               this`errors
      ensures Valid()
      ensures control == if enable && !(old(sq).enabled && old(cq).enabled && busMaster) then old(control)
                         else old(control).(enable := enable, quiesce := quiesce, busy := control.busy)
      ensures enable && !(old(sq).enabled && old(cq).enabled && busMaster) ==> errors == old(errors) + {BadConfig}
      ensures Fetching(old(control).(enable := control.enable, quiesce := control.quiesce), old(sq), old(cq),
                       old(bridge), old(timers), control, sq, cq, bridge, timers, connected)
      ensures old(sq).head == old(sq).tail ==> sq == old(sq) && cq == old(cq) && bridge == old(bridge)
      ensures old(sq).head == old(sq).tail ==> engine == old(engine)
      ensures old(Stalled()) ==> Settled()
    {
      if enable {
        if !sq.enabled || !cq.enabled || !busMaster {
          SetError({BadConfig});
          return;
        }
        Enable(quiesce, connected);
        return;
      }
      control := control.(enable := false, quiesce := quiesce);
    }

    method Enable(quiesce: bool, connected: bool)
      requires Valid() && sq.enabled && cq.enabled
      modifies this`timers, this`engine, this`control, this`bridge, this`command, this`completion, this`sq, this`cq,
               this`errors
      ensures Valid() && Settled()
      ensures Fetching(old(control).(enable := true, quiesce := quiesce), old(sq), old(cq), old(bridge), old(timers),
                       control, sq, cq, bridge, timers, connected)
      ensures old(sq).head == old(sq).tail ==> sq == old(sq) && cq == old(cq) && bridge == old(bridge)
      ensures old(sq).head == old(sq).tail ==> engine == old(engine)
    {
      control := control.(enable := true, quiesce := quiesce);
      var ok := ProcessSq(connected);
    }

    /** INTR_STATUS write-one-to-clear: unread completions raise the interrupt again at once. */
    method ClearInterrupt()
      requires Valid()
      modifies this`cq
      ensures Valid() && cq == old(cq).(interrupt := old(cq).head != old(cq).tail)
    {
      cq := cq.(interrupt := false);
      if cq.head != cq.tail {
        cq := cq.(interrupt := true);
      }
    }

    /** INTR_FORCE on the completion source. */
    method ForceInterrupt()
      requires Valid()
      modifies this`cq
      ensures Valid() && cq == old(cq).(interrupt := true)
    {
      cq := cq.(interrupt := true);
    }

    /** ERROR_STATUS write-one-to-clear. */
    method ClearErrors(cleared: set<DeviceError>)
      requires Valid()
      modifies this`errors
      ensures Valid() && errors == old(errors) - cleared
    {
      errors := errors - cleared;
    }

    /** Only bus mastering is missing. */
    predicate WaitsForBus()
      reads this
    {
      control.enable && !control.quiesce && sq.head != sq.tail && cq.HasRoom() && !cq.throttled && Free()
    }

    /** Bus mastering is a bit of PCI configuration space: the endpoint does not look at its queue when it changes. */
    method SetBusMaster(on: bool)
      requires Valid()
      modifies this`busMaster
      ensures Valid() && busMaster == on && (!Stalled() <==> on && old(WaitsForBus()))
    {
      busMaster := on;
    }

    predicate Running(submission: bool)
      reads this
    {
      if submission then sq.enabled else cq.enabled
    }

    /** SQ_BASE_LO and CQ_BASE_LO: latched until the high half is written. */
    method SetBaseLow(submission: bool, low: u32)
      requires Valid()
      modifies this`sqBaseLo, this`cqBaseLo, this`errors
      ensures Valid()
      ensures var refused := control.resetting || Running(submission);
              && sqBaseLo == (if refused || !submission then old(sqBaseLo) else low)
              && cqBaseLo == (if refused || submission then old(cqBaseLo) else low)
              && errors == if refused then old(errors) + {BadConfig} else old(errors)
    {
      if control.resetting || Running(submission) {
        SetError({BadConfig});
      } else if submission {
        sqBaseLo := low;
      } else {
        cqBaseLo := low;
      }
    }

    /** The base that writing this high half makes. */
    function BaseWith(submission: bool, high: u32): u64
      reads this
    {
      high * TWO32 + if submission then sqBaseLo else cqBaseLo
    }

    predicate RefusesBase(submission: bool, high: u32)
      reads this
    {
      control.resetting || Running(submission) || BaseWith(submission, high) % 64 != 0
    }

    /** SQ_BASE_HI and CQ_BASE_HI: both halves take effect, 64-byte aligned, only on a stopped queue; other memory is
        then behind the ring. */
    method SetBaseHigh(submission: bool, high: u32)
      requires Valid()
      modifies this`sq, this`cq, this`errors
      ensures Valid()
      ensures var refused, base := old(RefusesBase(submission, high)), BaseWith(submission, high);
              && sq == (if refused || !submission then old(sq)
                        else old(sq).(base := base, memory := sq.memory, stream := sq.stream))
              && cq == (if refused || submission then old(cq)
                        else old(cq).(base := base, memory := cq.memory, moved := cq.moved))
              && cq.moved == (old(cq).moved || (!refused && !submission && old(cq).head != old(cq).tail))
              && errors == if refused then old(errors) + {BadConfig} else old(errors)
    {
      var base := BaseWith(submission, high);
      if control.resetting || Running(submission) || base % 64 != 0 {
        SetError({BadConfig});
        return;
      }
      if submission {
        var found: seq<Submission> := *;
        if |found| != Ring.MAX_DEPTH {
          found := sq.memory;
        }
        sq := Behind(sq.(base := base), found);
      } else {
        var found: seq<Completion> := *;
        if |found| != Ring.MAX_DEPTH {
          found := cq.memory;
        }
        cq := cq.(base := base, memory := found, moved := cq.moved || cq.head != cq.tail);
      }
    }

    // ---------------------------------------------------------------- queue geometry

    predicate RefusesSqDepth(depth: u32)
      reads this
    {
      control.resetting || sq.enabled || (depth != 0 && !Ring.ValidDepth(depth))
    }

    /** The indices lie in the new ring and enclose as many entries as before. */
    predicate SqFits(depth: u32)
      reads this
    {
      (depth != 0 ==> sq.head < depth && sq.tail < depth) && sq.(depth := depth).Waiting() == sq.Waiting()
    }

    /**
     SQ_DEPTH. A stopped queue keeps its indices, so the source's own invariant survives an accepted
     write exactly when both indices lie below the new depth, and the whole invariant exactly when
     they also enclose as many entries as before. Straight after a reset both always hold.
     */
    method SqDepth(depth: u32)
      requires Valid()
      modifies this`sq, this`errors
      ensures var refused := old(RefusesSqDepth(depth));
              && sq == (if refused then old(sq) else old(sq).(depth := depth))
              && errors == (if refused then old(errors) + {BadConfig} else old(errors))
              && (CheckInvariants() <==> refused || depth == 0 || (old(sq).head < depth && old(sq).tail < depth))
              && (Valid() <==> refused || old(SqFits(depth)))
      ensures old(sq).head == old(sq).tail == 0 ==> Valid()
    {
      if control.resetting || sq.enabled || (depth != 0 && !Ring.ValidDepth(depth)) {
        SetError({BadConfig});
        return;
      }
      if depth != 0 && sq.depth != 0 && sq.head <= sq.tail < sq.depth && sq.tail < depth {
        DepthIrrelevant(sq.memory, sq.head, sq.tail, sq.depth, depth);
      }
      sq := sq.(depth := depth);
    }

    predicate RefusesCqDepth(depth: u32)
      reads this
    {
      || control.resetting || cq.enabled
      || (depth != 0 && (!Ring.ValidDepth(depth) || (cq.high != 0 && cq.high >= depth)))
    }

    /** Likewise, and an outstanding command keeps room for its completion. */
    predicate CqFits(depth: u32)
      reads this
    {
      && (depth != 0 ==> cq.head < depth && cq.tail < depth)
      && cq.(depth := depth).Waiting() == cq.Waiting()
      && (Outstanding(bridge, engine) ==> cq.(depth := depth).HasRoom())
    }

    /** CQ_DEPTH, likewise; an outstanding command also has to keep its room. */
    method CqDepth(depth: u32)
      requires Valid()
      modifies this`cq, this`errors
      ensures var refused := old(RefusesCqDepth(depth));
              && cq == (if refused then old(cq) else old(cq).(depth := depth))
              && errors == (if refused then old(errors) + {BadConfig} else old(errors))
              && (CheckInvariants() <==> refused || depth == 0 || (old(cq).head < depth && old(cq).tail < depth))
              && (Valid() <==> refused || old(CqFits(depth)))
      ensures old(cq).head == old(cq).tail == 0 && !Outstanding(bridge, engine) ==> Valid()
    {
      if control.resetting || cq.enabled
         || (depth != 0 && (!Ring.ValidDepth(depth) || (cq.high != 0 && cq.high >= depth))) {
        SetError({BadConfig});
        return;
      }
      ResizedGood(cq, depth);
      SaneWith(control, sq, cq, bridge, engine, timers, command, completion, generation, epoch, faithful,
               cq.(depth := depth));
      cq := cq.(depth := depth);
    }

    // ---------------------------------------------------------------- whole runs

    /** An answer that does not name the command in flight. */
    predicate Misleads(e: Event)
      reads this
    {
      e.IsMessage() && Misnames(e.signal.size, e.signal.message)
    }

    /** The resets that put the order back on record. */
    predicate StartsAfresh(e: Event)
      reads this
    {
      e.Resets? && (e.reset.PowerCycle? || (!control.resetting && !e.reset.EngineOnly?))
    }

    /** The events that stop a running engine. */
    predicate StopsEngine(e: Event)
      reads this
    {
      && engine.active
      && (|| (e.Signals? && e.signal.EngineTimer? && timers.engine)
          || (e.IsMessage() && 0 < e.signal.size && bridge.controlReceived + e.signal.size == MESSAGE_BYTES)
          || (e.Resets? && e.reset.EngineOnly?))
    }

    /** A depth is written where it does not fit. */
    predicate Misfits(e: Event)
      reads this
    {
      && e.Sets?
      && (|| (e.setup.SubmissionDepth? && !RefusesSqDepth(e.setup.depth) && !SqFits(e.setup.depth))
          || (e.setup.CompletionDepth? && !RefusesCqDepth(e.setup.depth) && !CqFits(e.setup.depth)))
    }

    /** Timers fire only while armed, and the firmware sends no more than it was asked for. */
    method HandleSignal(s: Signal)
      requires Valid()
      modifies this, host
      ensures Valid() && faithful == (old(faithful) && !old(Misleads(Signals(s))))
      ensures if old(StopsEngine(Signals(s)))
              then !Stalled() <==>
                     !bridge.inflight && if cq.lost > old(cq).lost then old(Leaves(true)) else old(Leaves(false))
              else old(Stalled()) ==> Settled()
    {
      match s
      case EngineTimer(connected) =>
        if timers.engine {
          EngineComplete(connected);
        }
      case AckTimer(connected) =>
        if timers.ack {
          AckTimeout(connected);
        }
      case ResetTimer =>
        if timers.reset {
          ResetComplete();
        }
      case Message(size, message, nowNs, stamp, connected) =>
        if 0 < size <= CanReceive() {
          BridgeReceive(size, message, nowNs, stamp, connected);
        }
      case Closed(stamp, connected) => BridgeClosed(stamp, connected);
    }

    method HandleReset(r: Reset)
      requires Valid()
      modifies this
      ensures Valid() && faithful == (old(faithful) || old(StartsAfresh(Resets(r))))
      ensures if old(StopsEngine(Resets(r)))
              then !Stalled() <==>
                     !bridge.inflight && if cq.lost > old(cq).lost then old(Leaves(true)) else old(Leaves(false))
              else old(Stalled()) ==> Settled()
    {
      match r
      case PowerCycle => MachineReset();
      case WholeDevice(stamp, connected) => RequestDeviceReset(stamp, connected);
      case Queues(stamp, connected) =>
        if control.resetting {
          SetError({BadConfig});
        } else {
          QueueReset(stamp, connected);
        }
      case EngineOnly(stamp, connected) => EngineReset(stamp, connected);
    }

    /** Writes to memory, and writes after which the endpoint looks at its submission queue. */
    method HandlePost(p: Post)
      requires Valid()
      modifies this
      ensures Valid() && faithful == old(faithful) && (old(Stalled()) ==> Settled())
    {
      match p
      case HostStores(index, d) =>
        if index < Ring.MAX_DEPTH {
          HostStore(index, d);
        }
      case SubmissionDoorbell(value, connected) => var legal := SqDoorbell(value, connected);
      case CompletionDoorbell(value, connected) => var legal := CqDoorbell(value, connected);
      case StartStop(enable, quiesce, connected) => DeviceControl(enable, quiesce, connected);
    }

    /** Writes that set up a queue. */
    method HandleSetup(w: Setup)
      requires Valid()
      modifies this
      ensures (Valid() <==> !old(Misfits(Sets(w)))) && faithful == old(faithful) && (old(Stalled()) ==> Stalled())
    {
      match w
      case BaseLow(submission, half) => SetBaseLow(submission, half);
      case BaseHigh(submission, half) => SetBaseHigh(submission, half);
      case SubmissionDepth(depth) => SqDepth(depth);
      case CompletionDepth(depth) => CqDepth(depth);
      case Watermarks(high, low) => CqWatermark(high, low);
    }

    /** The other register writes. */
    method HandleWrite(w: Write)
      requires Valid()
      modifies this
      ensures Valid() && faithful == old(faithful)
      ensures if w == BusMaster(true) then !Stalled() <==> old(WaitsForBus()) else old(Stalled()) ==> Stalled()
    {
      match w
      case SqSwitch(on) => var ok := SqControl(on);
      case CqSwitch(on) => var ok := CqControl(on);
      case InterruptStatus => ClearInterrupt();
      case InterruptForce => ForceInterrupt();
      case ErrorStatus(cleared) => ClearErrors(cleared);
      case BusMaster(on) => SetBusMaster(on);
    }

    /**
     Any event, with everything the environment decides.
     The invariant is kept exactly unless a depth is written where it does not fit.
     The order stays on record unless an answer misnames its command.
     A descriptor that becomes fetchable is fetched, unless a transfer fails, with two exact exceptions:
     an engine that stops leaves waiting what `Leaves` tells, and bus mastering switched on what only waited for it.
     */
    method Handle(e: Event)
      requires Valid()
      modifies this, host
      ensures Valid() <==> !old(Misfits(e))
      ensures faithful == ((old(faithful) && !old(Misleads(e))) || old(StartsAfresh(e)))
      ensures if old(StopsEngine(e))
              then !Stalled() <==>
                     !bridge.inflight && if cq.lost > old(cq).lost then old(Leaves(true)) else old(Leaves(false))
              else if e == Writes(BusMaster(true)) then !Stalled() <==> old(WaitsForBus())
              else old(Stalled()) ==> Settled()
    {
      match e
      case Signals(signal) => HandleSignal(signal);
      case Resets(reset) => HandleReset(reset);
      case Posts(post) => HandlePost(post);
      case Sets(setup) => HandleSetup(setup);
      case Writes(write) => HandleWrite(write);
    }

    /**
     Every run from power-on keeps the invariant, up to the first depth that is written where it does
     not fit: no assertion of the source can fire and nothing disappears; and on the direct path, with no
     bridge message and no failed write, the k-th completion written answers the k-th descriptor fetched.
     */
    method Run(events: seq<Event>) returns (handled: nat)
      requires Valid()
      modifies this, host
      ensures handled <= |events| && (handled < |events| ==> Misfits(events[handled]))
      ensures Valid()
      ensures CheckInvariants()
      ensures |sq.fetched| == |cq.written| + cq.lost + (if Outstanding(bridge, engine) then 1 else 0)
      ensures Outstanding(bridge, engine) ==> cq.HasRoom()
      ensures faithful && cq.lost == 0 ==> Answered(sq.fetched, cq.written)
      ensures old(faithful) && NoMessage(events) ==> faithful && (cq.lost == 0 ==> Answered(sq.fetched, cq.written))
    {
      handled := 0;
      while handled < |events| && !Misfits(events[handled])
        invariant handled <= |events| && Valid()
        invariant old(faithful) && NoMessage(events) ==> faithful
      {
        Handle(events[handled]);
        handled := handled + 1;
      }
    }
  }

  // ---------------------------------------------------------------- events, with what the environment contributes

  datatype Signal =
    | EngineTimer(connected: bool)
    | AckTimer(connected: bool)
    | ResetTimer
    | Message(size: nat, message: Completion, nowNs: nat, stamp: u64, connected: bool)
    | Closed(stamp: u64, connected: bool)

  datatype Reset =
    | PowerCycle
    | WholeDevice(stamp: u64, connected: bool)
    | Queues(stamp: u64, connected: bool)
    | EngineOnly(stamp: u64, connected: bool)

  datatype Post =
    | HostStores(index: nat, d: Submission)
    | SubmissionDoorbell(value: u32, connected: bool)
    | CompletionDoorbell(value: u32, connected: bool)
    | StartStop(enable: bool, quiesce: bool, connected: bool)

  datatype Setup =
    | BaseLow(submission: bool, half: u32)
    | BaseHigh(submission: bool, half: u32)
    | SubmissionDepth(depth: u32)
    | CompletionDepth(depth: u32)
    | Watermarks(high: nat, low: nat)

  datatype Write =
    | SqSwitch(on: bool)
    | CqSwitch(on: bool)
    | InterruptStatus
    | InterruptForce
    | ErrorStatus(cleared: set<DeviceError>)
    | BusMaster(on: bool)

  datatype Event =
    | Signals(signal: Signal)
    | Resets(reset: Reset)
    | Posts(post: Post)
    | Sets(setup: Setup)
    | Writes(write: Write)
  {
    predicate IsMessage() { Signals? && signal.Message? }
  }

  predicate NoMessage(events: seq<Event>) { forall e :: e in events ==> !e.IsMessage() }

  lemma SmallDepths()
    ensures Ring.ValidDepth(16) && Ring.ValidDepth(32)
  {
    assert Ring.PowerOfTwo(2) && Ring.PowerOfTwo(4) && Ring.PowerOfTwo(8);
  }

  // ---------------------------------------------------------------- the driver's set-up sequence

  datatype Marks = Marks(high: nat, low: nat)

  /** Ring addresses and watermarks the endpoint takes. */
  predicate Suitable(depth: nat, sqDma: u64, cqDma: u64, marks: Option<Marks>) {
    && Ring.ValidDepth(depth) && sqDma != 0 && cqDma != 0 && sqDma % 64 == 0 && cqDma % 64 == 0
    && (marks.Some? ==> marks.value.low < marks.value.high < depth)
  }

  lemma HalvesMakeWhole(dma: u64)
    ensures dma / TWO32 < TWO32 && dma / TWO32 * TWO32 + dma % TWO32 == dma
  {
  }

  /** The endpoint fresh from power-on, with a base written in two halves. */
  method WriteBase(d: Device, submission: bool, dma: u64)
    requires d.Valid() && !d.control.resetting && !d.Running(submission) && dma % 64 == 0 && d.cq.head == d.cq.tail
    modifies d`sq, d`cq, d`errors, d`sqBaseLo, d`cqBaseLo
    ensures d.Valid() && d.cq.moved == old(d.cq).moved
    ensures d.sq == if submission then old(d.sq).(base := dma, memory := d.sq.memory, stream := d.sq.stream)
                    else old(d.sq)
    ensures d.cq == if submission then old(d.cq) else old(d.cq).(base := dma, memory := d.cq.memory)
  {
    HalvesMakeWhole(dma);
    d.SetBaseLow(submission, dma % TWO32);
    d.SetBaseHigh(submission, dma / TWO32);
  }

  function Marked(q: CompletionQueue, marks: Option<Marks>): CompletionQueue {
    if marks.Some? then q.(high := marks.value.high, low := marks.value.low) else q
  }

  method LayCompletions(host: Payload.Engine, depth: nat, dma: u64, marks: Option<Marks>) returns (d: Device)
    requires Suitable(depth, dma, dma, marks)
    ensures fresh(d) && d.host == host && d.Valid() && d.faithful
    ensures d.cq == Marked(NoCompletions(d.cq.memory).(base := dma, depth := depth), marks)
    ensures d.sq == NoSubmissions(d.sq.memory)
    ensures d.control == Control(true, false, false, false, false, false) && d.bridge == IDLE_BRIDGE
    ensures !d.busMaster && !d.engine.active
  {
    d := new Device(host);
    WriteBase(d, false, dma);
    d.CqDepth(depth);
    if marks.Some? {
      d.CqWatermark(marks.value.high, marks.value.low);
    }
  }

  method LaySubmissions(d: Device, depth: nat, dma: u64)
    requires d.Valid() && d.sq == NoSubmissions(d.sq.memory) && !d.control.resetting && d.cq.head == d.cq.tail
    requires Ring.ValidDepth(depth) && dma % 64 == 0
    modifies d`sq, d`cq, d`errors, d`sqBaseLo, d`cqBaseLo
    ensures d.Valid() && d.cq == old(d.cq) && d.sq == NoSubmissions(d.sq.memory).(base := dma, depth := depth)
  {
    WriteBase(d, true, dma);
    d.SqDepth(depth);
  }

  /** Both rings laid and running, and bus mastering on. */
  method Laid(host: Payload.Engine, depth: nat, sqDma: u64, cqDma: u64, marks: Option<Marks>) returns (d: Device)
    requires Suitable(depth, sqDma, cqDma, marks)
    ensures fresh(d) && d.host == host && d.Valid() && d.faithful
    ensures d.sq == NoSubmissions(d.sq.memory).(base := sqDma, depth := depth, enabled := true)
    ensures var q := Marked(NoCompletions(d.cq.memory).(base := cqDma, depth := depth), marks);
            d.cq == q.(enabled := true, high := d.cq.high, low := d.cq.low, throttled := d.cq.throttled)
    ensures d.control == Control(true, true, false, false, false, false) && d.bridge == IDLE_BRIDGE
    ensures d.busMaster && !d.engine.active
  {
    d := LayCompletions(host, depth, cqDma, marks);
    LaySubmissions(d, depth, sqDma);
    SwitchOn(d);
  }

  method SwitchOn(d: Device)
    requires d.Valid() && d.control == Control(true, false, false, false, false, false)
    requires d.sq.base != 0 && d.sq.depth != 0 && d.cq.base != 0 && d.cq.depth != 0
    modifies d`sq, d`cq, d`control, d`errors, d`busMaster
    ensures d.Valid() && d.busMaster && d.control == Control(true, true, false, false, false, false)
    ensures d.sq == old(d.sq).(enabled := true)
    ensures d.cq == old(d.cq).(enabled := true, high := d.cq.high, low := d.cq.low, throttled := d.cq.throttled)
  {
    var on := d.CqControl(true);
    on := d.SqControl(true);
    d.SetBusMaster(true);
  }

  /** ... and started, with nothing announced. */
  method Started(host: Payload.Engine, depth: nat, sqDma: u64, cqDma: u64, marks: Option<Marks>) returns (d: Device)
    requires Suitable(depth, sqDma, cqDma, marks)
    ensures fresh(d) && d.host == host && d.Valid() && d.faithful && d.busMaster
    ensures d.sq == NoSubmissions(d.sq.memory).(base := sqDma, depth := depth, enabled := true)
    ensures var q := Marked(NoCompletions(d.cq.memory).(base := cqDma, depth := depth), marks);
            d.cq == q.(enabled := true, high := d.cq.high, low := d.cq.low, throttled := d.cq.throttled)
    ensures d.control == Control(true, true, false, false, true, false) && d.bridge == IDLE_BRIDGE && !d.engine.active
  {
    d := Laid(host, depth, sqDma, cqDma, marks);
    d.DeviceControl(true, false, false);
  }

  // ---------------------------------------------------------------- two things that can happen

  /** Without the rule for depths: sixteen entries announced, the queue stopped, and the ring made too small. */
  method DepthRewriteBreaksTheCheck(host: Payload.Engine) returns (d: Device)
    ensures !d.CheckInvariants()
  {
    SmallDepths();
    d := Laid(host, 32, 64, 64, None);
    var legal := d.SqDoorbell(16, false);
    assert legal && d.sq.tail == 16;
    var off := d.SqControl(false);
    d.SqDepth(16);
  }

  /**
   Fetchable descriptors left waiting, with no error raised, on any idle device that runs: bus
   mastering is switched off, a descriptor announced, and bus mastering switched on again.
   */
  method LeaveWaiting(d: Device)
    requires d.Valid() && d.control.enable && !d.control.quiesce && !d.control.resetting && d.Free()
    requires d.sq.head == d.sq.tail && d.cq.HasRoom() && !d.cq.throttled
    modifies d
    ensures d.Valid() && !d.Stalled() && d.sq.error == old(d.sq).error && d.cq.error == old(d.cq).error
  {
    var next := Ring.Advance(d.sq.tail, d.sq.depth);
    d.SetBusMaster(false);
    var legal := d.SqDoorbell(next, false);
    assert legal;
    d.SetBusMaster(true);
  }

  method DescriptorIsLeftWaiting(host: Payload.Engine) returns (d: Device)
    ensures d.Valid() && !d.Stalled() && !d.sq.error && !d.cq.error
  {
    SmallDepths();
    d := Started(host, 32, 64, 64, None);
    LeaveWaiting(d);
  }
}
