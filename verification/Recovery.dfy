/**
 The firmware's loops on one command object, updated in place and in real time: waiting for the
 portal, dispatch, recovery, publication, and a command's whole way from the portal and back.
 Only time and the portal's answers are unknown; a sleep lasts at least as long as asked.
 */
module Recovery {
  import opened Abi
  import opened Scheduler
  import opened Validation

  const SERVICE_POLL_MS := 100
  const ABORT_ACK_TIMEOUT_MS := 100
  const PUBLISH_TIMEOUT_MS := 100

  class Station {
    var now: nat
    /** The timeouts asked of the result register since the last abort request, if one was sent. */
    ghost var graceWaits: seq<nat>
    ghost var abortedAt: Option<nat>

    constructor ()
      ensures abortedAt == None && graceWaits == []
    {
      now := 0;
      graceWaits, abortedAt := [], None;
    }

    method Elapse(atLeast: nat)
      modifies this`now
      ensures now >= old(now) + atLeast
    {
      var more: nat :| more >= 0;
      now := now + atLeast + more;
    }

    /** `vams_command_result_receive`: poll every millisecond until a result or the timeout. */
    method ReceiveResult(timeout: nat) returns (result: Option<Completion>)
      modifies this`now, this`graceWaits
      ensures now >= old(now)
      ensures result == None ==> now >= old(now) + timeout
      ensures graceWaits == old(graceWaits) + [timeout]
    {
      graceWaits := graceWaits + [timeout];
      var deadline := now + timeout;
      var pending: bool := *;
      while !pending
        invariant now >= old(now) && graceWaits == old(graceWaits) + [timeout]
        decreases if pending then 0 else 1, if now < deadline then deadline - now else 0
      {
        if now >= deadline {
          return None;
        }
        Elapse(1);
        pending := *;
      }
      var received: Completion := *;
      Elapse(0);
      return Some(received);
    }

    /** `vams_publish_portal_completion`: retry every millisecond while the portal is busy, for at most 100 ms. */
    method PublishCompletion() returns (published: bool)
      modifies this`now
      ensures now >= old(now)
      ensures !published ==> now >= old(now) + 100
    {
      var deadline := now + PUBLISH_TIMEOUT_MS;
      var busy: bool := *;
      while busy
        invariant now >= old(now)
        decreases if busy then 1 else 0, if now < deadline then deadline - now else 0
      {
        if now >= deadline {
          return false;
        }
        Elapse(1);
        busy := *;
      }
      return true;
    }

    /** The wait for a result: polls of at most 100 ms until one arrives or the deadline passes. */
    method AwaitResult(deadline: nat) returns (result: Option<Completion>)
      modifies this`now, this`graceWaits
      ensures now >= old(now)
      ensures result == None ==> now >= deadline
      ensures |graceWaits| > |old(graceWaits)| && old(graceWaits) <= graceWaits
      ensures forall w :: w in graceWaits[|old(graceWaits)|..] ==> w <= 100
    {
      var again := true;
      result := None;
      while again
        invariant now >= old(now) && old(graceWaits) <= graceWaits
        invariant again || |graceWaits| > |old(graceWaits)|
        invariant forall w :: w in graceWaits[|old(graceWaits)|..] ==> w <= 100
        invariant !again && result == None ==> now >= deadline
        decreases again, if now < deadline then deadline - now else 0
      {
        var remaining := if deadline > now then deadline - now else 0;
        var poll := if remaining < SERVICE_POLL_MS then remaining else SERVICE_POLL_MS;
        ghost var before := graceWaits;
        result := ReceiveResult(poll);
        assert graceWaits[|old(graceWaits)|..] == before[|old(graceWaits)|..] + [poll];
        again := result == None && now < deadline;
      }
    }

    /**
     The recovery manager on one running command. It ends, for every portal behaviour, with the
     command settled; an abort is requested only after the deadline and is followed by at most one
     wait, of at most 100 ms.
     */
    method Recover(command: CommandObject) returns (result: Option<Completion>)
      requires command.state == Running
      modifies this, command
      ensures now >= old(now)
      ensures SameCapture(old(command.Contents()), command.Contents())
      ensures Terminal(command.state)
      ensures old(Answers(command.completion, command.submission)) ==> Settled(command.Contents())
      // a result that names this command settles it
      ensures result.Some? && Answers(result.value, command.submission) ==>
                && command.completion == result.value
                && (command.state == Completed <==> result.value.status == STATUS_SUCCESS)
      // anything else escalates it
      ensures !(result.Some? && Answers(result.value, command.submission)) ==>
                && command.state == CompletedError
                && command.completion.status == STATUS_FAILED && command.completion.errorCode == ERR_ENGINE
                && command.completion.bytesProcessed == 0
                && command.completion.commandId == old(command.completion.commandId)
                && command.completion.cookie == old(command.completion.cookie)
      // no abort before the deadline, none without need, and one bounded wait after it
      ensures abortedAt.Some? ==> command.deadline <= abortedAt.value <= now
      ensures result == None ==> abortedAt.Some?
      ensures abortedAt.Some? ==> |graceWaits| <= 1 && forall w :: w in graceWaits ==> w <= 100
    {
      abortedAt := None;
      result := AwaitResult(command.deadline);
      if result == None {
        command.DoBeginAbort(now);
        abortedAt, graceWaits := Some(now), [];
        var accepted: bool := *;
        if accepted {
          result := ReceiveResult(ABORT_ACK_TIMEOUT_MS);
        } else {
          result := ReceiveResult(0);
        }
        if result == None {
          command.DoEscalate(now);
          return;
        }
      }
      var matched := command.ApplyResult(result.value);
      if !matched {
        command.DoEscalate(now);
      }
    }

    /**
     The scheduler on one selected command. A payload goes to the engine only after a clock reading
     before its deadline, and waits there with its capture and verdict untouched; anything else ends here.
     */
    method Dispatch(command: CommandObject, current: u32) returns (goes: Dispatched)
      requires command.state == Queued && Accepted(command.Contents())
      modifies this`now, command
      ensures now >= old(now) && SameCapture(old(command.Contents()), command.Contents())
      ensures goes.Ends? ==> Settled(command.Contents())
      ensures goes.Ends? && command.state == Completed ==>
                !IsPayload(command.submission.opcode) && command.completion == old(command.completion)
      ensures goes.Ends? && command.state == CompletedError ==>
                && command.deadline <= now
                && command.completion.status == STATUS_TIMED_OUT && command.completion.errorCode == ERR_TIMEOUT
      ensures command.state == Cancelled <==> command.generation != current
      ensures !goes.Ends? ==>
                && command.state == Running && IsPayload(command.submission.opcode)
                && command.completion == old(command.completion)
      ensures goes.ToEngine? ==> goes.checkedAt < command.deadline
    {
      if command.generation != current {
        command.DoCancel(now);
        return Ends;
      }
      var checked := now;
      if checked >= command.deadline {
        command.DoTransition(Queued, Aborting);
        Elapse(0);
        command.DoTimeOut(now);
        return Ends;
      }
      command.DoTransition(Queued, Running);
      if !IsPayload(command.submission.opcode) {
        command.DoTransition(Running, Completed);
        return Ends;
      }
      var sent := PublishCompletion();
      return if sent then ToEngine(checked) else Stalls;
    }

    /** The completion loop on one command: its completion goes out once, and then the object is zeroed. */
    method Deliver(command: CommandObject) returns (published: Option<Completion>)
      requires Settled(command.Contents()) && command.publications == 0
      modifies this`now, command
      ensures now >= old(now)
      ensures published.Some? ==> published.value == old(command.completion) && command.Contents() == CLEARED
      ensures published.None? ==> command.Contents() == old(command.Contents()) && now >= old(now) + 100
    {
      var outcome := command.state;
      var sent := PublishCompletion();
      if !sent {
        return None;
      }
      published := Some(command.completion);
      command.DoMarkPublished();
      command.DoTransition(outcome, Free);
      command.Clear();
    }

    /** The receiver and the validator on one descriptor: queued if acceptable, refused with the first broken rule. */
    method Admit(command: CommandObject, d: Submission, generation: u32, sequence: u32)
      requires command.Contents() == CLEARED
      modifies this`now, command
      ensures now >= old(now) && command.publications == 0 && command.submission == d
      ensures command.generation == generation && command.deadline == old(now) + TimeoutOf(d)
      ensures if Acceptable(d) then command.state == Queued && Accepted(command.Contents())
              else && command.state == CompletedError && Settled(command.Contents())
                   && command.completion.status == STATUS_INVALID && Reports(d, command.completion.errorCode)
    {
      command.submission := d;
      command.DoCapture(generation, sequence, now);
      Elapse(0);
      ValidateOutcome(command.Contents(), now);
      FirmwareReports(d);
      command.DoValidate(now);
    }

    /**
     A descriptor's whole way through the five loops in one zeroed object, for every behaviour of the
     portal that does not stall it: one completion, under the descriptor's identity; INVALID with the
     first broken rule's code and no authorization for a descriptor that is not acceptable; a payload
     succeeds only if it was authorized before its deadline; and the object ends zeroed.
     */
    method Serve(command: CommandObject, d: Submission, generation: u32, sequence: u32)
      returns (published: Option<Completion>, authorizedAt: Option<nat>)
      requires command.Contents() == CLEARED
      modifies this, command
      ensures now >= old(now)
      ensures published.Some? ==> Answers(published.value, d) && command.Contents() == CLEARED
      ensures published.Some? && !Acceptable(d) ==>
                published.value.status == STATUS_INVALID && Reports(d, published.value.errorCode)
      ensures authorizedAt.Some? ==>
                Acceptable(d) && IsPayload(d.opcode) && authorizedAt.value < old(now) + TimeoutOf(d)
      ensures published.Some? && Acceptable(d) && !IsPayload(d.opcode) ==>
                || published.value.status == STATUS_SUCCESS
                || (published.value.status == STATUS_TIMED_OUT && now >= old(now) + TimeoutOf(d))
      ensures published.Some? && IsPayload(d.opcode) && published.value.status == STATUS_SUCCESS ==> authorizedAt.Some?
    {
      authorizedAt := None;
      Admit(command, d, generation, sequence);
      if command.state == Queued {
        Elapse(0);
        var goes := Dispatch(command, generation);
        if goes.Stalls? {
          return None, None;
        }
        if goes.ToEngine? {
          authorizedAt := Some(goes.checkedAt);
          var result := Recover(command);
        }
      }
      published := Deliver(command);
    }
  }

  /** Where dispatch leaves a command: ended, with the engine, or held up by the portal. */
  datatype Dispatched = Ends | ToEngine(checkedAt: nat) | Stalls
}
