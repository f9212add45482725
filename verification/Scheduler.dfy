/**
 The firmware's command object and its lifecycle operations, and the earliest-deadline
 selection. Every `requires` of an operation is an assertion the source makes at that point.
 */
module Scheduler {
  import opened Abi
  import opened Validation

  datatype CommandState =
    | Free | Submitted | Validating | Queued | Running | Aborting
    | Completed | CompletedError | Cancelled

  /** The contents of one slab object. Times are milliseconds since boot. */
  datatype Command = Command(
    submission: Submission,
    completion: Completion,
    capturedAt: nat,
    deadline: nat,
    generation: u32,
    sequence: u32,
    state: CommandState,
    publications: nat)

  const CLEARED := Command(ZERO_SUBMISSION, ZERO_COMPLETION, 0, 0, 0, 0, Free, 0)

  predicate Terminal(state: CommandState) {
    state == Completed || state == CompletedError || state == Cancelled
  }

  // ---------------------------------------------------------------- operations on contents

  function Transition(c: Command, expected: CommandState, next: CommandState): Command
    requires c.state == expected
  {
    c.(state := next)
  }

  function TimeoutOf(d: Submission): (ms: u32)
    ensures ms == if d.timeoutMs == 0 then 30000 else d.timeoutMs
  {
    if d.timeoutMs == 0 then DEFAULT_TIMEOUT_MS else d.timeoutMs
  }

  function Capture(c: Command, generation: u32, sequence: u32, now: nat): Command
    requires c.state == Free
  {
    Transition(c.(generation := generation, sequence := sequence, capturedAt := now,
                  deadline := now + TimeoutOf(c.submission), publications := 0),
               Free, Submitted)
  }

  predicate Expired(c: Command, now: nat) { now >= c.deadline }

  /** `vams_command_execute`: the completion the validator stores. */
  function Verdict(d: Submission, now: nat): Completion {
    var error := FirmwareValidate(d);
    ZERO_COMPLETION.(commandId := d.commandId, cookie := d.cookie, errorCode := error,
                     status := if error == ERR_NONE then STATUS_SUCCESS else STATUS_INVALID,
                     timestamp := Wrap64(now))
  }

  /** Status, error and timestamp replaced, progress cleared; identity kept. */
  function Fail(c: Completion, status: u16, error: u16, now: nat): Completion {
    c.(status := status, errorCode := error, bytesProcessed := 0, resultCrc := ZERO, timestamp := Wrap64(now))
  }

  function Validate(c: Command, now: nat): Command
    requires c.state == Submitted
  {
    var v := Transition(c, Submitted, Validating).(completion := Verdict(c.submission, now));
    if v.completion.status != STATUS_SUCCESS then Transition(v, Validating, CompletedError)
    else Transition(v, Validating, Queued)
  }

  function TimeOut(c: Command, now: nat): Command
    requires c.state == Aborting
  {
    Transition(c.(completion := Fail(c.completion, STATUS_TIMED_OUT, ERR_TIMEOUT, now)), Aborting, CompletedError)
  }

  function Cancel(c: Command, now: nat): Command
    requires c.state == Queued
  {
    Transition(c.(completion := Fail(c.completion, STATUS_RESET, ERR_RESET, now)), Queued, Cancelled)
  }

  function BeginAbort(c: Command, now: nat): Command
    requires c.state == Running
  {
    Transition(c.(completion := Fail(c.completion, STATUS_TIMED_OUT, ERR_TIMEOUT, now)), Running, Aborting)
  }

  function Escalate(c: Command, now: nat): Command
    requires c.state == Running || c.state == Aborting
  {
    Transition(c.(completion := Fail(c.completion, STATUS_FAILED, ERR_ENGINE, now)), c.state, CompletedError)
  }

  function Apply(c: Command, result: Completion): Command
    requires (c.state == Running || c.state == Aborting) && Answers(result, c.submission)
  {
    Transition(c.(completion := result), c.state,
               if result.status == STATUS_SUCCESS then Completed else CompletedError)
  }

  /** `vams_scheduler_apply_result` with the recovery manager's answer to a mismatch. */
  function Settle(c: Command, result: Completion, now: nat): Command
    requires c.state == Running || c.state == Aborting
  {
    if Answers(result, c.submission) then Apply(c, result) else Escalate(c, now)
  }

  function MarkPublished(c: Command): Command
    requires Terminal(c.state) && c.publications == 0
  {
    c.(publications := 1)
  }

  // ---------------------------------------------------------------- what the operations keep

  /** The completion names its own command and its status agrees with the state. */
  ghost predicate Settled(c: Command) {
    && Terminal(c.state)
    && Answers(c.completion, c.submission)
    && (c.state == Completed <==> c.completion.status == STATUS_SUCCESS)
    && (c.state == Cancelled ==> c.completion.status == STATUS_RESET && c.completion.errorCode == ERR_RESET)
  }

  /** Validated work: accepted descriptor, success verdict with no progress, and the deadline asked for or 30 s. */
  ghost predicate Accepted(c: Command) {
    && Acceptable(c.submission)
    && Answers(c.completion, c.submission)
    && c.completion.status == STATUS_SUCCESS && c.completion.errorCode == ERR_NONE
    && c.completion.bytesProcessed == 0 && c.completion.resultCrc == ZERO
    && c.deadline - c.capturedAt == (if c.submission.timeoutMs == 0 then 30000 else c.submission.timeoutMs)
    && 1 <= c.deadline - c.capturedAt <= 60000
  }

  /** The same command: nothing its capture recorded has changed. */
  ghost predicate SameCapture(c: Command, d: Command) {
    && d.submission == c.submission && d.generation == c.generation && d.sequence == c.sequence
    && d.capturedAt == c.capturedAt && d.deadline == c.deadline && d.publications == c.publications
  }

  lemma ValidateOutcome(c: Command, now: nat)
    requires c.state == Submitted && c.deadline == c.capturedAt + TimeoutOf(c.submission)
    ensures var v := Validate(c, now);
            && v.completion.timestamp == now % 0x1_0000_0000_0000_0000
            && if Acceptable(c.submission) then v.state == Queued && Accepted(v)
            else && v.state == CompletedError && Settled(v) && v.completion.status == STATUS_INVALID
                 && Reports(c.submission, v.completion.errorCode) && v.completion.bytesProcessed == 0
  {
    FirmwareReports(c.submission);
    assert Acceptable(c.submission) ==> !Broken(c.submission, Rule.Timeout);
  }

  // ---------------------------------------------------------------- the object, updated in place
  // Each operation changes the object as the function of the step system says; `Recovery` runs them.

  class CommandObject {
    var submission: Submission
    var completion: Completion
    var capturedAt: nat
    var deadline: nat
    var generation: u32
    var sequence: u32
    var state: CommandState
    var publications: nat

    ghost function Contents(): Command
      reads this
    {
      Command(submission, completion, capturedAt, deadline, generation, sequence, state, publications)
    }

    constructor ()
      ensures Contents() == CLEARED
    {
      submission, completion := ZERO_SUBMISSION, ZERO_COMPLETION;
      capturedAt, deadline, generation, sequence, state, publications := 0, 0, 0, 0, Free, 0;
    }

    method DoTransition(expected: CommandState, next: CommandState)
      requires state == expected
      modifies this`state
      ensures Contents() == Transition(old(Contents()), expected, next)
    {
      state := next;
    }

    method DoCapture(generation: u32, sequence: u32, now: nat)
      requires state == Free
      modifies this
      ensures Contents() == Capture(old(Contents()), generation, sequence, now)
    {
      var timeout := submission.timeoutMs;
      if timeout == 0 {
        timeout := DEFAULT_TIMEOUT_MS;
      }
      this.generation := generation;
      this.sequence := sequence;
      capturedAt := now;
      deadline := now + timeout;
      publications := 0;
      DoTransition(Free, Submitted);
    }

    method DoValidate(now: nat)
      requires state == Submitted
      modifies this
      ensures Contents() == Validate(old(Contents()), now)
    {
      DoTransition(Submitted, Validating);
      completion := Verdict(submission, now);
      if completion.status != STATUS_SUCCESS {
        DoTransition(Validating, CompletedError);
      } else {
        DoTransition(Validating, Queued);
      }
    }

    method SetFailure(status: u16, error: u16, now: nat)
      modifies this`completion
      ensures completion == Fail(old(completion), status, error, now)
    {
      completion := completion.(status := status);
      completion := completion.(errorCode := error);
      completion := completion.(bytesProcessed := 0);
      completion := completion.(resultCrc := ZERO);
      completion := completion.(timestamp := Wrap64(now));
    }

    method DoTimeOut(now: nat)
      requires state == Aborting
      modifies this
      ensures Contents() == TimeOut(old(Contents()), now)
    {
      SetFailure(STATUS_TIMED_OUT, ERR_TIMEOUT, now);
      DoTransition(Aborting, CompletedError);
    }

    method DoCancel(now: nat)
      requires state == Queued
      modifies this
      ensures Contents() == Cancel(old(Contents()), now)
    {
      SetFailure(STATUS_RESET, ERR_RESET, now);
      DoTransition(Queued, Cancelled);
    }

    method DoBeginAbort(now: nat)
      requires state == Running
      modifies this
      ensures Contents() == BeginAbort(old(Contents()), now)
    {
      SetFailure(STATUS_TIMED_OUT, ERR_TIMEOUT, now);
      DoTransition(Running, Aborting);
    }

    method DoEscalate(now: nat)
      requires state == Running || state == Aborting
      modifies this
      ensures Contents() == Escalate(old(Contents()), now)
    {
      SetFailure(STATUS_FAILED, ERR_ENGINE, now);
      DoTransition(state, CompletedError);
    }

    /** `vams_scheduler_apply_result`; `ok` is false for the source's -EPROTO. */
    method ApplyResult(result: Completion) returns (ok: bool)
      requires state == Running || state == Aborting
      modifies this
      ensures ok <==> Answers(result, old(submission))
      ensures ok ==> Contents() == Apply(old(Contents()), result)
      ensures !ok ==> Contents() == old(Contents())
    {
      if result.commandId != submission.commandId || result.cookie != submission.cookie {
        return false;
      }
      completion := result;
      var current := state;
      DoTransition(current, if result.status == STATUS_SUCCESS then Completed else CompletedError);
      return true;
    }

    method DoMarkPublished()
      requires Terminal(state)
      requires publications == 0
      modifies this`publications
      ensures Contents() == MarkPublished(old(Contents()))
    {
      publications := 1;
    }

    /** The object as the slab gets it back: zeroed. */
    method Clear()
      modifies this
      ensures Contents() == CLEARED
    {
      submission, completion := ZERO_SUBMISSION, ZERO_COMPLETION;
      capturedAt, deadline, generation, sequence, state, publications := 0, 0, 0, 0, Free, 0;
    }
  }

  // ---------------------------------------------------------------- earliest deadline first

  /** `vams_scheduler_precedes`. */
  predicate Precedes(a: Command, b: Command) {
    a.deadline < b.deadline || (a.deadline == b.deadline && a.sequence < b.sequence)
  }

  /** `i` is a position no other command of `batch` precedes. */
  ghost predicate IsFirst(batch: seq<Command>, i: nat) {
    i < |batch| && forall j :: 0 <= j < |batch| ==> !Precedes(batch[j], batch[i])
  }

  /** `vams_scheduler_select`: one pass that keeps the earlier of each pair. */
  method Select(batch: seq<Command>) returns (selected: nat)
    requires |batch| > 0
    ensures IsFirst(batch, selected)
    ensures forall j :: 0 <= j < selected ==> Precedes(batch[selected], batch[j])
  {
    selected := 0;
    var index := 1;
    while index < |batch|
      invariant 1 <= index <= |batch| && selected < index
      invariant forall j :: 0 <= j < index ==> !Precedes(batch[j], batch[selected])
      invariant forall j :: 0 <= j < selected ==> Precedes(batch[selected], batch[j])
    {
      if Precedes(batch[index], batch[selected]) {
        selected := index;
      }
      index := index + 1;
    }
  }

  /** The last element takes the place of the one removed. */
  function SwapRemove<T>(s: seq<T>, i: nat): (r: seq<T>)
    requires i < |s|
    ensures |r| == |s| - 1
  {
    if i == |s| - 1 then s[..i] else s[..|s| - 1][i := s[|s| - 1]]
  }

  lemma SwapRemoveKeeps<T>(s: seq<T>, i: nat)
    requires i < |s|
    ensures multiset(SwapRemove(s, i)) + multiset{s[i]} == multiset(s)
  {
    var last := |s| - 1;
    assert s == s[..last] + [s[last]];
    if i < last {
      assert s[..last] == s[..i] + [s[i]] + s[i + 1..last];
      assert SwapRemove(s, i) == s[..i] + [s[last]] + s[i + 1..last];
    }
  }

  ghost predicate NonePrecedes(held: multiset<Command>, c: Command) {
    forall x :: x in held ==> !Precedes(x, c)
  }

  lemma FirstIsLeast(batch: seq<Command>, i: nat)
    requires IsFirst(batch, i)
    ensures NonePrecedes(multiset(batch), batch[i])
  {
  }

  /** One scheduler pass: take the selected command out of the ready array, edited in place. */
  method PickAndRemove(ready: array<Command>, count: nat) returns (command: Command, rest: nat)
    requires 0 < count <= ready.Length
    modifies ready
    ensures rest == count - 1
    ensures multiset(ready[..rest]) + multiset{command} == multiset(old(ready[..count]))
    ensures NonePrecedes(multiset(old(ready[..count])), command)
    ensures forall c :: c in multiset(old(ready[..count])) ==> command.deadline <= c.deadline
  {
    ghost var before := ready[..count];
    var selected := Select(ready[..count]);
    FirstIsLeast(before, selected);
    command := ready[selected];
    rest := count - 1;
    ready[selected] := ready[rest];
    assert ready[..rest] == SwapRemove(before, selected);
    SwapRemoveKeeps(before, selected);
  }

  ghost predicate Distinct(batch: seq<Command>) {
    forall i, j :: 0 <= i < j < |batch| ==> batch[i].sequence != batch[j].sequence
  }

  ghost predicate InOrder(batch: seq<Command>) {
    forall i, j :: 0 <= i < j < |batch| ==> !Precedes(batch[j], batch[i])
  }

  /** Nothing in `held` should have gone before any of `order`. */
  ghost predicate Behind(held: multiset<Command>, order: seq<Command>) {
    forall i :: 0 <= i < |order| ==> NonePrecedes(held, order[i])
  }

  lemma Dispatch(order: seq<Command>, held: multiset<Command>, rest: multiset<Command>, c: Command)
    requires InOrder(order) && Behind(held, order) && rest + multiset{c} == held && NonePrecedes(held, c)
    ensures InOrder(order + [c]) && Behind(rest, order + [c])
  {
  }

  /** Draining a closed ready array dispatches every command once, earliest deadline first. */
  method Drain(ready: array<Command>) returns (order: seq<Command>)
    modifies ready
    ensures multiset(order) == multiset(old(ready[..]))
    ensures InOrder(order) && forall i, j :: 0 <= i < j < |order| ==> order[i].deadline <= order[j].deadline
  {
    ghost var all := multiset(ready[..]);
    var count := ready.Length;
    order := [];
    assert ready[..count] == ready[..];
    while count > 0
      invariant count <= ready.Length
      invariant multiset(order) + multiset(ready[..count]) == all
      invariant InOrder(order) && Behind(multiset(ready[..count]), order)
    {
      ghost var held := multiset(ready[..count]);
      var command;
      command, count := PickAndRemove(ready, count);
      Dispatch(order, held, multiset(ready[..count]), command);
      order := order + [command];
    }
    assert ready[..0] == [];
  }

  /** The number the receiver gives the k-th capture of a boot (k from 0): it increments first. */
  function SequenceOf(k: nat): u32 { Wrap32(k + 1) }

  /** Ties follow capture order exactly when the 32-bit sequence did not wrap between the two captures. */
  lemma TieBreakExact(a: Command, b: Command, j: nat, k: nat)
    requires a.deadline == b.deadline
    requires a.sequence == SequenceOf(j) && b.sequence == SequenceOf(k) && j < k < j + TWO32
    ensures Precedes(a, b) <==> (j + 1) / TWO32 == (k + 1) / TWO32
  {
  }

  /** So within the first 2^32 - 1 captures the drained order among equal deadlines is capture order. */
  lemma DrainedTiesAreFifo(order: seq<Command>, x: nat, y: nat, j: nat, k: nat)
    requires InOrder(order) && x < |order| && y < |order| && order[x].deadline == order[y].deadline
    requires order[x].sequence == SequenceOf(j) && order[y].sequence == SequenceOf(k)
    requires j < k < TWO32 - 1
    ensures x < y
  {
  }

  lemma HeadIsLeast(s: seq<Command>)
    requires InOrder(s) && s != []
    ensures NonePrecedes(multiset(s), s[0])
  {
  }

  lemma SameHead(s: seq<Command>, t: seq<Command>)
    requires InOrder(s) && InOrder(t) && Distinct(s) && multiset(s) == multiset(t) && s != [] && t != []
    ensures s[0] == t[0]
  {
    HeadIsLeast(s);
    HeadIsLeast(t);
    assert t[0] in multiset(s) && s[0] in multiset(t);
    var i :| 0 <= i < |s| && s[i] == t[0];
    assert s[0].sequence == s[i].sequence;
  }

  lemma DropHead<T>(s: seq<T>)
    requires s != []
    ensures s == [s[0]] + s[1..] && multiset(s[1..]) == multiset(s) - multiset{s[0]}
  {
  }

  lemma TailInOrder(s: seq<Command>)
    requires InOrder(s) && s != []
    ensures InOrder(s[1..]) && (Distinct(s) ==> Distinct(s[1..]))
  {
  }

  /** Two in-order arrangements of the same distinct commands are the same arrangement. */
  lemma {:induction false} OrderIsUnique(s: seq<Command>, t: seq<Command>)
    requires InOrder(s) && InOrder(t) && Distinct(s) && multiset(s) == multiset(t)
    ensures s == t
    decreases |s|
  {
    assert |multiset(s)| == |s| && |multiset(t)| == |t|;
    if s != [] {
      SameHead(s, t);
      DropHead(s);
      DropHead(t);
      TailInOrder(s);
      TailInOrder(t);
      OrderIsUnique(s[1..], t[1..]);
    }
  }
}
