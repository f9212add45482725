/**
 What the endpoint's handlers keep, stated over its registers.
 */
module EndpointRules {
  import opened Abi
  import opened Validation
  import opened EndpointQueues
  import opened Windows
  import Ring

  const EXECUTION_NS := 20_000_000
  const MS := 1_000_000
  const MESSAGE_BYTES := 32

  datatype Control = Control(ready: bool, queuesReady: bool, busy: bool, resetting: bool, enable: bool, quiesce: bool)

  datatype Bridge = Bridge(inflight: bool, waitingFinal: bool, discard: bool, received: nat, controlReceived: nat)

  /** The engine and, for the current command, when its descriptor was read and when the engine was started. */
  datatype Engine = Engine(active: bool, deadlineNs: nat, finishNs: nat, generation: u32, epoch: u32,
                           readNs: nat, startedNs: nat)

  const IDLE_ENGINE := Engine(false, 0, 0, 0, 0, 0, 0)

  datatype Timers = Timers(engine: bool, reset: bool, ack: bool)

  const IDLE_BRIDGE := Bridge(false, false, false, 0, 0)

  // ---------------------------------------------------------------- invariants

  predicate Outstanding(b: Bridge, e: Engine) { b.inflight || e.active }

  /** Bridge request, discarded request and engine work exclude each other. */
  predicate Owned(b: Bridge, e: Engine) {
    && !(b.inflight && b.discard) && !(b.inflight && e.active) && !(b.discard && e.active)
    && (b.waitingFinal ==> b.inflight)
    && b.controlReceived <= MESSAGE_BYTES
  }

  /** Engine work carries the current generation and epoch. */
  predicate Fenced(e: Engine, generation: u32, epoch: u32) {
    e.active ==> e.generation == generation && e.epoch == epoch && e.deadlineNs > 0 && e.finishNs > 0
  }

  /** The control bits agree with the queues; nothing is outstanding during a device reset. */
  predicate Consistent(c: Control, sqEnabled: bool, cqEnabled: bool, b: Bridge, e: Engine) {
    && (c.enable ==> sqEnabled && cqEnabled)
    && (c.queuesReady <==> sqEnabled && cqEnabled)
    && (c.resetting ==> !sqEnabled && !cqEnabled && !Outstanding(b, e))
    && (c.busy <==> e.active)
  }

  /** Each completion written answers the descriptor fetched in the same position. */
  ghost predicate Answered(fetched: seq<Submission>, written: seq<Completion>) {
    |written| <= |fetched| && forall k :: 0 <= k < |written| ==> Answers(written[k], fetched[k])
  }

  lemma AnsweredAppend(fetched: seq<Submission>, written: seq<Completion>, c: Completion)
    requires Answered(fetched, written) && |written| < |fetched| && Answers(c, fetched[|written|])
    ensures Answered(fetched, written + [c])
  {
  }

  lemma AnsweredFetch(fetched: seq<Submission>, written: seq<Completion>, d: Submission)
    requires Answered(fetched, written)
    ensures Answered(fetched + [d], written)
  {
  }

  /** Fetches only move the head along the stream. */
  ghost predicate Drawn(q: SubmissionQueue, r: SubmissionQueue) {
    && r.base == q.base && r.depth == q.depth && r.tail == q.tail && r.enabled == q.enabled
    && r.memory == q.memory && r.stream == q.stream && q.fetched <= r.fetched
  }

  /** Publications only append. */
  ghost predicate Grown(q: CompletionQueue, r: CompletionQueue) {
    && r.base == q.base && r.depth == q.depth && r.head == q.head && r.enabled == q.enabled
    && r.high == q.high && r.low == q.low && r.acknowledged == q.acknowledged && r.moved == q.moved
    && q.written <= r.written && q.lost <= r.lost
  }

  /** `c` has been published, or lost to a failed write. */
  ghost predicate Published(q: CompletionQueue, r: CompletionQueue, c: Completion) {
    || (q.tail < q.depth && q.tail < |q.memory| && r == Appended(q, c))
    || r == q.(error := true, lost := q.lost + 1)
  }

  /** Whether another completion can follow is decided beforehand, unless this one is lost. */
  lemma RoomAfter(q: CompletionQueue, r: CompletionQueue, c: Completion)
    requires q.Good() && q.HasRoom() && Published(q, r, c)
    ensures r.HasRoom() && !r.throttled <==> !q.throttled && (r.lost > q.lost || q.LeavesRoom())
  {
  }

  /** `vams_pcie_check_invariants`. */
  predicate Checked(c: Control, sq: SubmissionQueue, cq: CompletionQueue, b: Bridge, e: Engine, generation: u32,
                    epoch: u32) {
    && sq.Sound() && cq.Sound() && Owned(b, e)
    && (c.busy <==> e.active) && Fenced(e, generation, epoch)
  }

  /** The timeout asked for, or 30 s, after the descriptor was read. */
  function TimeLimit(e: Engine, command: Submission): nat {
    e.readNs + (if command.timeoutMs == 0 then 30_000 else command.timeoutMs) * 1_000_000
  }

  /** The engine takes 20 ms, and that is more than the command has left. */
  predicate TooLate(e: Engine, command: Submission) { TimeLimit(e, command) < e.startedNs + 20_000_000 }

  /** Timers run only for the state that justifies them. */
  predicate Timed(c: Control, b: Bridge, e: Engine, t: Timers) {
    (t.engine <==> e.active) && (t.reset <==> c.resetting) && (t.ack ==> b.discard)
  }

  /** Everything but the count and order of completions. */
  ghost predicate Steadily(c: Control, sq: SubmissionQueue, cq: CompletionQueue, b: Bridge, e: Engine, t: Timers,
                           command: Submission, generation: u32, epoch: u32) {
    && sq.Good() && cq.Good() && Owned(b, e) && Fenced(e, generation, epoch)
    && Consistent(c, sq.enabled, cq.enabled, b, e) && Timed(c, b, e, t)
    && b.received < MESSAGE_BYTES
    && (e.active || (b.inflight && !b.waitingFinal) ==> e.deadlineNs == TimeLimit(e, command))
    && (e.active ==> e.finishNs == e.startedNs + 20_000_000)
    && (Outstanding(b, e) ==> cq.HasRoom())
    && (e.active ==> IsPayload(command.opcode))
  }

  /** What was fetched has been answered, lost, or is `owed`. */
  predicate Conserved(sq: SubmissionQueue, cq: CompletionQueue, owed: nat) {
    |sq.fetched| == |cq.written| + cq.lost + owed
  }

  /** The last descriptor fetched is the current command. */
  predicate Current(sq: SubmissionQueue, command: Submission) {
    sq.fetched != [] && sq.fetched[|sq.fetched| - 1] == command
  }

  /** While firmware messages name their command and no write fails, the k-th completion answers the k-th descriptor. */
  ghost predicate InOrder(sq: SubmissionQueue, cq: CompletionQueue, b: Bridge, e: Engine,
                          command: Submission, completion: Completion, faithful: bool) {
    faithful && cq.lost == 0 ==>
      && Answered(sq.fetched, cq.written)
      && (Outstanding(b, e) ==> Current(sq, command))
      && (e.active ==> Answers(completion, command))
  }

  /** Ownership, fences, timers and queues; conservation; and order. */
  ghost predicate Sane(c: Control, sq: SubmissionQueue, cq: CompletionQueue, b: Bridge, e: Engine, t: Timers,
                       command: Submission, completion: Completion, generation: u32, epoch: u32, faithful: bool) {
    && Steadily(c, sq, cq, b, e, t, command, generation, epoch)
    && Conserved(sq, cq, if Outstanding(b, e) then 1 else 0)
    && InOrder(sq, cq, b, e, command, completion, faithful)
  }

  /** A command that validation let through, under a success verdict, started when it was read. */
  ghost predicate Vetted(e: Engine, command: Submission, completion: Completion) {
    && Acceptable(command) && Answers(completion, command) && completion.status == STATUS_SUCCESS
    && e.startedNs == e.readNs
  }

  /** Such a command is too late exactly when it asked for less than the 20 ms the engine takes. */
  lemma VettedTooLate(e: Engine, command: Submission)
    requires e.startedNs == e.readNs
    ensures TooLate(e, command) <==> 0 < command.timeoutMs < 20
  {
  }

  /** Without a firmware, what the engine runs has been vetted here, or was running before. */
  ghost predicate RunsVetted(connected: bool, was: Engine, wasCommand: Submission, wasCompletion: Completion,
                             e: Engine, command: Submission, completion: Completion) {
    !connected && e.active ==>
      Vetted(e, command, completion) || (was.active && e == was && command == wasCommand && completion == wasCompletion)
  }

  /** What fetching leaves as it was. */
  ghost predicate Fetching(c: Control, sq: SubmissionQueue, cq: CompletionQueue, b: Bridge, t: Timers,
                           nc: Control, nsq: SubmissionQueue, ncq: CompletionQueue, nb: Bridge, nt: Timers,
                           connected: bool) {
    && nc == c.(busy := nc.busy) && Drawn(sq, nsq) && Grown(cq, ncq) && nt == t.(engine := nt.engine)
    && nb == b.(inflight := nb.inflight, waitingFinal := nb.waitingFinal) && (!connected ==> nb.inflight == b.inflight)
  }

  /** Completion `c` is the next one due. */
  ghost predicate Due(sq: SubmissionQueue, cq: CompletionQueue, c: Completion, faithful: bool) {
    && Conserved(sq, cq, 1)
    && (faithful && cq.lost == 0 ==> Answered(sq.fetched, cq.written) && Answers(c, sq.fetched[|sq.fetched| - 1]))
  }

  /** The current command has left the engine and its completion is owed. */
  ghost predicate Stopped(sq: SubmissionQueue, cq: CompletionQueue, command: Submission, completion: Completion,
                          faithful: bool) {
    && Conserved(sq, cq, 1)
    && (faithful && cq.lost == 0 ==>
          Answered(sq.fetched, cq.written) && Current(sq, command) && Answers(completion, command))
  }

  /** `c` has the identity of the stored completion or of the current command. */
  predicate Identified(c: Completion, command: Submission, completion: Completion) {
    Answers(c, command) || (c.commandId == completion.commandId && c.cookie == completion.cookie)
  }

  lemma StoppedIsDue(sq: SubmissionQueue, cq: CompletionQueue, command: Submission, completion: Completion,
                     faithful: bool, c: Completion)
    requires Stopped(sq, cq, command, completion, faithful) && Identified(c, command, completion)
    ensures Due(sq, cq, c, faithful) && (faithful && cq.lost == 0 ==> Current(sq, command))
  {
  }

  /** What stays steady when a queue is switched on or off. */
  lemma SwitchSteady(c: Control, sq: SubmissionQueue, cq: CompletionQueue, b: Bridge, e: Engine, t: Timers,
                     command: Submission, generation: u32, epoch: u32, newSq: SubmissionQueue, newCq: CompletionQueue)
    requires Steadily(c, sq, cq, b, e, t, command, generation, epoch) && !c.resetting
    requires newSq.Good() && newCq.Good() && (cq.HasRoom() ==> newCq.HasRoom())
    ensures Steadily(Switched(c, newSq.enabled, newCq.enabled), newSq, newCq, b, e, t, command, generation, epoch)
  {
  }

  function Switched(c: Control, sqEnabled: bool, cqEnabled: bool): Control {
    c.(queuesReady := sqEnabled && cqEnabled, enable := c.enable && sqEnabled && cqEnabled)
  }

  /** Another completion queue with the same history and the room an outstanding command needs. */
  lemma SaneWith(c: Control, sq: SubmissionQueue, cq: CompletionQueue, b: Bridge, e: Engine, t: Timers,
                 command: Submission, completion: Completion, generation: u32, epoch: u32, faithful: bool,
                 other: CompletionQueue)
    requires Sane(c, sq, cq, b, e, t, command, completion, generation, epoch, faithful)
    requires other.written == cq.written && other.lost == cq.lost && other.enabled == cq.enabled
    ensures Sane(c, sq, other, b, e, t, command, completion, generation, epoch, faithful) <==>
            other.Good() && (Outstanding(b, e) ==> other.HasRoom())
  {
  }

  /** A stopped completion queue with another depth: good exactly when its indices fit and enclose as many. */
  lemma ResizedGood(cq: CompletionQueue, depth: nat)
    requires cq.Good() && !cq.enabled && (depth != 0 ==> Ring.ValidDepth(depth) && (cq.high != 0 ==> cq.high < depth))
    ensures cq.(depth := depth).Good() <==>
            && (depth != 0 ==> cq.head < depth && cq.tail < depth)
            && cq.(depth := depth).Waiting() == cq.Waiting()
  {
    if depth != 0 && cq.depth != 0 && cq.head <= cq.tail < cq.depth && cq.tail < depth {
      DepthIrrelevant(cq.memory, cq.head, cq.tail, cq.depth, depth);
    }
  }

  /** The state at power-on, over any memory. */
  lemma SaneAtPowerOn(m: seq<Submission>, n: seq<Completion>)
    requires |m| == |n| == Ring.MAX_DEPTH
    ensures Sane(Control(true, false, false, false, false, false), NoSubmissions(m), NoCompletions(n), IDLE_BRIDGE,
                 IDLE_ENGINE, Timers(false, false, false), ZERO_SUBMISSION, ZERO_COMPLETION, 0, 0, true)
  {
  }

  /** A device whose queues are empty and stopped, with nothing outstanding, is steady under any fences. */
  lemma StoppedSteady(c: Control, sq: SubmissionQueue, cq: CompletionQueue, b: Bridge, e: Engine, t: Timers,
                      command: Submission, generation: u32, epoch: u32)
    requires sq.Good() && cq.Good() && !sq.enabled && !cq.enabled && !b.inflight && !e.active && !b.waitingFinal
    requires b.controlReceived <= MESSAGE_BYTES && b.received < MESSAGE_BYTES
    requires !c.enable && !c.queuesReady && !c.busy && Timed(c, b, e, t)
    ensures Steadily(c, sq, cq, b, e, t, command, generation, epoch)
  {
  }

  /** ... and, with nothing fetched yet, keeps everything. */
  lemma StoppedSane(c: Control, sq: SubmissionQueue, cq: CompletionQueue, b: Bridge, e: Engine, t: Timers,
                    command: Submission, completion: Completion, generation: u32, epoch: u32)
    requires sq.Good() && cq.Good() && !sq.enabled && !cq.enabled && !b.inflight && !e.active && !b.waitingFinal
    requires b.controlReceived <= MESSAGE_BYTES && b.received < MESSAGE_BYTES
    requires !c.enable && !c.queuesReady && !c.busy && Timed(c, b, e, t)
    requires sq.fetched == [] && cq.written == [] && cq.lost == 0
    ensures Sane(c, sq, cq, b, e, t, command, completion, generation, epoch, true)
  {
    StoppedSteady(c, sq, cq, b, e, t, command, generation, epoch);
    NothingFetched(sq, cq, b, e, command, completion);
  }

  lemma NothingFetched(sq: SubmissionQueue, cq: CompletionQueue, b: Bridge, e: Engine, command: Submission,
                       completion: Completion)
    requires sq.fetched == [] && cq.written == [] && cq.lost == 0 && !Outstanding(b, e)
    ensures Conserved(sq, cq, 0) && InOrder(sq, cq, b, e, command, completion, true)
  {
  }
}
