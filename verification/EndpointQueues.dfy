/**
 The endpoint's submission and completion queues: registers, the host memory they point at, and the
 history since the last reset.
 */
module EndpointQueues {
  import opened Abi
  import opened Windows
  import Ring

  /** The descriptors handed over by doorbells, and those of them fetched, since the last reset. */
  datatype SubmissionQueue = SubmissionQueue(
    base: u64, depth: nat, head: nat, tail: nat, enabled: bool, error: bool,
    memory: seq<Submission>, stream: seq<Submission>, fetched: seq<Submission>)
  {
    function Held(): int { Ring.Between(head, tail, depth) }

    /** As the registers tell it; a queue without a depth holds nothing. */
    function Waiting(): int { if depth == 0 then 0 else Held() }

    /** Index rules of the source's invariant check. */
    predicate Sound() { depth != 0 ==> Ring.ValidDepth(depth) && head < depth && tail < depth }

    /** And memory holds, in ring order, exactly what was handed over and not fetched. */
    ghost predicate Good() {
      && Sound() && (enabled ==> depth != 0) && |memory| == Ring.MAX_DEPTH
      && fetched <= stream && |stream| - |fetched| == Waiting()
      && (depth != 0 ==> Entries(memory, head, tail, depth) == stream[|fetched|..])
    }
  }

  /**
   Completions written, acknowledged by doorbells, and lost to a failed write, since the last reset;
   `moved` if the base was rewritten under unread ones.
   */
  datatype CompletionQueue = CompletionQueue(
    base: u64, depth: nat, head: nat, tail: nat, enabled: bool, error: bool,
    high: nat, low: nat, throttled: bool, interrupt: bool,
    memory: seq<Completion>, written: seq<Completion>, acknowledged: nat, lost: nat, moved: bool)
  {
    function Held(): int { Ring.Between(head, tail, depth) }

    function Waiting(): int { if depth == 0 then 0 else Held() }

    predicate HasRoom() { depth != 0 && Held() < depth - 1 }

    /** There is room for two, and one more entry does not reach the high watermark. */
    predicate LeavesRoom() { Waiting() + 2 < depth && !(enabled && high != 0 && Waiting() + 1 >= high) }

    /** Index and watermark rules of the source's invariant check. */
    predicate Sound() {
      && (depth != 0 ==> Ring.ValidDepth(depth) && head < depth && tail < depth)
      && (depth != 0 && high != 0 ==> high < depth && low < high)
      && (throttled ==> enabled && high != 0)
    }

    /** And memory holds, in ring order, exactly what was written and not acknowledged, with its interrupt pending. */
    ghost predicate Good() {
      && Sound()
      && |written| - acknowledged == Waiting()
      && (enabled ==> depth != 0)
      && (high != 0 ==> low < high)
      && (depth != 0 && head != tail ==> interrupt)
      && (throttled ==> Waiting() > low)
      && |memory| == Ring.MAX_DEPTH
      && (depth != 0 && !moved ==> Entries(memory, head, tail, depth) == written[acknowledged..])
    }

    /** The hysteresis: throttle at the high watermark, release at the low one. */
    predicate Throttle(was: bool) {
      && enabled && high != 0
      && (if was then Waiting() > low else Waiting() >= high)
    }
  }

  /** Queues that have not been set up, over some memory. */
  function NoSubmissions(memory: seq<Submission>): SubmissionQueue {
    SubmissionQueue(0, 0, 0, 0, false, false, memory, [], [])
  }

  function NoCompletions(memory: seq<Completion>): CompletionQueue {
    CompletionQueue(0, 0, 0, 0, false, false, 0, 0, false, false, memory, [], 0, 0, false)
  }

  /** The queue with its tail at `value` and what memory holds before it handed over. */
  ghost function Extended(q: SubmissionQueue, value: nat): SubmissionQueue
    requires q.tail < q.depth <= |q.memory| && value < q.depth
  {
    q.(tail := value, stream := q.stream + Entries(q.memory, q.tail, value, q.depth))
  }

  /** The queue with `c` stored at its tail, under the throttle that goes with it. */
  function Appended(q: CompletionQueue, c: Completion): CompletionQueue
    requires q.tail < q.depth && q.tail < |q.memory|
  {
    var r := q.(tail := Following(q.tail, q.depth), interrupt := true,
                memory := q.memory[q.tail := c], written := q.written + [c]);
    r.(throttled := r.Throttle(q.throttled))
  }

  /** The queue with everything before index `value` acknowledged, under the throttle that goes with it. */
  function Released(q: CompletionQueue, value: nat): CompletionQueue
    requires Ring.Between(q.head, value, q.depth) >= 0
  {
    var r := q.(head := value, acknowledged := q.acknowledged + Ring.Between(q.head, value, q.depth));
    r.(throttled := r.Throttle(q.throttled))
  }
}

/**
 The operations the handlers make on the queues.
 */
module QueueSteps {
  import opened Abi
  import opened Windows
  import opened EndpointQueues
  import Ring

  /** `vams_pcie_update_cq_backpressure`. */
  method UpdateBackpressure(q: CompletionQueue) returns (r: CompletionQueue)
    requires q.depth != 0 ==> q.head < q.depth && q.tail < q.depth
    ensures r == q.(throttled := q.Throttle(q.throttled))
  {
    var occupancy := 0;
    if q.depth != 0 {
      occupancy := Ring.Masked(q.head, q.tail, q.depth);
    }
    if !q.enabled || q.high == 0 {
      return q.(throttled := false);
    }
    if !q.throttled && occupancy >= q.high {
      return q.(throttled := true);
    } else if q.throttled && occupancy <= q.low {
      return q.(throttled := false);
    }
    return q;
  }

  /** One more entry, and no unread one overwritten. */
  lemma AppendedGood(q: CompletionQueue, c: Completion)
    requires q.Good() && q.HasRoom()
    ensures Appended(q, c).Good() && Appended(q, c).Held() == q.Held() + 1
  {
    Store(q.memory, q.head, q.tail, q.depth, c);
    assert (q.written + [c])[q.acknowledged..] == q.written[q.acknowledged..] + [c];
  }

  /** The completion is stored at the tail, and the interrupt is raised. */
  method Write(q: CompletionQueue, c: Completion) returns (r: CompletionQueue)
    requires q.Good() && q.HasRoom()
    ensures r == Appended(q, c) && r.Good() && r.Held() == q.Held() + 1
  {
    AppendedGood(q, c);
    var tail := Ring.Advance(q.tail, q.depth);
    r := UpdateBackpressure(q.(tail := tail, memory := q.memory[q.tail := c], written := q.written + [c]));
    r := r.(interrupt := true);
  }

  /** The descriptor at the head is taken, the oldest handed over and not fetched: one entry fewer. */
  method Fetch(q: SubmissionQueue) returns (r: SubmissionQueue, d: Submission)
    requires q.Good() && q.depth != 0 && q.head != q.tail
    ensures r.Good() && r.Held() == q.Held() - 1 && d == q.memory[q.head] == q.stream[|q.fetched|]
    ensures r == q.(head := r.head, fetched := q.fetched + [d])
  {
    TakeOldest(q);
    d := q.memory[q.head];
    var head := Ring.Advance(q.head, q.depth);
    r := q.(head := head, fetched := q.fetched + [d]);
  }

  lemma TakeOldest(q: SubmissionQueue)
    requires q.Good() && q.depth != 0 && q.head != q.tail
    ensures q.memory[q.head] == q.stream[|q.fetched|] && q.fetched + [q.memory[q.head]] <= q.stream
    ensures Entries(q.memory, Following(q.head, q.depth), q.tail, q.depth) == q.stream[|q.fetched| + 1..]
  {
    var rest := Entries(q.memory, Following(q.head, q.depth), q.tail, q.depth);
    assert [q.memory[q.head]] + rest == q.stream[|q.fetched|..];
    assert q.stream[|q.fetched|..][1..] == q.stream[|q.fetched| + 1..];
  }

  /** A submission doorbell: legal exactly when the queue runs, the index is in range and the entries fit. */
  method Announce(q: SubmissionQueue, value: nat) returns (legal: bool, r: SubmissionQueue)
    requires q.Good()
    ensures r.Good()
    ensures legal <==> q.enabled && value < q.depth && q.Held() + Ring.Between(q.tail, value, q.depth) < q.depth
    ensures legal ==> r == Extended(q, value)
    ensures !legal ==> r == q.(error := true)
  {
    if !q.enabled || value >= q.depth {
      return false, q.(error := true);
    }
    var advance := Ring.Masked(q.tail, value, q.depth);
    var available := Ring.Available(q.head, q.tail, q.depth);
    if advance > available {
      return false, q.(error := true);
    }
    HandOver(q, value);
    return true, q.(tail := value, stream := q.stream + Entries(q.memory, q.tail, value, q.depth));
  }

  lemma {:induction false} HandOver(q: SubmissionQueue, value: nat)
    requires q.Good() && q.depth != 0 && value < q.depth && q.Held() + Ring.Between(q.tail, value, q.depth) < q.depth
    ensures Entries(q.memory, q.head, value, q.depth)
            == (q.stream + Entries(q.memory, q.tail, value, q.depth))[|q.fetched|..]
  {
    Split(q.memory, q.head, q.tail, value, q.depth);
  }

  /** The completions after the acknowledged ones are still there. */
  lemma ReleasedGood(q: CompletionQueue, value: nat)
    requires q.Good() && q.depth != 0 && value < q.depth && Ring.Between(q.head, value, q.depth) <= q.Held()
    ensures Released(q, value).Good() && Released(q, value).Held() <= q.Held()
  {
    Split(q.memory, q.head, value, q.tail, q.depth);
  }

  method Release(q: CompletionQueue, value: nat, advance: nat) returns (r: CompletionQueue)
    requires q.Good() && q.depth != 0 && value < q.depth && Ring.Between(q.head, value, q.depth) == advance <= q.Held()
    ensures r == Released(q, value) && r.Good() && r.Held() <= q.Held()
  {
    ReleasedGood(q, value);
    r := UpdateBackpressure(q.(head := value, acknowledged := q.acknowledged + advance));
  }

  method Erred(q: CompletionQueue) returns (r: CompletionQueue)
    requires q.Good()
    ensures r == q.(error := true) && r.Good()
  {
    r := q.(error := true);
  }

  /** A completion doorbell: legal exactly when it acknowledges no more than is there. */
  method Acknowledge(q: CompletionQueue, value: nat) returns (legal: bool, r: CompletionQueue)
    requires q.Good()
    ensures r.Good()
    ensures legal <==> q.enabled && value < q.depth && Ring.Between(q.head, value, q.depth) <= q.Held()
    ensures legal ==> r == Released(q, value) && r.Held() <= q.Held()
    ensures !legal ==> r == q.(error := true)
  {
    r := Erred(q);
    if !q.enabled || value >= q.depth {
      return false, r;
    }
    var advance := Ring.Masked(q.head, value, q.depth);
    var produced := Ring.Masked(q.head, q.tail, q.depth);
    if advance > produced {
      return false, r;
    }
    r := Release(q, value, advance);
    return true, r;
  }

  /** Switch the completion queue: the first enable sets the default watermarks. */
  method Switch(q: CompletionQueue, on: bool) returns (r: CompletionQueue)
    requires q.Good() && (on ==> q.depth != 0)
    ensures r.Good() && r.Held() == q.Held()
    ensures var first := on && q.high == 0;
            var high, low := if first then q.depth - 1 else q.high, if first then q.depth - 2 else q.low;
            r == q.(enabled := on, high := high, low := low, throttled := r.Throttle(q.throttled))
  {
    r := q.(enabled := on);
    if on && r.high == 0 {
      r := r.(high := r.depth - 1, low := r.depth - 2);
    }
    r := UpdateBackpressure(r);
  }
}
