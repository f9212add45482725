/**
 What the driver's end of the rings knows of the endpoint's.
 */
module LinkRules {
  import opened Abi
  import opened Windows
  import opened EndpointQueues
  import opened EndpointRules
  import opened QueueSteps
  import Ring

  /** The head the driver has read, if any, and how many descriptors were fetched when it read it. */
  ghost predicate Remembers(q: SubmissionQueue, headRead: Option<nat>, seen: nat) {
    headRead.Some? ==>
      && headRead.value < q.depth && seen <= |q.fetched|
      && Ring.Between(headRead.value, q.tail, q.depth) == |q.stream| - seen
  }

  /** The driver has drained a prefix of what was written, and its head index is that far into the ring. */
  ghost predicate Drains(q: CompletionQueue, cqHead: nat, drained: seq<Completion>) {
    && cqHead < q.depth && drained <= q.written && q.acknowledged <= |drained|
    && Ring.Between(q.head, cqHead, q.depth) == |drained| - q.acknowledged <= q.Held()
  }

  /**
   While draining, the tail it read, and whether anything was drained since the last doorbell;
   otherwise everything drained has been acknowledged.
   */
  ghost predicate Snapshot(q: CompletionQueue, cqHead: nat, drained: seq<Completion>, draining: Option<nat>,
                           any: bool, snapshot: nat) {
    if draining.Some? then
      && draining.value < q.depth && |drained| <= snapshot <= |q.written|
      && Ring.Between(cqHead, draining.value, q.depth) == snapshot - |drained|
      && (any <==> |drained| > q.acknowledged)
    else |drained| == q.acknowledged
  }

  /** Whenever fetchable descriptors wait, a transfer has failed or the driver has a completion to acknowledge. */
  ghost predicate Moving(settled: bool, q: CompletionQueue) { settled || q.acknowledged < |q.written| }

  /** The endpoint as the driver set it up, on the direct path. */
  ghost predicate SetUp(c: Control, q: SubmissionQueue, p: CompletionQueue, b: Bridge, depth: nat) {
    && Ring.ValidDepth(depth) && q.depth == p.depth == depth && q.enabled && p.enabled && !p.moved
    && !c.resetting && !b.inflight && !b.discard
  }

  // ---------------------------------------------------------------- the endpoint's moves

  /** Fetching and publishing disturb nothing the driver knows. */
  lemma MovesOn(q: SubmissionQueue, p: CompletionQueue, nq: SubmissionQueue, np: CompletionQueue, headRead: Option<nat>,
                seen: nat, cqHead: nat, drained: seq<Completion>, draining: Option<nat>, any: bool, snapshot: nat)
    requires Drawn(q, nq) && Grown(p, np) && np.Good() && p.Good() && p.depth != 0
    requires Remembers(q, headRead, seen)
    requires Drains(p, cqHead, drained) && Snapshot(p, cqHead, drained, draining, any, snapshot)
    ensures Remembers(nq, headRead, seen)
    ensures Drains(np, cqHead, drained) && Snapshot(np, cqHead, drained, draining, any, snapshot)
  {
  }

  /** The completion at the driver's head index is the next one written. */
  lemma NextDrained(q: CompletionQueue, cqHead: nat, drained: seq<Completion>)
    requires q.Good() && q.depth != 0 && !q.moved && Drains(q, cqHead, drained) && |drained| < |q.written|
    ensures q.memory[cqHead] == q.written[|drained|]
    ensures Drains(q, Following(cqHead, q.depth), drained + [q.memory[cqHead]])
  {
    Peek(q.memory, q.head, cqHead, q.tail, q.depth);
  }

  /** A store at the tail is outside everything that waits, and the next tail hands over just that descriptor. */
  lemma StoreAtTail(q: SubmissionQueue, d: Submission, stored: SubmissionQueue)
    requires q.Good() && stored.Good() && q.depth != 0
    requires stored == q.(memory := q.memory[q.tail := d], stream := stored.stream)
    ensures stored.stream == q.stream
    ensures Extended(stored, Following(q.tail, q.depth)).stream == q.stream + [d]
  {
    var next := Following(q.tail, q.depth);
    StoreOutside(q.memory, q.head, q.tail, q.depth, q.tail, d);
    assert stored.stream == stored.fetched + stored.stream[|stored.fetched|..];
    assert q.stream == q.fetched + q.stream[|q.fetched|..];
    assert Entries(stored.memory, next, next, q.depth) == [];
    assert Entries(stored.memory, q.tail, next, q.depth) == [d];
  }

  /** The doorbell at the end of a drain acknowledges exactly what was drained. */
  lemma AllDrained(q: CompletionQueue, cqHead: nat, drained: seq<Completion>, tail: nat, any: bool, snapshot: nat)
    requires q.Good() && q.depth != 0 && Drains(q, cqHead, drained)
    requires Snapshot(q, cqHead, drained, Some(tail), any, snapshot) && |drained| == snapshot
    ensures var r := Released(q, cqHead);
            r.Good() && Drains(r, cqHead, drained) && Snapshot(r, cqHead, drained, None, false, snapshot)
  {
    ReleasedGood(q, cqHead);
  }
}

/**
 The driver's end of the two rings and the endpoint itself, together, within one reset generation,
 on the direct path.
 */
module Rings {
  import opened Abi
  import opened Windows
  import opened EndpointQueues
  import opened EndpointRules
  import opened Endpoint
  import opened LinkRules
  import Payload
  import Ring

  datatype Step = ReadsHead | Submits(d: Submission) | EngineFires | Drains

  class Link {
    const depth: nat
    const dev: Device
    // driver
    var sqTail: nat
    var cqHead: nat
    var headRead: Option<nat>
    var draining: Option<nat>
    var any: bool
    // everything drained; what had been fetched at the head read, and written at the tail read
    ghost var drained: seq<Completion>
    ghost var seen: nat
    ghost var snapshot: nat

    ghost predicate Valid()
      reads this, dev
    {
      && dev.Valid() && dev.faithful && SetUp(dev.control, dev.sq, dev.cq, dev.bridge, depth)
      && sqTail == dev.sq.tail && Remembers(dev.sq, headRead, seen)
      && LinkRules.Drains(dev.cq, cqHead, drained) && Snapshot(dev.cq, cqHead, drained, draining, any, snapshot)
      && (dev.engine.active ==> Vetted(dev.engine, dev.command, dev.completion))
      && Moving(dev.Settled(), dev.cq)
    }

    /** Everything submitted. */
    ghost function Submitted(): seq<Submission>
      reads this, dev
    {
      dev.sq.stream
    }

    /** The driver sets up an endpoint fresh from power-on. */
    constructor (depth: nat, host: Payload.Engine, sqDma: u64, cqDma: u64, marks: Option<Marks>)
      requires Suitable(depth, sqDma, cqDma, marks)
      ensures Valid() && fresh(dev) && dev.host == host && Submitted() == [] && drained == []
    {
      this.depth := depth;
      sqTail, cqHead, headRead, draining, any := 0, 0, None, None, false;
      drained, seen, snapshot := [], 0, 0;
      var started := Started(host, depth, sqDma, cqDma, marks);
      dev := started;
    }

    // ---------------------------------------------------------------- the driver submits

    /** The driver reads the endpoint's head; the endpoint goes on fetching. */
    method ReadHead()
      requires Valid()
      modifies this`headRead, this`seen
      ensures Valid() && headRead == Some(dev.sq.head) && seen == |dev.sq.fetched|
    {
      headRead := Some(dev.sq.head);
      seen := |dev.sq.fetched|;
    }

    /** The doorbell for one more descriptor. */
    method Knock()
      requires dev.Valid() && dev.faithful && SetUp(dev.control, dev.sq, dev.cq, dev.bridge, depth)
      requires headRead == None && sqTail == Following(dev.sq.tail, depth)
      requires |dev.sq.stream| - |dev.sq.fetched| < depth - 1
      requires LinkRules.Drains(dev.cq, cqHead, drained) && Snapshot(dev.cq, cqHead, drained, draining, any, snapshot)
      requires dev.engine.active ==> Vetted(dev.engine, dev.command, dev.completion)
      modifies dev
      ensures Valid() && dev.sq.stream == Extended(old(dev.sq), sqTail).stream && dev.Settled()
    {
      ghost var q, p := dev.sq, dev.cq;
      var legal := dev.SqDoorbell(sqTail, false);
      MovesOn(Extended(q, sqTail), p, dev.sq, dev.cq, None, seen, cqHead, drained, draining, any, snapshot);
    }

    /** Store at the tail and ring: the doorbell is legal, and the descriptor is the next of the stream. */
    method Enqueue(d: Submission)
      requires Valid() && |dev.sq.stream| - |dev.sq.fetched| < depth - 1
      modifies this`sqTail, this`headRead, dev
      ensures Valid() && Submitted() == old(Submitted()) + [d] && headRead == None && dev.Settled()
    {
      headRead := None;
      ghost var before := dev.sq;
      dev.HostStore(sqTail, d);
      StoreAtTail(before, d, dev.sq);
      sqTail := Ring.Advance(sqTail, depth);
      Knock();
    }

    /**
     The driver submits with the head it read, however long ago: it refuses exactly when the ring
     was full at that head, and otherwise the descriptor is handed over, legally and in order.
     */
    method Submit(d: Submission) returns (ok: bool)
      requires Valid() && headRead.Some?
      modifies this`sqTail, this`headRead, dev
      ensures Valid() && headRead == None && (ok ==> dev.Settled())
      ensures Submitted() == if ok then old(Submitted()) + [d] else old(Submitted())
      ensures !ok <==> |old(Submitted())| - seen == depth - 1
    {
      var full := Ring.IsFull(headRead.value, sqTail, depth);
      if full {
        headRead := None;
        return false;
      }
      Enqueue(d);
      return true;
    }

    // ---------------------------------------------------------------- the endpoint completes

    /**
     The engine timer fires with no firmware to ask: a command that asked for less than the 20 ms it takes
     times out; any other has the one-shot engine's effect on host memory, or fails with the code of a
     transfer. The engine's second validation never refuses it.
     */
    method Fire()
      requires Valid() && dev.timers.engine
      modifies dev, dev.host
      ensures Valid() && Submitted() == old(Submitted())
      ensures if 0 < dev.command.timeoutMs < 20
              then && dev.host.mem == old(dev.host.mem) && Answers(dev.completion, dev.command)
                   && dev.completion.status == STATUS_TIMED_OUT && dev.completion.errorCode == ERR_TIMEOUT
                   && dev.completion.bytesProcessed == 0
              else exists error: u16 ::
                     Payload.Performed(old(dev.host.mem), dev.host.mem, dev.command, old(dev.completion),
                                       dev.completion, error)
      ensures Published(old(dev.cq), dev.cq, dev.completion)
    {
      ghost var p, m, c := dev.cq, dev.host.mem, dev.completion;
      ghost var late := 0 < dev.command.timeoutMs < 20;
      VettedTooLate(dev.engine, dev.command);
      assert IsPayload(dev.command.opcode);
      dev.EngineComplete(false);
      MovesOn(dev.sq, p, dev.sq, dev.cq, headRead, seen, cqHead, drained, draining, any, snapshot);
      if !late {
        ghost var error: u16 :| Payload.Executed(m, dev.host.mem, dev.command, c, dev.completion, error);
        Payload.AcceptedIsPerformed(m, dev.host.mem, dev.command, c, dev.completion, error);
      }
    }

    // ---------------------------------------------------------------- the driver drains

    method DrainBegin()
      requires Valid() && draining.None?
      modifies this`draining, this`any, this`snapshot
      ensures Valid() && draining.Some? && snapshot == |dev.cq.written|
    {
      draining, any := Some(dev.cq.tail), false;
      snapshot := |dev.cq.written|;
    }

    /** One turn of the drain loop: the completion read is the next one written, for every wrap pattern. */
    method DrainOne() returns (more: bool, c: Completion)
      requires Valid() && draining.Some?
      modifies this`cqHead, this`any, this`drained
      ensures Valid()
      ensures more <==> |old(drained)| < snapshot
      ensures more ==> drained == old(drained) + [c] && c == dev.cq.written[|old(drained)|]
      ensures !more ==> drained == old(drained)
    {
      if cqHead == draining.value {
        return false, ZERO_COMPLETION;
      }
      NextDrained(dev.cq, cqHead, drained);
      c := dev.cq.memory[cqHead];
      cqHead := Ring.Advance(cqHead, depth);
      drained := drained + [c];
      any := true;
      return true, c;
    }

    method Acknowledge()
      requires Valid() && draining.Some? && |drained| == snapshot
      modifies this`draining, dev
      ensures Valid() && draining == None && Submitted() == old(Submitted()) && dev.Settled()
    {
      ghost var q, p := dev.sq, dev.cq;
      AllDrained(p, cqHead, drained, draining.value, any, snapshot);
      var legal := dev.CqDoorbell(cqHead, false);
      draining := None;
      MovesOn(q, Released(p, cqHead), dev.sq, dev.cq, headRead, seen, cqHead, drained, None, false, snapshot);
    }

    /**
     A drain that drained anything ends with a doorbell, which is always legal, and after which no
     fetchable descriptor waits unless a transfer failed.
     */
    method DrainEnd()
      requires Valid() && draining.Some? && |drained| == snapshot
      modifies this`draining, dev
      ensures Valid() && draining == None && Submitted() == old(Submitted())
      ensures any ==> dev.Settled()
    {
      if any {
        Acknowledge();
      } else {
        draining := None;
      }
    }

    // ---------------------------------------------------------------- whole runs

    method Drain()
      requires Valid()
      modifies this, dev
      ensures Valid() && Submitted() == old(Submitted()) && old(drained) <= drained
    {
      if draining.None? {
        DrainBegin();
      } else {
        var more, c := DrainOne();
        if !more {
          DrainEnd();
        }
      }
    }

    method Advance(step: Step)
      requires Valid()
      modifies this, dev, dev.host
      ensures Valid() && old(Submitted()) <= Submitted() && old(drained) <= drained
    {
      match step
      case ReadsHead => ReadHead();
      case Submits(d) =>
        if headRead.Some? {
          var ok := Submit(d);
        }
      case EngineFires =>
        if dev.timers.engine {
          Fire();
        }
      case Drains => Drain();
    }

    /**
     Driver and endpoint refine an unbounded queue: over every interleaving of their steps, in which
     the head the driver submits with may be old, as long as no completion write has failed, the k-th
     completion drained answers the k-th descriptor submitted. Nothing disappears; and whenever
     fetchable descriptors wait, a transfer has failed or a completion is there for the driver to
     acknowledge, which gets them fetched.
     */
    method Run(steps: seq<Step>)
      requires Valid()
      modifies this, dev, dev.host
      ensures Valid() && old(Submitted()) <= Submitted() && old(drained) <= drained
      ensures dev.cq.lost == 0 ==> Answered(Submitted(), drained)
      ensures |drained| <= |dev.cq.written|
      ensures |Submitted()| == |dev.cq.written| + dev.cq.lost + dev.sq.Held()
                               + if Outstanding(dev.bridge, dev.engine) then 1 else 0
      ensures dev.Settled() || dev.cq.acknowledged < |dev.cq.written|
    {
      var i := 0;
      while i < |steps|
        invariant 0 <= i <= |steps| && Valid()
        invariant old(Submitted()) <= Submitted() && old(drained) <= drained
      {
        Advance(steps[i]);
        i := i + 1;
      }
    }
  }
}
