/**
 Index arithmetic of the power-of-two rings shared by the driver and the endpoint. The sources mask
 32-bit differences with depth - 1; since every depth divides 2^32 that is the remainder by depth.
 */
module Ring {
  const MIN_DEPTH := 16
  const MAX_DEPTH := 1024

  predicate PowerOfTwo(n: nat) {
    n == 1 || (n > 1 && n % 2 == 0 && PowerOfTwo(n / 2))
  }

  /** A power of two from 16 to 1024. */
  predicate ValidDepth(depth: nat) { MIN_DEPTH <= depth <= MAX_DEPTH && PowerOfTwo(depth) }

  /** The masked difference of two indices. */
  function Distance(from: nat, to: nat, depth: nat): nat
    requires depth > 0
  {
    (to - from) % depth
  }

  /** The same number without a remainder, for indices in range: the entries from one index to the other. */
  function Between(from: nat, to: nat, depth: nat): int {
    if from <= to then to - from else to - from + depth
  }

  function Next(index: nat, depth: nat): nat
    requires depth > 0
  {
    (index + 1) % depth
  }

  lemma DistanceIs(from: nat, to: nat, depth: nat)
    requires from < depth && to < depth
    ensures Distance(from, to, depth) == Between(from, to, depth)
  {
  }

  lemma WrapOnce(x: int, depth: nat)
    requires 0 <= x + depth && x < 0
    ensures x % depth == x + depth
  {
  }

  lemma NextIs(index: nat, depth: nat)
    requires index < depth
    ensures Next(index, depth) == if index + 1 == depth then 0 else index + 1
  {
  }

  /** A ring is full at depth - 1 entries, and empty when the indices meet. */
  lemma FullExact(head: nat, tail: nat, depth: nat)
    requires head < depth && tail < depth && depth > 1
    ensures Next(tail, depth) == head <==> Distance(head, tail, depth) == depth - 1
    ensures head == tail <==> Distance(head, tail, depth) == 0
  {
    NextIs(tail, depth);
    DistanceIs(head, tail, depth);
  }

  /** The entries a submission ring can still take: one slot always stays empty. */
  function Room(head: nat, tail: nat, depth: nat): nat
    requires depth > 0
  {
    (head - tail - 1) % depth
  }

  lemma RoomIs(head: nat, tail: nat, depth: nat)
    requires head < depth && tail < depth
    ensures Room(head, tail, depth) == depth - 1 - Distance(head, tail, depth)
  {
    DistanceIs(head, tail, depth);
    if head <= tail {
      WrapOnce(head - tail - 1, depth);
    }
  }

  // ---------------------------------------------------------------- the computations, as the sources make them

  method Advance(index: nat, depth: nat) returns (next: nat)
    requires index < depth
    ensures next == if index + 1 == depth then 0 else index + 1
  {
    NextIs(index, depth);
    next := (index + 1) % depth;
  }

  method IsFull(head: nat, tail: nat, depth: nat) returns (full: bool)
    requires head < depth && tail < depth && depth > 1
    ensures full <==> Between(head, tail, depth) == depth - 1
  {
    FullExact(head, tail, depth);
    DistanceIs(head, tail, depth);
    full := (tail + 1) % depth == head;
  }

  method Masked(from: nat, to: nat, depth: nat) returns (entries: nat)
    requires from < depth && to < depth
    ensures entries == Between(from, to, depth)
  {
    DistanceIs(from, to, depth);
    entries := (to - from) % depth;
  }

  method Available(head: nat, tail: nat, depth: nat) returns (entries: nat)
    requires head < depth && tail < depth
    ensures entries == depth - 1 - Between(head, tail, depth)
  {
    RoomIs(head, tail, depth);
    DistanceIs(head, tail, depth);
    entries := (head - tail - 1) % depth;
  }
}
