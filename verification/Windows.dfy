/**
 A ring in memory as a window on an unbounded sequence: the entries from one index to another,
 in order, for every wrap pattern.
 */
module Windows {
  import Ring

  function Following(index: nat, depth: nat): nat
    requires index < depth
  {
    if index + 1 == depth then 0 else index + 1
  }

  /** What `memory` holds from index `from` up to index `to`, in ring order. */
  function Entries<T>(memory: seq<T>, from: nat, to: nat, depth: nat): (entries: seq<T>)
    requires from < depth <= |memory| && to < depth
    ensures |entries| == Ring.Between(from, to, depth)
    decreases Ring.Between(from, to, depth)
  {
    if from == to then [] else [memory[from]] + Entries(memory, Following(from, depth), to, depth)
  }

  /** Without a wrap the depth plays no part. */
  lemma {:induction false} DepthIrrelevant<T>(memory: seq<T>, from: nat, to: nat, depth: nat, other: nat)
    requires from <= to < depth <= |memory| && to < other <= |memory|
    ensures Entries(memory, from, to, depth) == Entries(memory, from, to, other)
    decreases Ring.Between(from, to, depth)
  {
    if from < to {
      DepthIrrelevant(memory, from + 1, to, depth, other);
    }
  }

  /** Storing at the producer's index appends, and overwrites nothing still in the window. */
  lemma {:induction false} Store<T>(memory: seq<T>, from: nat, to: nat, depth: nat, x: T)
    requires from < depth <= |memory| && to < depth && Ring.Between(from, to, depth) < depth - 1
    ensures Entries(memory[to := x], from, Following(to, depth), depth) == Entries(memory, from, to, depth) + [x]
    decreases Ring.Between(from, to, depth)
  {
    if from == to {
      assert Entries(memory[to := x], Following(to, depth), Following(to, depth), depth) == [];
    } else {
      Store(memory, Following(from, depth), to, depth, x);
    }
  }

  /** A store outside the window does not show in it. */
  lemma {:induction false} StoreOutside<T>(memory: seq<T>, from: nat, to: nat, depth: nat, at: nat, x: T)
    requires from < depth <= |memory| && to < depth && at < |memory|
    requires at >= depth || Ring.Between(from, to, depth) <= Ring.Between(from, at, depth)
    ensures Entries(memory[at := x], from, to, depth) == Entries(memory, from, to, depth)
    decreases Ring.Between(from, to, depth)
  {
    if from != to {
      StoreOutside(memory, Following(from, depth), to, depth, at, x);
    }
  }

  /** A window splits at any index inside it. */
  lemma {:induction false} Split<T>(memory: seq<T>, from: nat, mid: nat, to: nat, depth: nat)
    requires from < depth <= |memory| && mid < depth && to < depth
    requires Ring.Between(from, mid, depth) + Ring.Between(mid, to, depth) < depth
    ensures Entries(memory, from, to, depth) == Entries(memory, from, mid, depth) + Entries(memory, mid, to, depth)
    decreases Ring.Between(from, mid, depth)
  {
    if from != mid {
      Split(memory, Following(from, depth), mid, to, depth);
    }
  }

  /** Taking at a consumer's index that lags `k` entries behind the window's start yields entry `k`. */
  lemma {:induction false} Peek<T>(memory: seq<T>, from: nat, at: nat, to: nat, depth: nat)
    requires from < depth <= |memory| && at < depth && to < depth
    requires Ring.Between(from, at, depth) < Ring.Between(from, to, depth)
    ensures Entries(memory, from, to, depth)[Ring.Between(from, at, depth)] == memory[at]
  {
    Split(memory, from, at, to, depth);
  }
}
