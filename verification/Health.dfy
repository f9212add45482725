/**
 What a history of progress samples says about eight counters.
 */
module HealthHistory {
  import opened Abi

  const TASKS := 8

  type Sample = s: seq<u32> | |s| == TASKS witness [0, 0, 0, 0, 0, 0, 0, 0]

  /** How many samples at the end of the history repeat the task's counter. */
  function Misses(samples: seq<Sample>, task: nat): nat
    requires task < TASKS
  {
    if |samples| < 2 || samples[|samples| - 1][task] != samples[|samples| - 2][task] then 0
    else Misses(samples[..|samples| - 1], task) + 1
  }

  function Limit(missLimit: u32): nat { if missLimit == 0 then 1 else missLimit }

  predicate Stuck(samples: seq<Sample>, missLimit: u32, task: nat)
    requires task < TASKS
  {
    Misses(samples, task) >= Limit(missLimit)
  }

  /** The number of the first stuck task, from 1; 0 when there is none. */
  ghost predicate FirstStuck(samples: seq<Sample>, missLimit: u32, stuck: nat) {
    if stuck == 0 then forall t :: 0 <= t < TASKS ==> !Stuck(samples, missLimit, t)
    else stuck <= TASKS && Stuck(samples, missLimit, stuck - 1) && forall t :: 0 <= t < stuck - 1 ==>
        !Stuck(samples, missLimit, t)
  }

  ghost predicate Healthy(samples: seq<Sample>, missLimit: u32) {
    forall t :: 0 <= t < TASKS ==> !Stuck(samples, missLimit, t)
  }

  /** Healthy-to-unhealthy edges in the history; the first sample is the baseline and is healthy. */
  ghost function Edges(samples: seq<Sample>, missLimit: u32): nat {
    if |samples| <= 1 then 0
    else Edges(samples[..|samples| - 1], missLimit)
         + if Healthy(samples[..|samples| - 1], missLimit) && !Healthy(samples, missLimit) then 1 else 0
  }

  /** The stored counters: the last sample, and the saturating count of its repeats. */
  ghost predicate Recorded(lastEpoch: seq<u32>, missed: seq<u32>, samples: seq<Sample>) {
    && |lastEpoch| == |missed| == TASKS && samples != [] && lastEpoch == samples[|samples| - 1]
    && forall t :: 0 <= t < TASKS ==> missed[t] == Saturated(Misses(samples, t))
  }

  /** The verdict, the named task, the latch and the failure count that a history calls for. */
  ghost predicate Judged(samples: seq<Sample>, missLimit: u32, stuck: nat, latched: bool, failures: u32) {
    && FirstStuck(samples, missLimit, stuck)
    && (latched <==> !Healthy(samples, missLimit))
    && failures == Saturated(Edges(samples, missLimit))
  }

  lemma StuckIsUnhealthy(samples: seq<Sample>, missLimit: u32, stuck: nat)
    requires FirstStuck(samples, missLimit, stuck)
    ensures stuck == 0 <==> Healthy(samples, missLimit)
  {
  }

  function Saturated(n: nat): u32 { if n < TWO32 then n else TWO32 - 1 }

  /** A counter has repeated for n samples exactly when it has the same value over the last n + 1. */
  lemma {:induction false} MissesMeaning(samples: seq<Sample>, task: nat, n: nat)
    requires task < TASKS && samples != []
    ensures Misses(samples, task) >= n <==>
              n < |samples| && forall k :: |samples| - 1 - n <= k < |samples| ==>
                  samples[k][task] == samples[|samples| - 1][task]
    decreases |samples|
  {
    if n > 0 && |samples| >= 2 && samples[|samples| - 1][task] == samples[|samples| - 2][task] {
      var before := samples[..|samples| - 1];
      MissesMeaning(before, task, n - 1);
      if n < |samples| && forall k :: |samples| - 1 - n <= k < |samples| ==>
          samples[k][task] == samples[|samples| - 1][task] {
        forall k | |before| - 1 - (n - 1) <= k < |before| ensures before[k][task] == before[|before| - 1][task] {
          assert samples[k][task] == samples[|samples| - 1][task];
        }
      }
      if n - 1 < |before| && forall k :: |before| - 1 - (n - 1) <= k < |before| ==>
          before[k][task] == before[|before| - 1][task] {
        forall k | |samples| - 1 - n <= k < |samples| ensures samples[k][task] == samples[|samples| - 1][task] {
          assert k < |before| ==> before[k][task] == before[|before| - 1][task];
        }
      }
    } else if n > 0 && |samples| >= 2 {
      assert samples[|samples| - 2][task] != samples[|samples| - 1][task];
    }
  }
}

/**
 The stuck-task tracker: one pass per sample over the counters.
 */
module Health {
  import opened Abi
  import opened HealthHistory

  /** What one more sample does to the count of edges. */
  lemma {:induction false} OneMoreSample(samples: seq<Sample>, epochs: Sample, missLimit: u32)
    requires samples != []
    ensures var more := samples + [epochs];
            Edges(more, missLimit) == Edges(samples, missLimit)
                                      + if Healthy(samples, missLimit) && !Healthy(more, missLimit) then 1 else 0
  {
    var more := samples + [epochs];
    assert more[..|more| - 1] == samples;
  }

  class Tracker {
    const lastEpoch: array<u32>
    const missed: array<u32>
    var failureCount: u32
    var stuckTask: u32
    var startupGrace: u32
    var latched: bool
    const missLimit: u32
    /** The baseline and the samples after the grace period. */
    ghost var samples: seq<Sample>

    ghost predicate Valid()
      reads this, lastEpoch, missed
    {
      && lastEpoch.Length == missed.Length == TASKS && lastEpoch != missed
      && Recorded(lastEpoch[..], missed[..], samples)
      && Judged(samples, missLimit, stuckTask, latched, failureCount)
      && (startupGrace > 0 ==> |samples| == 1)
    }

    constructor (epochs: Sample, startupGrace: u32, missLimit: u32)
      ensures Valid() && samples == [epochs] && fresh(lastEpoch) && fresh(missed)
      ensures this.startupGrace == startupGrace && this.missLimit == missLimit
    {
      lastEpoch := new u32[TASKS](i requires 0 <= i < TASKS => epochs[i]);
      missed := new u32[TASKS](_ => 0);
      failureCount, stuckTask, latched := 0, 0, false;
      this.startupGrace, this.missLimit := startupGrace, missLimit;
      samples := [epochs];
    }

    /** One pass over the counters; `stuck` is the first task whose misses have reached the limit. */
    method Scan(epochs: Sample) returns (stuck: nat)
      requires lastEpoch.Length == missed.Length == TASKS && lastEpoch != missed
      requires Recorded(lastEpoch[..], missed[..], samples)
      modifies lastEpoch, missed
      ensures Recorded(lastEpoch[..], missed[..], samples + [epochs])
      ensures FirstStuck(samples + [epochs], missLimit, stuck)
    {
      ghost var more := samples + [epochs];
      assert more[..|more| - 1] == samples;
      ghost var last, counts := lastEpoch[..], missed[..];
      stuck := 0;
      var index := 0;
      while index < TASKS
        invariant 0 <= index <= TASKS
        invariant forall t :: index <= t < TASKS ==> lastEpoch[t] == last[t] && missed[t] == counts[t]
        invariant forall t :: 0 <= t < index ==> lastEpoch[t] == epochs[t] && missed[t] == Saturated(Misses(more, t))
        invariant if stuck == 0 then forall t :: 0 <= t < index ==> !Stuck(more, missLimit, t)
                  else stuck <= index && Stuck(more, missLimit, stuck - 1) && forall t :: 0 <= t < stuck - 1 ==>
                      !Stuck(more, missLimit, t)
      {
        assert Misses(more, index) == if epochs[index] != last[index] then 0 else Misses(samples, index) + 1;
        if epochs[index] != lastEpoch[index] {
          lastEpoch[index] := epochs[index];
          missed[index] := 0;
        } else {
          missed[index] := SatInc(missed[index]);
          if stuck == 0 && missed[index] >= missLimit {
            stuck := index + 1;
          }
        }
        index := index + 1;
      }
      assert lastEpoch[..] == epochs;
    }

    /** During the grace period a sample only replaces the baseline. */
    method Rebase(epochs: Sample)
      requires Valid() && startupGrace > 0
      modifies this`startupGrace, this`samples, lastEpoch
      ensures Valid() && samples == [epochs] && startupGrace == old(startupGrace) - 1
    {
      startupGrace := startupGrace - 1;
      forall t | 0 <= t < TASKS {
        lastEpoch[t] := epochs[t];
      }
      assert lastEpoch[..] == epochs;
      samples := [epochs];
    }

    /**
     `vams_health_tracker_update`. After the grace period the verdict is unhealthy exactly when some
     counter has been constant for max(1, limit) samples; the lowest such task is named; and the
     failure count is the saturating number of healthy-to-unhealthy edges.
     */
    method Update(epochs: Sample) returns (healthy: bool)
      requires Valid()
      modifies this`failureCount, this`stuckTask, this`startupGrace, this`latched, this`samples, lastEpoch, missed
      ensures Valid()
      ensures samples == if old(startupGrace) > 0 then [epochs] else old(samples) + [epochs]
      ensures startupGrace == if old(startupGrace) > 0 then old(startupGrace) - 1 else 0
      ensures healthy <==> Healthy(samples, missLimit)
      ensures FirstStuck(samples, missLimit, stuckTask) && failureCount == Saturated(Edges(samples, missLimit))
    {
      if startupGrace > 0 {
        Rebase(epochs);
        return true;
      }
      var stuck := Scan(epochs);
      OneMoreSample(samples, epochs, missLimit);
      StuckIsUnhealthy(samples + [epochs], missLimit, stuck);
      samples := samples + [epochs];
      stuckTask := stuck;
      if stuck == 0 {
        latched := false;
        return true;
      }
      if !latched {
        failureCount := SatInc(failureCount);
        latched := true;
      }
      return false;
    }
  }
}
