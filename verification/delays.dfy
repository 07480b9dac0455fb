/**
 * Busy-wait delays (`_delay_ms`) are not modelled as time: each program keeps
 * the durations it asked for, in milliseconds, in the order it asked.
 */
module Delays {

  /** Sum of the recorded durations. */
  function Total(ds: seq<int>): int
  {
    if ds == [] then 0 else Total(ds[..|ds| - 1]) + ds[|ds| - 1]
  }

  /** `n` delays of `d` milliseconds each. */
  function Repeat(d: int, n: nat): (ds: seq<int>)
    ensures |ds| == n
    ensures forall k :: 0 <= k < n ==> ds[k] == d
  {
    if n == 0 then [] else Repeat(d, n - 1) + [d]
  }

  /** The total of a concatenation is the sum of the totals. */
  lemma {:induction false} TotalAppend(a: seq<int>, b: seq<int>)
    ensures Total(a + b) == Total(a) + Total(b)
  {
    if b == [] {
      assert a + b == a;
    } else {
      assert (a + b)[..|a + b| - 1] == a + b[..|b| - 1];
      TotalAppend(a, b[..|b| - 1]);
    }
  }

  /** Runs of equal delays concatenate. */
  lemma {:induction false} RepeatAdd(d: int, m: nat, n: nat)
    ensures Repeat(d, m) + Repeat(d, n) == Repeat(d, m + n)
  {
    if n > 0 {
      RepeatAdd(d, m, n - 1);
    }
  }

  /** `n` delays of `d` milliseconds add up to `n * d` milliseconds. */
  lemma {:induction false} TotalRepeat(d: int, n: nat)
    ensures Total(Repeat(d, n)) == n * d
  {
    if n > 0 {
      var ds := Repeat(d, n);
      assert ds[..|ds| - 1] == Repeat(d, n - 1);
      TotalRepeat(d, n - 1);
    }
  }
}
