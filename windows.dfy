/**
 * The three trailing windows of the normaliser (24 hours, 7 days, 30 days)
 * and sums over timestamped events restricted to a window. Timestamps are
 * integer milliseconds; every cutoff is inclusive (`timestamp >= cutoff`).
 */
module Windows {

  const DayMs: int := 86_400_000

  function Cutoff24h(now: int): int { now - DayMs }
  function Cutoff7d(now: int): int { now - 7 * DayMs }
  function Cutoff30d(now: int): int { now - 30 * DayMs }

  /** Sum of `amount` over the events whose time meets the inclusive cutoff, in scan order. */
  function SumSince<T>(xs: seq<T>, time: T -> int, amount: T -> real, cutoff: int): real
  {
    if xs == [] then 0.0
    else
      var last := xs[|xs| - 1];
      SumSince(xs[..|xs| - 1], time, amount, cutoff) + (if time(last) >= cutoff then amount(last) else 0.0)
  }

  /** Number of events whose time meets the inclusive cutoff. */
  function CountSince<T>(xs: seq<T>, time: T -> int, cutoff: int): nat
  {
    if xs == [] then 0
    else
      var last := xs[|xs| - 1];
      CountSince(xs[..|xs| - 1], time, cutoff) + (if time(last) >= cutoff then 1 else 0)
  }

  /** Sum of `amount` over the events with `lo <= time < hi`. */
  function SumBetween<T>(xs: seq<T>, time: T -> int, amount: T -> real, lo: int, hi: int): real
  {
    if xs == [] then 0.0
    else
      var last := xs[|xs| - 1];
      SumBetween(xs[..|xs| - 1], time, amount, lo, hi) + (if lo <= time(last) < hi then amount(last) else 0.0)
  }

  /**
   * Windows are nested: the wider window's total is the narrower one's plus
   * the events that fall between the two cutoffs.
   */
  lemma {:induction false} SplitWindow<T>(xs: seq<T>, time: T -> int, amount: T -> real, lo: int, hi: int)
    requires lo <= hi
    ensures SumSince(xs, time, amount, lo) == SumSince(xs, time, amount, hi) + SumBetween(xs, time, amount, lo, hi)
  {
    if xs != [] {
      SplitWindow(xs[..|xs| - 1], time, amount, lo, hi);
    }
  }

  /** A wider window never counts fewer events, and no window counts more than all of them. */
  lemma {:induction false} CountSinceMonotone<T>(xs: seq<T>, time: T -> int, lo: int, hi: int)
    requires lo <= hi
    ensures CountSince(xs, time, hi) <= CountSince(xs, time, lo) <= |xs|
  {
    if xs != [] {
      CountSinceMonotone(xs[..|xs| - 1], time, lo, hi);
    }
  }

  /** When every event falls in the window, all of them are counted. */
  lemma {:induction false} CountSinceAllInside<T>(xs: seq<T>, time: T -> int, cutoff: int)
    requires forall i :: 0 <= i < |xs| ==> time(xs[i]) >= cutoff
    ensures CountSince(xs, time, cutoff) == |xs|
  {
    if xs != [] {
      CountSinceAllInside(xs[..|xs| - 1], time, cutoff);
    }
  }

  /** When every event is older than the cutoff, the window is empty and sums to zero. */
  lemma {:induction false} SumSinceAllOutside<T>(xs: seq<T>, time: T -> int, amount: T -> real, cutoff: int)
    requires forall i :: 0 <= i < |xs| ==> time(xs[i]) < cutoff
    ensures SumSince(xs, time, amount, cutoff) == 0.0
    ensures CountSince(xs, time, cutoff) == 0
  {
    if xs != [] {
      SumSinceAllOutside(xs[..|xs| - 1], time, amount, cutoff);
    }
  }
}
