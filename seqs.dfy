/** Sequence helpers with Python's semantics: first-match scans and slicing. */
module Seqs {
  import opened Wrappers

  function Min(a: int, b: int): int { if a <= b then a else b }
  function Max(a: int, b: int): int { if a >= b then a else b }

  /**
   * The index of the first element satisfying `p`, scanning from the front:
   * the loop `for x in xs: if p(x): return x` of the source.
   */
  function FirstIndex<X>(xs: seq<X>, p: X -> bool): (r: Option<nat>)
    ensures r.None? ==> forall i :: 0 <= i < |xs| ==> !p(xs[i])
    ensures r.Some? ==> r.value < |xs| && p(xs[r.value])
    ensures r.Some? ==> forall j :: 0 <= j < r.value ==> !p(xs[j])
  {
    if xs == [] then None
    else if p(xs[0]) then Some(0)
    else match FirstIndex(xs[1..], p)
      case None => None
      case Some(i) => Some(i + 1)
  }

  /** Scanning one more element only matters while nothing has matched yet. */
  lemma FirstIndexSnoc<X>(xs: seq<X>, x: X, p: X -> bool)
    ensures FirstIndex(xs + [x], p) ==
      if FirstIndex(xs, p).Some? then FirstIndex(xs, p)
      else if p(x) then Some(|xs|) else None
  {
    var ys := xs + [x];
    assert forall i :: 0 <= i < |xs| ==> ys[i] == xs[i];
    var a, b := FirstIndex(xs, p), FirstIndex(ys, p);
    if a.Some? {
      assert b.Some? && b.value <= a.value;
      assert b.value == a.value;
    } else if p(x) {
      assert p(ys[|xs|]);
      assert b.Some? && b.value == |xs|;
    } else {
      assert b.None?;
    }
  }

  /** Python's `s[:n]`: a prefix, shortened from the end when `n` is negative. */
  function Take<T>(s: seq<T>, n: int): (r: seq<T>)
    ensures |r| == (if n >= 0 then Min(|s|, n) else Max(0, |s| + n))
    ensures r == s[..|r|]
  {
    if n >= 0 then (if n <= |s| then s[..n] else s)
    else if |s| + n > 0 then s[..|s| + n]
    else []
  }

  /** Python's `s[-n:]` for a positive `n`: the last `n` elements, or all of a shorter `s`. */
  function LastN<T>(s: seq<T>, n: nat): (r: seq<T>)
    requires n > 0
    ensures |r| == Min(|s|, n)
    ensures r == s[|s| - |r|..]
  {
    if |s| >= n then s[|s| - n..] else s
  }
}
