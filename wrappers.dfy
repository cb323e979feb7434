/** The optional values of the visualizer (Python's `None` or a value) and small helpers shared by every module. */
module Wrappers {

  datatype Option<+T> = None | Some(value: T) {

    /** The carried value, or `default` for `None`. */
    function GetOr(default: T): T
    {
      match this
      case Some(v) => v
      case None => default
    }
  }

  function Min(a: int, b: int): int { if a <= b then a else b }

  function Max(a: int, b: int): int { if a <= b then b else a }

  function MaxReal(a: real, b: real): (r: real)
    ensures r >= a && r >= b && (r == a || r == b)
  {
    if a <= b then b else a
  }

  function MinReal(a: real, b: real): (r: real)
    ensures r <= a && r <= b && (r == a || r == b)
  {
    if a <= b then a else b
  }

  function AbsReal(a: real): real { if a < 0.0 then -a else a }

  /** `np.clip(x, lo, hi)` for `lo <= hi`. */
  function Clip(x: real, lo: real, hi: real): real { if x < lo then lo else if x > hi then hi else x }

  /** One more multiple of `step`: the step of an induction over `k`. */
  lemma MultipleStep(k: int, step: int)
    ensures (k - 1) * step + step == k * step
  {
  }

  /** `MultipleStep` over the reals. */
  lemma RealMultipleStep(n: real, x: real)
    ensures (n - 1.0) * x + x == n * x
  {
  }

  /** Concatenation regroups: moving one element from the rest onto the prefix keeps the whole. */
  lemma ConcatAssoc<T>(a: seq<T>, b: seq<T>, c: seq<T>)
    ensures a + (b + c) == (a + b) + c
  {
  }
}
