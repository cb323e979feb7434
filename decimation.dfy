/**
 * Peak-preserving decimation of the older display loop: when a time-plot window
 * holds more than 15000 points, only every `step`-th time is kept (plus the very
 * last), and each kept sample is the one of largest magnitude in its chunk, so
 * short spikes stay visible.
 */
module Decimation {
  import opened Wrappers
  import Display

  /** Point count above which the window is decimated. */
  const MaxDisplayPoints: nat := 15000

  /** `np.arange(from, n, step)` */
  function Arange(from: nat, n: nat, step: nat): (r: seq<nat>)
    requires step > 0
    ensures |r| > 0 <==> from < n
    ensures |r| > 0 ==> r[0] == from && r[|r| - 1] + step >= n
    ensures forall k :: 0 <= k < |r| ==> from <= r[k] < n
    ensures forall i, j :: 0 <= i < j < |r| ==> r[i] < r[j]
    decreases n - from
  {
    if from >= n then []
    else
      var rest := Arange(from + step, n, step);
      var r := [from] + rest;
      assert forall k :: 1 <= k < |r| ==> r[k] == rest[k - 1];
      r
  }

  /** The k-th element of `arange(from, n, step)` is `from + k * step`. */
  lemma {:induction false} ArangeAt(from: nat, n: nat, step: nat, k: nat)
    requires step > 0 && k < |Arange(from, n, step)|
    ensures Arange(from, n, step)[k] == from + k * step
    decreases n - from
  {
    if k > 0 {
      var rest := Arange(from + step, n, step);
      assert Arange(from, n, step) == [from] + rest;
      ArangeAt(from + step, n, step, k - 1);
      MultipleStep(k, step);
    }
  }

  /** The step between kept points: `max(1, n // 15000)`. */
  function Step(n: nat): (s: nat)
    ensures s >= 1
  {
    Max(1, n / 15000)
  }

  /** The kept positions: every `step`-th one from 0, with `n - 1` appended when it is not already last. */
  function Indices(n: nat): (r: seq<nat>)
    requires n > MaxDisplayPoints
    ensures |r| > 0 && r[0] == 0 && r[|r| - 1] == n - 1
  {
    var base := Arange(0, n, Step(n));
    if base[|base| - 1] != n - 1 then base + [n - 1] else base
  }

  /** The kept positions start at 0, end at `n - 1`, lie in [0, n) and each is larger than the one before. */
  lemma IndicesShape(n: nat)
    requires n > MaxDisplayPoints
    ensures var idx := Indices(n);
      && |idx| >= 2
      && idx[0] == 0 && idx[|idx| - 1] == n - 1
      && (forall k :: 0 <= k < |idx| ==> idx[k] < n)
  {
    var base := Arange(0, n, Step(n));
    var idx := Indices(n);
    if base[|base| - 1] != n - 1 {
      assert idx == base + [n - 1];
      assert forall k :: 0 <= k < |base| ==> idx[k] == base[k];
    } else {
      assert |base| >= 2 by {
        if |base| == 1 { assert base[0] == 0 != n - 1; }
      }
    }
  }

  /** The kept positions strictly increase. */
  lemma IndicesIncreasing(n: nat)
    requires n > MaxDisplayPoints
    ensures var idx := Indices(n);
      && (forall i, j :: 0 <= i < j < |idx| ==> idx[i] < idx[j])
  {
    var base := Arange(0, n, Step(n));
    var idx := Indices(n);
    if base[|base| - 1] != n - 1 {
      assert forall k :: 0 <= k < |base| ==> idx[k] == base[k];
    }
  }

  /** Every kept position but the appended last one is a multiple of the step: 0, step, 2 * step, .... */
  lemma IndexAt(n: nat, k: nat)
    requires n > MaxDisplayPoints && k < |Indices(n)| - 1
    ensures Indices(n)[k] == k * Step(n)
  {
    var base := Arange(0, n, Step(n));
    assert k < |base|;
    assert Indices(n)[k] == base[k];
    ArangeAt(0, n, Step(n), k);
  }

  /** `np.argmax(np.abs(chunk))`: the first position of largest magnitude. */
  function FirstPeak(s: seq<real>): (j: nat)
    requires |s| > 0
    ensures j < |s|
    ensures forall k :: 0 <= k < |s| ==> AbsReal(s[k]) <= AbsReal(s[j])
    ensures forall k :: 0 <= k < j ==> AbsReal(s[k]) < AbsReal(s[j])
  {
    if |s| == 1 then 0
    else
      var front := s[..|s| - 1];
      var j := FirstPeak(front);
      assert forall k :: 0 <= k < |s| - 1 ==> s[k] == front[k];
      if AbsReal(s[|s| - 1]) > AbsReal(s[j]) then |s| - 1 else j
  }

  /** The sample kept for the chunk `y[lo..hi]`. */
  function ChunkPeak(y: seq<real>, lo: nat, hi: nat): (r: real)
    requires lo < hi <= |y|
    ensures forall m :: lo <= m < hi ==> AbsReal(y[m]) <= AbsReal(r)
    ensures exists i :: lo <= i < hi && y[i] == r && forall m :: lo <= m < i ==> AbsReal(y[m]) < AbsReal(r)
  {
    var j := FirstPeak(y[lo..hi]);
    assert forall m :: lo <= m < hi ==> y[m] == y[lo..hi][m - lo];
    y[lo + j]
  }

  /** Positions that strictly increase and lie within `[0, len]`: chunk boundaries of a `len`-sample array. */
  predicate Boundaries(idx: seq<nat>, len: nat)
  {
    && (forall i, j :: 0 <= i < j < |idx| ==> idx[i] < idx[j])
    && (forall k :: 0 <= k < |idx| ==> idx[k] <= len)
  }

  /** The kept positions are chunk boundaries of a signal of `n` samples. */
  lemma IndicesAreBoundaries(n: nat)
    requires n > MaxDisplayPoints
    ensures Boundaries(Indices(n), n)
  {
    IndicesShape(n);
    IndicesIncreasing(n);
  }

  /**
   * `y_downsampled`: for each kept position but the last, the peak of the chunk up
   * to the next kept position; for the last, the final sample.
   */
  function Downsampled(y: seq<real>, idx: seq<nat>): (r: seq<real>)
    requires |y| > 0 && |idx| > 0 && Boundaries(idx, |y|)
    ensures |r| == |idx|
    ensures r[|idx| - 1] == y[|y| - 1]
  {
    seq(|idx|, k requires 0 <= k < |idx| =>
      if k == |idx| - 1 then y[|y| - 1] else ChunkPeak(y, idx[k], idx[k + 1]))
  }

  /**
   * Each downsampled value but the last is a sample of its chunk, and no sample of
   * the chunk has a larger magnitude, nor does any earlier one have an equal one.
   */
  lemma DownsampledKeepsPeak(y: seq<real>, idx: seq<nat>, k: nat) returns (i: nat)
    requires |y| > 0 && |idx| > 0 && Boundaries(idx, |y|) && k < |idx| - 1
    ensures idx[k] <= i < idx[k + 1] && Downsampled(y, idx)[k] == y[i]
    ensures forall m :: idx[k] <= m < idx[k + 1] ==> AbsReal(y[m]) <= AbsReal(y[i])
    ensures forall m :: idx[k] <= m < i ==> AbsReal(y[m]) < AbsReal(y[i])
  {
    var lo, hi := idx[k], idx[k + 1];
    var chunk := y[lo..hi];
    var j := FirstPeak(chunk);
    i := lo + j;
    forall m | lo <= m < hi ensures AbsReal(y[m]) <= AbsReal(y[i]) {
      assert y[m] == chunk[m - lo];
    }
    forall m | lo <= m < i ensures AbsReal(y[m]) < AbsReal(y[i]) {
      assert y[m] == chunk[m - lo];
    }
  }

  lemma DownsampledAt(y: seq<real>, idx: seq<nat>, k: nat)
    requires |y| > 0 && |idx| > 0 && Boundaries(idx, |y|) && k < |idx| - 1
    ensures idx[k] < idx[k + 1] <= |y|
    ensures var chunk := y[idx[k]..idx[k + 1]]; Downsampled(y, idx)[k] == chunk[FirstPeak(chunk)]
  {
    var lo, hi := idx[k], idx[k + 1];
    assert y[lo..hi][FirstPeak(y[lo..hi])] == y[lo + FirstPeak(y[lo..hi])];
  }

  /** Fills a fresh array with the downsampled values, chunk by chunk. */
  method ChunkPeaks(y: seq<real>, idx: seq<nat>) returns (peaks: seq<real>)
    requires |y| > 0 && |idx| > 0 && Boundaries(idx, |y|)
    ensures peaks == Downsampled(y, idx)
  {
    var down := new real[|idx|];
    var k := 0;
    while k < |idx| - 1
      invariant 0 <= k <= |idx| - 1
      invariant forall j :: 0 <= j < k ==> down[j] == Downsampled(y, idx)[j]
    {
      assert idx[k] < idx[k + 1];
      var chunk := y[idx[k]..idx[k + 1]];
      down[k] := chunk[FirstPeak(chunk)];
      DownsampledAt(y, idx, k);
      k := k + 1;
    }
    down[|idx| - 1] := y[|y| - 1];
    peaks := down[..];
  }

  /**
   * The (x, y) arrays the older loop hands to the plot: unchanged apart from the gain
   * while there are at most 15000 points; otherwise x at the kept positions and the
   * downsampled y, times the gain.
   */
  method Decimate(xFull: seq<real>, yFull: seq<real>, gain: real) returns (xs: seq<real>, ys: seq<real>)
    requires |xFull| == |yFull|
    ensures |xFull| <= MaxDisplayPoints ==> xs == xFull && ys == Display.Scale(yFull, gain)
    ensures |xFull| > MaxDisplayPoints ==>
      var idx := Indices(|xFull|);
      && Boundaries(idx, |yFull|)
      && |xs| == |idx|
      && (forall k :: 0 <= k < |idx| ==> xs[k] == xFull[idx[k]])
      && ys == Display.Scale(Downsampled(yFull, idx), gain)
  {
    var n := |xFull|;
    if n <= MaxDisplayPoints {
      xs, ys := xFull, Display.Scale(yFull, gain);
    } else {
      xs := KeptTimes(xFull);
      ys := KeptPeaks(yFull, gain);
    }
  }

  /** `x_data_full[indices]` */
  method KeptTimes(xFull: seq<real>) returns (xs: seq<real>)
    requires |xFull| > MaxDisplayPoints
    ensures var idx := Indices(|xFull|);
      |xs| == |idx| && forall k :: 0 <= k < |idx| ==> xs[k] == xFull[idx[k]]
  {
    var idx := Indices(|xFull|);
    IndicesShape(|xFull|);
    xs := seq(|idx|, k requires 0 <= k < |idx| => xFull[idx[k]]);
  }

  /** `y_downsampled * gain` */
  method KeptPeaks(yFull: seq<real>, gain: real) returns (ys: seq<real>)
    requires |yFull| > MaxDisplayPoints
    ensures Boundaries(Indices(|yFull|), |yFull|)
    ensures ys == Display.Scale(Downsampled(yFull, Indices(|yFull|)), gain)
  {
    var idx := Indices(|yFull|);
    IndicesAreBoundaries(|yFull|);
    var peaks := ChunkPeaks(yFull, idx);
    ys := Display.Scale(peaks, gain);
  }

  /** A window of 15001 points is decimated with step 1: all positions are kept, the last one only once. */
  lemma SmallestDecimatedWindowKeepsAll()
    ensures Indices(15001) == Arange(0, 15001, 1)
  {
    assert Step(15001) == 1;
    var base := Arange(0, 15001, 1);
    assert base[|base| - 1] == 15000;
  }
}
