/**
 * The arithmetic of the per-channel audio callback and of the level statistics:
 * mono extraction, length normalisation, sanitising of non-finite samples, RMS,
 * peak hold with decay, noise floor and moving average.
 *
 * `sqrt` and the 10th percentile are not computed here: they are parameters of
 * function type, and the predicates `IsSqrt` and `IsBoundedStatistic` state the
 * only facts about them that the model relies on.
 */
module Levels {
  import opened Wrappers
  import Capped

  /** One sample as the driver delivers it: a finite float, or NaN / infinity. */
  datatype Sample = Finite(value: real) | NonFinite

  /** The `indata` argument of the stream callback. */
  datatype InData =
    | Missing                                      // `indata is None`
    | Mono(samples: seq<Sample>)                   // a 1-D array
    | Frames(width: nat, rows: seq<seq<Sample>>)   // a 2-D array of `rows` frames of `width` channels

  /** Every row of a 2-D array has the same number of columns. */
  predicate WellShaped(d: InData)
  {
    d.Frames? ==> forall k :: 0 <= k < |d.rows| ==> |d.rows[k]| == d.width
  }

  /** `indata is None or len(indata) == 0` */
  predicate NoInput(d: InData)
  {
    d.Missing? || (d.Mono? && d.samples == []) || (d.Frames? && d.rows == [])
  }

  function ZeroSamples(n: nat): (r: seq<Sample>)
    ensures |r| == n && forall k :: 0 <= k < n ==> r[k] == Finite(0.0)
  {
    seq(n, _ => Finite(0.0))
  }

  function Zeros(n: nat): (r: seq<real>)
    ensures |r| == n && forall k :: 0 <= k < n ==> r[k] == 0.0
  {
    seq(n, _ => 0.0)
  }

  /** The mono signal of a callback block: the first input column, or `frames` zeros when there is no input. */
  function FirstColumn(d: InData, frames: nat): (r: seq<Sample>)
    requires WellShaped(d)
    ensures NoInput(d) ==> r == ZeroSamples(frames)
    ensures d.Mono? && !NoInput(d) ==> r == d.samples
    ensures d.Frames? && !NoInput(d) ==>
      |r| == |d.rows| &&
      forall k :: 0 <= k < |r| ==> r[k] == if d.width >= 1 then d.rows[k][0] else Finite(0.0)
  {
    if NoInput(d) then ZeroSamples(frames)
    else match d
      case Mono(s) => s
      case Frames(w, rows) =>
        if w >= 1 then seq(|rows|, k requires 0 <= k < |rows| => rows[k][0])
        else ZeroSamples(|rows|)
  }

  /** Force a block to exactly `frames` samples: truncate a longer one, zero-pad a shorter one. */
  function Normalize(s: seq<Sample>, frames: nat): (r: seq<Sample>)
    ensures |r| == frames
    ensures forall k :: 0 <= k < frames ==> r[k] == if k < |s| then s[k] else Finite(0.0)
  {
    if |s| > frames then s[..frames] else s + ZeroSamples(frames - |s|)
  }

  /** The stored value of a sample: non-finite samples become 0.0. */
  function Clean(x: Sample): real
  {
    if x.Finite? then x.value else 0.0
  }

  /** `np.where(np.isfinite(a), a, 0.0)` */
  function Sanitize(s: seq<Sample>): (r: seq<real>)
    ensures |r| == |s|
    ensures forall k :: 0 <= k < |s| && s[k].Finite? ==> r[k] == s[k].value
    ensures forall k :: 0 <= k < |s| && !s[k].Finite? ==> r[k] == 0.0
  {
    seq(|s|, k requires 0 <= k < |s| => Clean(s[k]))
  }

  /** The block a callback stores: exactly `frames` values, each the finite input sample or 0.0. */
  function Block(d: InData, frames: nat): (r: seq<real>)
    requires WellShaped(d)
    ensures |r| == frames
    ensures forall k :: 0 <= k < frames ==>
      var col := FirstColumn(d, frames);
      r[k] == if k < |col| && col[k].Finite? then col[k].value else 0.0
  {
    Sanitize(Normalize(FirstColumn(d, frames), frames))
  }

  /** A well-formed input with `frames` finite mono samples is stored unchanged. */
  lemma BlockOfCleanMono(samples: seq<Sample>, frames: nat)
    requires |samples| == frames > 0
    requires forall k :: 0 <= k < frames ==> samples[k].Finite?
    ensures Block(Mono(samples), frames) == seq(frames, k requires 0 <= k < frames => samples[k].value)
  {
  }

  function SumSquares(s: seq<real>): (r: real)
    ensures r >= 0.0
    ensures r == 0.0 <== forall k :: 0 <= k < |s| ==> s[k] == 0.0
  {
    if s == [] then 0.0 else s[0] * s[0] + SumSquares(s[1..])
  }

  function MeanSquare(s: seq<real>): (r: real)
    requires |s| > 0
    ensures r >= 0.0
  {
    SumSquares(s) / (|s| as real)
  }

  /** What the model requires of `np.sqrt` on non-negative arguments. */
  ghost predicate IsSqrt(sqrt: real -> real)
  {
    forall x :: 0.0 <= x ==> 0.0 <= sqrt(x) && sqrt(x) * sqrt(x) == x
  }

  /** The RMS level of a block; 0.0 for an empty block. */
  function Rms(block: seq<real>, sqrt: real -> real): (r: real)
    requires IsSqrt(sqrt)
    ensures r >= 0.0
    ensures |block| == 0 ==> r == 0.0
    ensures |block| > 0 ==> r * r == MeanSquare(block)
  {
    if |block| > 0 then sqrt(MeanSquare(block)) else 0.0
  }

  function Constant(a: real, n: nat): (r: seq<real>)
    ensures |r| == n && forall k :: 0 <= k < n ==> r[k] == a
  {
    seq(n, _ => a)
  }

  lemma {:induction false} SumSquaresConstant(a: real, n: nat)
    ensures SumSquares(Constant(a, n)) == (n as real) * (a * a)
  {
    SumSquaresAllEqual(Constant(a, n), a, a * a);
  }

  /** A block whose every sample is `a` has sum of squares `|s| * sq`, where `sq` is `a * a`. */
  lemma {:induction false} SumSquaresAllEqual(s: seq<real>, a: real, sq: real)
    requires sq == a * a
    requires forall k :: 0 <= k < |s| ==> s[k] == a
    ensures SumSquares(s) == (|s| as real) * sq
  {
    if s != [] {
      var rest := s[1..];
      forall k | 0 <= k < |rest| ensures rest[k] == a {
        assert rest[k] == s[k + 1];
      }
      SumSquaresAllEqual(rest, a, sq);
      SumSquaresStep(s, a, sq);
    }
  }

  /** The induction step of `SumSquaresAllEqual`: one more term equal to `a` adds `a * a`. */
  lemma SumSquaresStep(s: seq<real>, a: real, sq: real)
    requires s != [] && s[0] == a && sq == a * a
    requires SumSquares(s[1..]) == (|s[1..]| as real) * sq
    ensures SumSquares(s) == (|s| as real) * sq
  {
    SumSquaresUnfold(s);
    SumOfEqualStep(SumSquares(s), s[0] * s[0], SumSquares(s[1..]), |s| as real, |s[1..]| as real, sq);
  }

  /** A non-empty sum of squares is its first square plus the rest. */
  lemma SumSquaresUnfold(s: seq<real>)
    requires s != []
    ensures SumSquares(s) == s[0] * s[0] + SumSquares(s[1..])
  {
  }

  /** Adding one more `sq` to `m` of them gives `m + 1` of them. */
  lemma SumOfEqualStep(total: real, head: real, tail: real, n: real, m: real, sq: real)
    requires total == head + tail && head == sq && tail == m * sq && n == m + 1.0
    ensures total == n * sq
  {
    RealMultipleStep(n, sq);
  }

  /** The RMS of a constant block of amplitude `a` is `|a|`. */
  lemma RmsOfConstant(a: real, n: nat, sqrt: real -> real)
    requires IsSqrt(sqrt) && n > 0
    ensures Rms(Constant(a, n), sqrt) == AbsReal(a)
  {
    SumSquaresConstant(a, n);
    var m := MeanSquare(Constant(a, n));
    assert m == a * a;
    var r := Rms(Constant(a, n), sqrt);
    var b := AbsReal(a);
    assert r * r == b * b;
    SquareRootUnique(r, b);
  }

  lemma SquareRootUnique(r: real, b: real)
    requires 0.0 <= r && 0.0 <= b && r * r == b * b
    ensures r == b
  {
    var e := r + b;
    if e != 0.0 {
      assert (r - b) * e == 0.0;
      assert r - b == ((r - b) * e) / e;
    }
  }

  /** Peak hold: instant attack when the new RMS exceeds the peak, otherwise decay by 0.999. */
  function PeakUpdate(peak: real, rms: real): (r: real)
    ensures rms > peak ==> r == rms
    ensures rms <= peak ==> r == peak * 0.999
    ensures 0.0 <= peak && 0.0 <= rms ==> 0.0 <= r <= MaxReal(peak, rms)
  {
    if rms > peak then rms else peak * 0.999
  }

  /** The peak after one callback per RMS value of `rs`, in order. */
  function PeakAfter(peak: real, rs: seq<real>): real
    decreases |rs|
  {
    if rs == [] then peak else PeakAfter(PeakUpdate(peak, rs[0]), rs[1..])
  }

  /** `peak` after `n` decays by 0.999. */
  function Decayed(peak: real, n: nat): real
    decreases n
  {
    if n == 0 then peak else Decayed(peak * 0.999, n - 1)
  }

  function Pow(b: real, n: nat): real
  {
    if n == 0 then 1.0 else b * Pow(b, n - 1)
  }

  lemma {:induction false} DecayedIsPower(peak: real, n: nat)
    ensures Decayed(peak, n) == Pow(0.999, n) * peak
    decreases n
  {
    if n > 0 {
      DecayedIsPower(peak * 0.999, n - 1);
      var q := Pow(0.999, n - 1);
      assert Decayed(peak, n) == q * (peak * 0.999);
      assert Pow(0.999, n) * peak == (0.999 * q) * peak;
    }
  }

  /** While no new RMS exceeds the decaying peak, `n` callbacks multiply it by 0.999^n. */
  lemma {:induction false} PeakDecaysGeometrically(peak: real, rs: seq<real>)
    requires forall k :: 0 <= k < |rs| ==> rs[k] <= Decayed(peak, k)
    ensures PeakAfter(peak, rs) == Decayed(peak, |rs|) == Pow(0.999, |rs|) * peak
    decreases |rs|
  {
    DecayedIsPower(peak, |rs|);
    if rs != [] {
      assert rs[0] <= Decayed(peak, 0);
      var p := PeakUpdate(peak, rs[0]);
      assert p == peak * 0.999;
      forall k | 0 <= k < |rs[1..]| ensures rs[1..][k] <= Decayed(p, k) {
        assert rs[k + 1] <= Decayed(peak, k + 1);
      }
      PeakDecaysGeometrically(p, rs[1..]);
    }
  }

  /** The peak never exceeds a bound that the initial peak and every RMS respect, and never goes negative. */
  lemma {:induction false} PeakStaysBelow(peak: real, rs: seq<real>, bound: real)
    requires 0.0 <= peak <= bound
    requires forall k :: 0 <= k < |rs| ==> 0.0 <= rs[k] <= bound
    ensures 0.0 <= PeakAfter(peak, rs) <= bound
    decreases |rs|
  {
    if rs != [] {
      PeakStaysBelow(PeakUpdate(peak, rs[0]), rs[1..], bound);
    }
  }

  /** An RMS equal to the peak still decays it, so the peak can end just below the current level. */
  lemma PeakCanFallBelowLevel()
    ensures PeakUpdate(1.0, 1.0) == 0.999 && PeakUpdate(1.0, 1.0) < 1.0
  {
  }

  function MaxOf(s: seq<real>): (r: real)
    requires |s| > 0
    ensures forall k :: 0 <= k < |s| ==> s[k] <= r
    ensures exists k :: 0 <= k < |s| && s[k] == r
  {
    if |s| == 1 then s[0]
    else
      var m := MaxOf(s[1..]);
      assert s[1..][0] == s[1];
      if s[0] >= m then s[0] else m
  }

  function MinOf(s: seq<real>): (r: real)
    requires |s| > 0
    ensures forall k :: 0 <= k < |s| ==> r <= s[k]
    ensures exists k :: 0 <= k < |s| && s[k] == r
  {
    if |s| == 1 then s[0]
    else
      var m := MinOf(s[1..]);
      assert s[1..][0] == s[1];
      if s[0] <= m then s[0] else m
  }

  /** What the model requires of `np.percentile(values, 10)`: it lies between the extremes. */
  ghost predicate IsBoundedStatistic(p: seq<real> -> real)
  {
    forall s :: |s| > 0 ==> MinOf(s) <= p(s) <= MaxOf(s)
  }

  /** Entries a noise-floor history needs before the percentile replaces the default. */
  const NoiseFloorMinEntries: nat := 20
  const NoiseFloorDefault: real := 0.001

  /** The noise floor of a channel from its history of RMS values. */
  function NoiseFloor(history: seq<real>, p10: seq<real> -> real): (r: real)
    ensures r >= NoiseFloorDefault
    ensures |history| <= NoiseFloorMinEntries ==> r == NoiseFloorDefault
    ensures |history| > NoiseFloorMinEntries ==> r >= p10(history) && (r == p10(history) || r == NoiseFloorDefault)
  {
    if |history| > NoiseFloorMinEntries then MaxReal(p10(history), NoiseFloorDefault) else NoiseFloorDefault
  }

  /** The noise floor never exceeds the loudest RMS in the history, unless it sits at the 0.001 default. */
  lemma NoiseFloorBounded(history: seq<real>, p10: seq<real> -> real)
    requires IsBoundedStatistic(p10)
    requires |history| > 0
    ensures NoiseFloor(history, p10) <= MaxReal(MaxOf(history), NoiseFloorDefault)
  {
  }

  const AverageWindow: nat := 50

  function Sum(s: seq<real>): real
  {
    if s == [] then 0.0 else s[0] + Sum(s[1..])
  }

  function Mean(s: seq<real>): (r: real)
    requires |s| > 0
    ensures r * (|s| as real) == Sum(s)
  {
    Sum(s) / (|s| as real)
  }

  lemma {:induction false} SumBetween(s: seq<real>, lo: real, hi: real)
    requires forall k :: 0 <= k < |s| ==> lo <= s[k] <= hi
    ensures (|s| as real) * lo <= Sum(s) <= (|s| as real) * hi
  {
    if s != [] {
      SumBetween(s[1..], lo, hi);
    }
  }

  /** A mean lies between any bounds of its entries. */
  lemma MeanBetween(s: seq<real>, lo: real, hi: real)
    requires |s| > 0
    requires forall k :: 0 <= k < |s| ==> lo <= s[k] <= hi
    ensures lo <= Mean(s) <= hi
  {
    SumBetween(s, lo, hi);
    var n := |s| as real;
    assert Sum(s) / n * n == Sum(s);
  }

  /**
   * The moving average after a frame: the mean of the newest min(len, 50) RMS values,
   * or the previous average while the RMS history is empty.
   */
  function NextAverage(previous: real, levels: seq<real>): (r: real)
    ensures |levels| == 0 ==> r == previous
    ensures |levels| > 0 ==> var w := Capped.Keep(levels, AverageWindow); r * (|w| as real) == Sum(w)
  {
    if |levels| > 0 then Mean(Capped.Keep(levels, AverageWindow)) else previous
  }

  /** The moving average stays within the range of the newest RMS values. */
  lemma AverageWithinRecentLevels(previous: real, levels: seq<real>)
    requires |levels| > 0
    ensures var w := Capped.Keep(levels, AverageWindow);
      MinOf(w) <= NextAverage(previous, levels) <= MaxOf(w)
  {
    var w := Capped.Keep(levels, AverageWindow);
    MeanBetween(w, MinOf(w), MaxOf(w));
  }
}
