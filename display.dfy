/**
 * The numbers the display frame builder hands to the plotting library in normal
 * (fixed-length) mode, and the quantities shared by both modes: gain, the
 * per-channel absolute maximum, the global Y range and the level bar.
 */
module Display {
  import opened Wrappers
  import Capped
  import Levels

  /** One channel's curve: equal-length x and y arrays. */
  datatype Frame = Frame(x: seq<real>, y: seq<real>)

  /** Samples shown per channel in normal mode. */
  const SnapshotLength: nat := 512

  /** `a * gain`, element-wise. */
  function Scale(s: seq<real>, gain: real): (r: seq<real>)
    ensures |r| == |s|
    ensures forall k :: 0 <= k < |s| ==> r[k] == s[k] * gain
  {
    seq(|s|, k requires 0 <= k < |s| => s[k] * gain)
  }

  /** `np.arange(n)` */
  function Arange(n: nat): (r: seq<real>)
    ensures |r| == n
    ensures forall k :: 0 <= k < n ==> r[k] == k as real
  {
    seq(n, k => k as real)
  }

  /** The samples a frame shows: the newest 512 of the channel buffer, or 512 zeros when it is empty. */
  function Snapshot(buffer: seq<real>): (r: seq<real>)
    ensures |buffer| == 0 ==> r == Levels.Zeros(SnapshotLength)
    ensures |buffer| > 0 ==> |r| == Min(|buffer|, SnapshotLength) && r == buffer[|buffer| - |r|..]
  {
    if |buffer| > 0 then Capped.Keep(buffer, SnapshotLength) else Levels.Zeros(SnapshotLength)
  }

  /** The normal-mode frame: the snapshot scaled by the display gain, against sample numbers 0, 1, .... */
  function NormalFrame(buffer: seq<real>, gain: real): (f: Frame)
    ensures |f.x| == |f.y| == (if |buffer| == 0 then SnapshotLength else Min(|buffer|, SnapshotLength))
  {
    var shown := Snapshot(buffer);
    Frame(Arange(|shown|), Scale(shown, gain))
  }

  /**
   * A normal-mode frame plots the newest min(len, 512) buffered samples, in arrival order and
   * scaled by the gain, against 0, 1, ...; an empty buffer plots 512 zeros.
   */
  lemma NormalFrameShowsNewest(buffer: seq<real>, gain: real)
    ensures var f := NormalFrame(buffer, gain);
      && (forall k :: 0 <= k < |f.x| ==> f.x[k] == k as real)
      && (|buffer| == 0 ==> forall k :: 0 <= k < |f.y| ==> f.y[k] == 0.0)
      && (|buffer| > 0 ==> f.y == Scale(buffer[|buffer| - |f.y|..], gain))
  {
    var f := NormalFrame(buffer, gain);
    if |buffer| == 0 {
      forall k | 0 <= k < |f.y| ensures f.y[k] == 0.0 {
        assert Snapshot(buffer)[k] == 0.0;
      }
    }
  }

  /** `np.abs(y).max()`, and 0.0 for an empty array. */
  function MaxAbs(y: seq<real>): (r: real)
    ensures r >= 0.0
    ensures forall k :: 0 <= k < |y| ==> AbsReal(y[k]) <= r
  {
    if y == [] then 0.0
    else
      var m := MaxAbs(y[1..]);
      assert forall k :: 1 <= k < |y| ==> y[k] == y[1..][k - 1];
      if AbsReal(y[0]) >= m then AbsReal(y[0]) else m
  }

  /** Some sample of a non-empty array reaches the absolute maximum. */
  lemma {:induction false} MaxAbsAttained(y: seq<real>) returns (j: nat)
    requires |y| > 0
    ensures j < |y| && AbsReal(y[j]) == MaxAbs(y)
  {
    if |y| == 1 {
      j := 0;
    } else {
      var i := MaxAbsAttained(y[1..]);
      j := if AbsReal(y[0]) >= MaxAbs(y[1..]) then 0 else i + 1;
    }
  }

  /** The absolute maximum is the one bound on |y[k]| that some sample reaches. */
  lemma MaxAbsUnique(y: seq<real>, r: real)
    requires forall k :: 0 <= k < |y| ==> AbsReal(y[k]) <= r
    requires exists k :: 0 <= k < |y| && AbsReal(y[k]) == r
    ensures MaxAbs(y) == r
  {
    var k :| 0 <= k < |y| && AbsReal(y[k]) == r;
    var j := MaxAbsAttained(y);
  }

  /** With a non-negative gain, the absolute maximum of the scaled frame `s` is the gain times that of the samples, `m`. */
  lemma MaxAbsScale(y: seq<real>, gain: real, s: seq<real>, m: real)
    requires gain >= 0.0 && s == Scale(y, gain) && m == MaxAbs(y)
    ensures MaxAbs(s) == m * gain
  {
    if y == [] {
      assert s == [] && m == 0.0;
      assert m * gain == 0.0;
    } else {
      forall k | 0 <= k < |s| ensures AbsReal(s[k]) <= m * gain {
        ScaledSampleBound(y, gain, k, m);
      }
      var j := MaxAbsAttained(y);
      ScaledSampleAt(y, gain, j, m);
      MaxAbsUnique(s, m * gain);
    }
  }

  lemma ScaledSampleAt(y: seq<real>, gain: real, j: int, m: real)
    requires gain >= 0.0 && 0 <= j < |y| && AbsReal(y[j]) == m
    ensures AbsReal(Scale(y, gain)[j]) == m * gain
  {
    assert Scale(y, gain)[j] == y[j] * gain;
    AbsScale(y[j], gain);
  }

  lemma ScaledSampleBound(y: seq<real>, gain: real, k: int, m: real)
    requires gain >= 0.0 && 0 <= k < |y| && AbsReal(y[k]) <= m
    ensures AbsReal(Scale(y, gain)[k]) <= m * gain
  {
    assert Scale(y, gain)[k] == y[k] * gain;
    AbsScaleBound(y[k], m, gain);
  }

  lemma AbsScale(a: real, gain: real)
    requires gain >= 0.0
    ensures AbsReal(a * gain) == AbsReal(a) * gain
  {
    if a < 0.0 {
      assert a * gain == -((-a) * gain);
    }
  }

  lemma AbsScaleBound(a: real, m: real, gain: real)
    requires gain >= 0.0 && AbsReal(a) <= m
    ensures AbsReal(a * gain) <= m * gain
  {
    AbsScale(a, gain);
    ScaleMonotone(m, AbsReal(a), gain);
  }

  lemma ScaleMonotone(a: real, b: real, gain: real)
    requires gain >= 0.0
    ensures a >= b ==> a * gain >= b * gain
  {
    if a >= b {
      assert a * gain - b * gain == (a - b) * gain;
    }
  }

  /** Floor and headroom of the shared Y range. */
  const MinRange: real := 0.1
  const Headroom: real := 1.2
  const Smoothing: real := 0.9

  /**
   * Half the height of the target Y range: 1.2 times the largest per-channel maximum,
   * never less than 0.1 (and 0.1 when there are no channels).
   */
  function RangeTarget(maxes: seq<real>): (r: real)
    ensures r >= MinRange
    ensures forall k :: 0 <= k < |maxes| ==> r >= maxes[k] * Headroom
    ensures |maxes| > 0 ==> r == MinRange || exists k :: 0 <= k < |maxes| && r == maxes[k] * Headroom
    ensures |maxes| == 0 ==> r == MinRange * Headroom
  {
    var globalMax := if |maxes| > 0 then Levels.MaxOf(maxes) else MinRange;
    MaxReal(globalMax * Headroom, MinRange)
  }

  /** The Y range shared by every plot. */
  datatype YRange = YRange(lo: real, hi: real)

  predicate Symmetric(r: YRange) { r.lo == -r.hi }

  /**
   * The new shared range: 0.9 of the previous range plus 0.1 of the target (-size, size);
   * on the first frame the previous range is the target itself.
   */
  function SmoothRange(previous: Option<YRange>, size: real): (r: YRange)
    ensures previous.None? ==> r == YRange(-size, size)
    ensures previous.Some? ==>
      r.hi - size == Smoothing * (previous.value.hi - size) &&
      r.lo + size == Smoothing * (previous.value.lo + size)
  {
    var last := previous.GetOr(YRange(-size, size));
    YRange(last.lo * Smoothing + -size * (1.0 - Smoothing), last.hi * Smoothing + size * (1.0 - Smoothing))
  }

  /** A range symmetric about 0 stays symmetric. */
  lemma SmoothKeepsSymmetry(previous: Option<YRange>, size: real)
    requires previous.Some? ==> Symmetric(previous.value)
    ensures Symmetric(SmoothRange(previous, size))
  {
  }

  /** Once the top of the range is at least 0.1 it stays so, because every target is. */
  lemma SmoothKeepsFloor(previous: Option<YRange>, maxes: seq<real>)
    requires previous.Some? ==> previous.value.hi >= MinRange
    ensures SmoothRange(previous, RangeTarget(maxes)).hi >= MinRange
  {
  }

  /** Smoothing `n` times toward a fixed target. */
  function SmoothN(start: YRange, size: real, n: nat): YRange
  {
    if n == 0 then start else SmoothRange(Some(SmoothN(start, size, n - 1)), size)
  }

  /** Under a fixed target the distance of the top of the range to it shrinks by 0.9 per frame. */
  lemma {:induction false} SmoothConverges(start: YRange, size: real, n: nat)
    ensures SmoothN(start, size, n).hi - size == Levels.Pow(Smoothing, n) * (start.hi - size)
  {
    if n > 0 {
      SmoothConverges(start, size, n - 1);
      var q := Levels.Pow(Smoothing, n - 1);
      assert SmoothN(start, size, n).hi - size == Smoothing * (q * (start.hi - size));
    }
  }

  /** Two channels peaking at 0.5 and 0.2 give the target range (-0.6, 0.6). */
  lemma TwoChannelTarget()
    ensures RangeTarget([0.5, 0.2]) == 0.6
  {
    assert Levels.MaxOf([0.5, 0.2]) == 0.5 by {
      assert [0.5, 0.2][1..] == [0.2];
    }
  }

  /** Width of the level bar: 0.15 of the x extent per unit of level, never wider than the plot. */
  function BarWidth(level: real, maxX: real): (r: real)
    ensures r <= maxX
    ensures 0.0 <= level && 0.0 <= maxX ==> 0.0 <= r
    ensures level * 0.15 <= 1.0 && 0.0 <= maxX ==> r == level * maxX * 0.15
    ensures level * 0.15 > 1.0 && 0.0 <= maxX ==> r == maxX
  {
    MinReal(level * maxX * 0.15, maxX)
  }

  /** The x extent the level bar is measured against: 512 samples, or the time window (at least 1.0). */
  function BarExtent(timePlot: bool, window: real): (r: real)
    ensures r >= 1.0
    ensures !timePlot ==> r == SnapshotLength as real
    ensures timePlot ==> r == MaxReal(window, 1.0)
  {
    if timePlot then MaxReal(window - 0.0, 1.0) else SnapshotLength as real
  }
}
