/**
 * Time-plot mode: every channel keeps a rolling window of (timestamp, sample)
 * pairs in a bounded deque, sized to 0.3 seconds at the highest stream rate.
 * Each display frame stamps the newest snapshot, appends it, and every other
 * frame rebuilds a cached curve whose times start at 0 and are clipped to the
 * adjusted window.
 *
 * The older variant of the display loop stamps each block from the buffer
 * length instead of from the last stored timestamp, refreshes the cache every
 * third frame and skips rendering on a fixed schedule; it is modelled next to
 * the current one.
 */
module TimePlot {
  import opened Wrappers
  import Capped
  import Display

  /** One stored point: seconds since the first stamped sample, and the sample value. */
  datatype TimePoint = TimePoint(t: real, v: real)

  /** Seconds of signal the window holds at rate adjustment 1.0. */
  const WindowSeconds: real := 0.3
  /** Lower bound of the rate adjustment when it sizes the window. */
  const MinAdjust: real := 0.01

  /** Timestamps strictly grow from the oldest point to the newest. */
  predicate Increasing(pts: seq<TimePoint>)
  {
    forall i, j :: 0 <= i < j < |pts| ==> pts[i].t < pts[j].t
  }

  /** Consecutive timestamps are exactly `tps` apart. */
  predicate EvenlySpaced(pts: seq<TimePoint>, tps: real)
  {
    forall k :: 0 < k < |pts| ==> pts[k].t == pts[k - 1].t + tps
  }

  function Values(pts: seq<TimePoint>): (r: seq<real>)
    ensures |r| == |pts| && forall k :: 0 <= k < |pts| ==> r[k] == pts[k].v
  {
    seq(|pts|, k requires 0 <= k < |pts| => pts[k].v)
  }

  function Times(pts: seq<TimePoint>): (r: seq<real>)
    ensures |r| == |pts| && forall k :: 0 <= k < |pts| ==> r[k] == pts[k].t
  {
    seq(|pts|, k requires 0 <= k < |pts| => pts[k].t)
  }

  /** The rate a channel's timestamps use: its stream's rate when positive, else the configured rate. */
  function ChannelRate(streamRate: Option<real>, defaultRate: real): (r: real)
    ensures defaultRate > 0.0 ==> r > 0.0
  {
    if streamRate.Some? && streamRate.value > 0.0 then streamRate.value else defaultRate
  }

  /** Seconds between two samples: `1.0 / rate * adjustment`. */
  function SecondsPerSample(rate: real, adjust: real): real
    requires rate > 0.0
  {
    1.0 / rate * adjust
  }

  lemma SecondsPerSamplePositive(rate: real, adjust: real)
    requires rate > 0.0 && adjust > 0.0
    ensures SecondsPerSample(rate, adjust) > 0.0
  {
    assert 1.0 / rate > 0.0;
  }

  /** `start + arange(n) * tps` zipped with the block. */
  function Stamp(start: real, tps: real, block: seq<real>): (r: seq<TimePoint>)
    ensures |r| == |block|
    ensures forall k :: 0 <= k < |r| ==> r[k].v == block[k] && r[k].t == start + k as real * tps
  {
    seq(|block|, k requires 0 <= k < |block| => TimePoint(start + k as real * tps, block[k]))
  }

  /** Where a new block starts: one sample after the newest stored point, or at 0 in an empty buffer. */
  function NextStart(pts: seq<TimePoint>, tps: real): (r: real)
    ensures |pts| == 0 ==> r == 0.0
    ensures |pts| > 0 && tps > 0.0 ==> pts[|pts| - 1].t < r
  {
    if |pts| > 0 then pts[|pts| - 1].t + tps else 0.0
  }

  /** The buffer after a block is stamped and appended. */
  function AppendBlock(d: Capped.Deque<TimePoint>, block: seq<real>, tps: real): (r: Capped.Deque<TimePoint>)
    ensures r.maxlen == d.maxlen && Values(r.items) == Capped.Keep(Values(d.items) + block, d.maxlen)
  {
    KeptValues(d.items, NextStart(d.items, tps), tps, block, d.maxlen);
    Capped.Extended(d, Stamp(NextStart(d.items, tps), tps, block))
  }

  /** Stamping a block and keeping the newest points keeps exactly the newest samples, in order. */
  lemma KeptValues(pts: seq<TimePoint>, start: real, tps: real, block: seq<real>, cap: nat)
    ensures Values(Capped.Keep(pts + Stamp(start, tps, block), cap)) == Capped.Keep(Values(pts) + block, cap)
  {
    var stamped := Stamp(start, tps, block);
    var all := pts + stamped;
    assert Values(all) == Values(pts) + block by {
      forall k | |pts| <= k < |all| ensures all[k] == stamped[k - |pts|] { }
    }
    ValuesOfKept(all, cap);
  }

  lemma ValuesOfKept(pts: seq<TimePoint>, cap: nat)
    ensures Values(Capped.Keep(pts, cap)) == Capped.Keep(Values(pts), cap)
  {
    var kept := Capped.Keep(pts, cap);
    forall k | 0 <= k < |kept| ensures kept[k] == pts[|pts| - |kept| + k] { }
  }

  lemma ProductMonotone(i: int, j: int, tps: real)
    requires i < j && tps > 0.0
    ensures i as real * tps < j as real * tps
  {
    assert j as real * tps - i as real * tps == (j - i) as real * tps;
  }

  /** A suffix of an increasing (or evenly spaced) sequence is increasing (or evenly spaced). */
  lemma SuffixKeepsOrder(pts: seq<TimePoint>, from: nat, tps: real)
    requires from <= |pts|
    ensures Increasing(pts) ==> Increasing(pts[from..])
    ensures EvenlySpaced(pts, tps) ==> EvenlySpaced(pts[from..], tps)
  {
    var s := pts[from..];
    if Increasing(pts) {
      forall i, j | 0 <= i < j < |s| ensures s[i].t < s[j].t {
        assert s[i] == pts[from + i] && s[j] == pts[from + j];
      }
    }
    if EvenlySpaced(pts, tps) {
      forall k | 0 < k < |s| ensures s[k].t == s[k - 1].t + tps {
        assert s[k] == pts[from + k] && s[k - 1] == pts[from + k - 1];
      }
    }
  }

  /** Two increasing runs, the second starting after the first ends, form one increasing run. */
  lemma ConcatIncreasing(a: seq<TimePoint>, b: seq<TimePoint>)
    requires Increasing(a) && Increasing(b)
    requires |a| > 0 && |b| > 0 ==> a[|a| - 1].t < b[0].t
    ensures Increasing(a + b)
  {
    var all := a + b;
    forall i, j | 0 <= i < j < |all| ensures all[i].t < all[j].t {
      if j < |a| {
        assert all[i] == a[i] && all[j] == a[j];
      } else if i >= |a| {
        assert all[i] == b[i - |a|] && all[j] == b[j - |a|];
      } else {
        assert all[i] == a[i] && all[j] == b[j - |a|];
        assert a[i].t <= a[|a| - 1].t by {
          if i < |a| - 1 { assert a[i].t < a[|a| - 1].t; }
        }
        assert b[0].t <= b[j - |a|].t by {
          if j - |a| > 0 { assert b[0].t < b[j - |a|].t; }
        }
      }
    }
  }

  /** Two evenly spaced runs joined exactly one step apart form one evenly spaced run. */
  lemma ConcatSpaced(a: seq<TimePoint>, b: seq<TimePoint>, tps: real)
    requires EvenlySpaced(a, tps) && EvenlySpaced(b, tps)
    requires |a| > 0 && |b| > 0 ==> b[0].t == a[|a| - 1].t + tps
    ensures EvenlySpaced(a + b, tps)
  {
    var all := a + b;
    forall k | 0 < k < |all| ensures all[k].t == all[k - 1].t + tps {
      if k < |a| {
        assert all[k] == a[k] && all[k - 1] == a[k - 1];
      } else if k == |a| {
        assert all[k] == b[0] && all[k - 1] == a[|a| - 1];
      } else {
        assert all[k] == b[k - |a|] && all[k - 1] == b[k - |a| - 1];
      }
    }
  }

  /** A stamped block is evenly spaced, starts at `start`, and is increasing for a positive step. */
  lemma StampOrdered(start: real, tps: real, block: seq<real>)
    ensures EvenlySpaced(Stamp(start, tps, block), tps)
    ensures tps > 0.0 ==> Increasing(Stamp(start, tps, block))
    ensures |block| > 0 ==> Stamp(start, tps, block)[0].t == start
  {
    StampSpaced(start, tps, block);
    if tps > 0.0 {
      StampIncreasing(start, tps, block);
    }
  }

  lemma StampSpaced(start: real, tps: real, block: seq<real>)
    ensures EvenlySpaced(Stamp(start, tps, block), tps)
  {
    var s := Stamp(start, tps, block);
    forall k | 0 < k < |s| ensures s[k].t == s[k - 1].t + tps {
      RealMultipleStep(k as real, tps);
    }
  }

  lemma StampIncreasing(start: real, tps: real, block: seq<real>)
    requires tps > 0.0
    ensures Increasing(Stamp(start, tps, block))
  {
    var s := Stamp(start, tps, block);
    forall i, j | 0 <= i < j < |s| ensures s[i].t < s[j].t {
      ProductMonotone(i, j, tps);
    }
  }

  /** Keeping the newest items keeps the order. */
  lemma KeepKeepsOrder(all: seq<TimePoint>, cap: nat, tps: real)
    ensures Increasing(all) ==> Increasing(Capped.Keep(all, cap))
    ensures EvenlySpaced(all, tps) ==> EvenlySpaced(Capped.Keep(all, cap), tps)
  {
    SuffixKeepsOrder(all, |all| - |Capped.Keep(all, cap)|, tps);
  }

  /**
   * With a positive time step, appending a block keeps the buffer's timestamps strictly
   * increasing: the block starts after the newest stored point and grows by `tps`.
   */
  lemma AppendKeepsIncreasing(d: Capped.Deque<TimePoint>, block: seq<real>, tps: real)
    requires tps > 0.0 && Increasing(d.items)
    ensures Increasing(AppendBlock(d, block, tps).items)
  {
    var s := Stamp(NextStart(d.items, tps), tps, block);
    StampOrdered(NextStart(d.items, tps), tps, block);
    ConcatIncreasing(d.items, s);
    KeepKeepsOrder(d.items + s, d.maxlen, tps);
  }

  /** Timestamps continue without a gap or an overlap: an evenly spaced buffer stays evenly spaced. */
  lemma AppendKeepsSpacing(d: Capped.Deque<TimePoint>, block: seq<real>, tps: real)
    requires EvenlySpaced(d.items, tps)
    ensures EvenlySpaced(AppendBlock(d, block, tps).items, tps)
  {
    var s := Stamp(NextStart(d.items, tps), tps, block);
    StampOrdered(NextStart(d.items, tps), tps, block);
    ConcatSpaced(d.items, s, tps);
    KeepKeepsOrder(d.items + s, d.maxlen, tps);
  }

  /** The first block stamped into an empty buffer starts at time 0. */
  lemma FirstBlockStartsAtZero(d: Capped.Deque<TimePoint>, block: seq<real>, tps: real)
    requires d.items == [] && d.maxlen >= |block| > 0
    ensures AppendBlock(d, block, tps).items[0].t == 0.0
  {
    var s := Stamp(0.0, tps, block);
    assert d.items + s == s;
  }

  /** The older display loop's block start: the buffer length times the time step. */
  function LengthStart(pts: seq<TimePoint>, tps: real): (r: real)
    ensures |pts| == 0 ==> r == 0.0
  {
    |pts| as real * tps
  }

  /**
   * While the buffer still starts at time 0 and is evenly spaced (nothing evicted yet), the
   * length-based start agrees with the one after the newest point.
   */
  lemma LengthStartAgreesFromZero(pts: seq<TimePoint>, tps: real)
    requires |pts| > 0 && pts[0].t == 0.0 && EvenlySpaced(pts, tps)
    ensures LengthStart(pts, tps) == NextStart(pts, tps)
  {
    SpacedOffset(pts, tps, |pts| - 1);
    RealMultipleStep(|pts| as real, tps);
  }

  /** The older display loop's append, which stamps from the buffer length. */
  function AppendBlockByLength(d: Capped.Deque<TimePoint>, block: seq<real>, tps: real): (r: Capped.Deque<TimePoint>)
    ensures r.maxlen == d.maxlen && Values(r.items) == Values(AppendBlock(d, block, tps).items)
  {
    KeptValues(d.items, LengthStart(d.items, tps), tps, block, d.maxlen);
    Capped.Extended(d, Stamp(LengthStart(d.items, tps), tps, block))
  }

  /**
   * Once the buffer is full its length no longer changes, so every later block of the
   * older variant is stamped from the same start time.
   */
  lemma LengthStartStallsWhenFull(d: Capped.Deque<TimePoint>, block: seq<real>, tps: real)
    requires d.Valid() && |d.items| == d.maxlen
    ensures LengthStart(AppendBlockByLength(d, block, tps).items, tps) == LengthStart(d.items, tps)
  {
    var s := Stamp(LengthStart(d.items, tps), tps, block);
    assert |Capped.Keep(d.items + s, d.maxlen)| == |d.items|;
  }

  /**
   * A full two-point buffer that receives two one-sample blocks at one sample per second:
   * the older variant stamps both at t = 2 and the timestamps stop increasing, while
   * stamping from the newest point keeps them increasing.
   */
  lemma LengthStampingRepeatsTimes()
    ensures var d := Capped.Deque([TimePoint(0.0, 0.0), TimePoint(1.0, 0.0)], 2);
      && Increasing(d.items)
      && !Increasing(AppendBlockByLength(AppendBlockByLength(d, [0.5], 1.0), [0.5], 1.0).items)
      && Increasing(AppendBlock(AppendBlock(d, [0.5], 1.0), [0.5], 1.0).items)
  {
    var d := Capped.Deque([TimePoint(0.0, 0.0), TimePoint(1.0, 0.0)], 2);
    var e := AppendBlockByLength(d, [0.5], 1.0);
    assert e.items == [TimePoint(1.0, 0.0), TimePoint(2.0, 0.5)];
    var f := AppendBlockByLength(e, [0.5], 1.0);
    assert f.items == [TimePoint(2.0, 0.5), TimePoint(2.0, 0.5)];
    assert !(f.items[0].t < f.items[1].t);
    AppendKeepsIncreasing(d, [0.5], 1.0);
    AppendKeepsIncreasing(AppendBlock(d, [0.5], 1.0), [0.5], 1.0);
  }

  /** The time span the display clips to: 0.3 s times the adjustment, the adjustment floored at 0.01. */
  function AdjustedWindow(adjust: real): (w: real)
    ensures w >= WindowSeconds * MinAdjust
    ensures adjust >= MinAdjust ==> w == WindowSeconds * adjust
  {
    WindowSeconds * MaxReal(adjust, MinAdjust)
  }

  /** The cached time-plot curve: times relative to the oldest point, clipped to the window; samples times gain. */
  function NormalisedFrame(pts: seq<TimePoint>, adjust: real, gain: real): (f: Display.Frame)
    ensures |f.x| == |f.y| == |pts|
  {
    if |pts| == 0 then Display.Frame([], [])
    else
      var w := AdjustedWindow(adjust);
      Display.Frame(
        seq(|pts|, k requires 0 <= k < |pts| => Clip(pts[k].t - pts[0].t, 0.0, w)),
        Display.Scale(Values(pts), gain))
  }

  /**
   * The curve starts at x = 0, every x lies in [0, window], y is the sample times gain, and
   * for an increasing buffer x is non-decreasing and exact for every point inside the window.
   */
  lemma NormalisedFrameInWindow(pts: seq<TimePoint>, adjust: real, gain: real)
    ensures var f := NormalisedFrame(pts, adjust, gain);
      && (|pts| > 0 ==> f.x[0] == 0.0)
      && (forall k :: 0 <= k < |pts| ==> 0.0 <= f.x[k] <= AdjustedWindow(adjust))
      && (forall k :: 0 <= k < |pts| ==> f.y[k] == pts[k].v * gain)
      && (Increasing(pts) ==> forall i, j :: 0 <= i < j < |pts| ==> f.x[i] <= f.x[j])
      && (Increasing(pts) ==> forall k :: 0 <= k < |pts| && pts[k].t - pts[0].t <= AdjustedWindow(adjust) ==>
            f.x[k] == pts[k].t - pts[0].t)
  {
    if |pts| > 0 {
      var f := NormalisedFrame(pts, adjust, gain);
      var w := AdjustedWindow(adjust);
      assert forall k :: 0 <= k < |pts| ==> f.x[k] == Clip(pts[k].t - pts[0].t, 0.0, w);
      if Increasing(pts) {
        forall k | 0 < k < |pts| ensures pts[k].t - pts[0].t >= 0.0 {
          assert pts[0].t < pts[k].t;
        }
      }
    }
  }

  /** An evenly spaced buffer's k-th point lies `k * tps` after the oldest one. */
  lemma {:induction false} SpacedOffset(pts: seq<TimePoint>, tps: real, k: nat)
    requires EvenlySpaced(pts, tps) && k < |pts|
    ensures pts[k].t - pts[0].t == k as real * tps
  {
    if k > 0 {
      SpacedOffset(pts, tps, k - 1);
      assert pts[k].t == pts[k - 1].t + tps;
      assert k as real * tps == (k - 1) as real * tps + tps;
    }
  }

  /** The number of points a window holds: `int(0.3 * rate)`. */
  function WindowSamples(rate: real): (n: nat)
    requires rate >= 0.0
    ensures n as real <= WindowSeconds * rate < n as real + 1.0
  {
    (WindowSeconds * rate).Floor
  }

  lemma BelowWindow(k: nat, rate: real, adjust: real)
    requires rate > 0.0 && adjust > 0.0
    requires (k + 1) as real <= WindowSeconds * rate
    ensures k as real * SecondsPerSample(rate, adjust) <= WindowSeconds * adjust
  {
    var q := 1.0 / rate;
    assert q * rate == 1.0;
    assert k as real * q <= WindowSeconds by {
      assert k as real <= WindowSeconds * rate;
      assert k as real * q <= WindowSeconds * rate * q;
    }
    assert k as real * (q * adjust) == (k as real * q) * adjust;
  }

  /**
   * When a buffer is evenly spaced at its channel's rate and holds at most `int(0.3 * rate)`
   * points, every point lies inside the adjusted window, so clipping changes nothing.
   */
  lemma SizedBufferFitsWindow(pts: seq<TimePoint>, rate: real, adjust: real)
    requires rate > 0.0 && adjust > 0.0
    requires EvenlySpaced(pts, SecondsPerSample(rate, adjust))
    requires |pts| <= WindowSamples(rate)
    ensures forall k :: 0 <= k < |pts| ==> 0.0 <= pts[k].t - pts[0].t <= AdjustedWindow(adjust)
  {
    var tps := SecondsPerSample(rate, adjust);
    SecondsPerSamplePositive(rate, adjust);
    forall k | 0 <= k < |pts| ensures 0.0 <= pts[k].t - pts[0].t <= AdjustedWindow(adjust) {
      SpacedOffset(pts, tps, k);
      BelowWindow(k, rate, adjust);
      if k > 0 {
        ProductMonotone(0, k, tps);
      }
      assert WindowSeconds * adjust <= AdjustedWindow(adjust);
    }
  }

  /** The rate of one opened stream, or the configured rate where a stream is missing. */
  function StreamOrDefault(rate: Option<real>, defaultRate: real): real
  {
    rate.GetOr(defaultRate)
  }

  /** `max([s.samplerate or default for s in streams] + [default])` */
  function MaxRate(rates: seq<Option<real>>, defaultRate: real): (r: real)
    ensures r >= defaultRate
    ensures forall k :: 0 <= k < |rates| ==> r >= StreamOrDefault(rates[k], defaultRate)
    ensures r == defaultRate || exists k :: 0 <= k < |rates| && rates[k] == Some(r)
  {
    if rates == [] then defaultRate
    else
      var rest := MaxRate(rates[1..], defaultRate);
      assert forall k :: 1 <= k < |rates| ==> rates[k] == rates[1..][k - 1];
      MaxReal(StreamOrDefault(rates[0], defaultRate), rest)
  }

  /** The cache is rebuilt when it is dirty and the counter hits the period, or when there is none. */
  function RefreshCache(dirty: bool, counter: int, hasCache: bool, period: nat): (r: bool)
    requires period > 0
    ensures !dirty ==> !r
    ensures dirty && !hasCache ==> r
    ensures dirty && hasCache ==> (r <==> counter % period == 0)
  {
    dirty && (counter % period == 0 || !hasCache)
  }

  /** A channel's time-plot state: its window, its cached curve, the dirty flag and the frame counter. */
  datatype TimeChannel = TimeChannel(buffer: Capped.Deque<TimePoint>, cache: Option<Display.Frame>, dirty: bool, counter: int)

  predicate ValidChannel(c: TimeChannel)
  {
    c.buffer.Valid() && Increasing(c.buffer.items)
  }

  /**
   * One display frame of one channel in time-plot mode: the block is stamped and appended,
   * the channel is marked dirty and its counter advanced, the cache is rebuilt when due, and
   * the curve shown is the cache (empty when there is none yet or the buffer is empty).
   */
  function TimeTick(c: TimeChannel, block: seq<real>, tps: real, adjust: real, gain: real): (r: (TimeChannel, Display.Frame))
    ensures r.0.buffer == AppendBlock(c.buffer, block, tps) && r.0.counter == c.counter + 1
  {
    var buffer := AppendBlock(c.buffer, block, tps);
    var counter := c.counter + 1;
    if |buffer.items| == 0 then
      (TimeChannel(buffer, c.cache, true, counter), Display.Frame([], []))
    else if RefreshCache(true, counter, c.cache.Some?, 2) then
      var f := NormalisedFrame(buffer.items, adjust, gain);
      (TimeChannel(buffer, Some(f), false, counter), f)
    else
      (TimeChannel(buffer, c.cache, true, counter), c.cache.GetOr(Display.Frame([], [])))
  }

  /** A tick keeps the window within its bound and its timestamps increasing, and counts one frame. */
  lemma TimeTickKeepsValid(c: TimeChannel, block: seq<real>, tps: real, adjust: real, gain: real)
    requires ValidChannel(c) && tps > 0.0
    ensures var (c', _) := TimeTick(c, block, tps, adjust, gain);
      ValidChannel(c') && c'.counter == c.counter + 1 && c'.buffer.maxlen == c.buffer.maxlen
  {
    AppendKeepsIncreasing(c.buffer, block, tps);
  }

  /**
   * A frame that leaves the channel clean shows the curve rebuilt from the window just
   * updated and caches it; a frame that leaves it dirty keeps the previous cache and shows
   * it (nothing when there is none, or when the window is empty).
   */
  lemma TimeTickShowsFreshOrCached(c: TimeChannel, block: seq<real>, tps: real, adjust: real, gain: real)
    ensures var (c', f) := TimeTick(c, block, tps, adjust, gain);
      && (!c'.dirty ==> f == NormalisedFrame(c'.buffer.items, adjust, gain) && c'.cache == Some(f))
      && (c'.dirty ==> c'.cache == c.cache)
      && (c'.dirty && |c'.buffer.items| > 0 ==> f == c.cache.GetOr(Display.Frame([], [])))
      && (|c'.buffer.items| == 0 ==> c'.dirty && f == Display.Frame([], []))
  {
  }

  /** A frame whose counter value is due (or that finds no cache) leaves a non-empty window's channel clean. */
  lemma TimeTickCleanWhenDue(c: TimeChannel, block: seq<real>, tps: real, adjust: real, gain: real)
    requires |AppendBlock(c.buffer, block, tps).items| > 0
    requires (c.counter + 1) % 2 == 0 || c.cache.None?
    ensures !TimeTick(c, block, tps, adjust, gain).0.dirty
  {
  }

  /** Of two consecutive frames of a non-empty window, at least one rebuilds the curve and leaves the channel clean. */
  lemma CacheRebuiltEveryOtherFrame(c: TimeChannel, b1: seq<real>, b2: seq<real>, tps: real, adjust: real, gain: real)
    requires c.buffer.Valid()
    requires |c.buffer.items| > 0 || (|b1| > 0 && c.buffer.maxlen > 0)
    ensures var c1 := TimeTick(c, b1, tps, adjust, gain).0;
      !c1.dirty || !TimeTick(c1, b2, tps, adjust, gain).0.dirty
  {
    AppendNonEmpty(c.buffer, b1, tps);
    var c1 := TimeTick(c, b1, tps, adjust, gain).0;
    if (c.counter + 1) % 2 == 0 {
      TimeTickCleanWhenDue(c, b1, tps, adjust, gain);
    } else {
      SecondTickClean(c, b1, b2, tps, adjust, gain);
    }
  }

  lemma NextIsEven(n: int)
    requires n % 2 != 0
    ensures (n + 1) % 2 == 0
  {
  }

  lemma SecondTickClean(c: TimeChannel, b1: seq<real>, b2: seq<real>, tps: real, adjust: real, gain: real)
    requires AppendBlock(c.buffer, b1, tps).Valid() && |AppendBlock(c.buffer, b1, tps).items| > 0
    requires (c.counter + 1) % 2 != 0
    ensures !TimeTick(TimeTick(c, b1, tps, adjust, gain).0, b2, tps, adjust, gain).0.dirty
  {
    var c1 := TimeTick(c, b1, tps, adjust, gain).0;
    AppendNonEmpty(c1.buffer, b2, tps);
    NextIsEven(c.counter + 1);
    TimeTickCleanWhenDue(c1, b2, tps, adjust, gain);
  }

  lemma AppendNonEmpty(d: Capped.Deque<TimePoint>, block: seq<real>, tps: real)
    requires d.Valid()
    requires |d.items| > 0 || (|block| > 0 && d.maxlen > 0)
    ensures |AppendBlock(d, block, tps).items| > 0 && AppendBlock(d, block, tps).Valid()
  {
    var s := Stamp(NextStart(d.items, tps), tps, block);
    assert |Capped.Keep(d.items + s, d.maxlen)| == Min(|d.items| + |s|, d.maxlen);
  }

  /** The older display loop skips drawing every third frame in time-plot mode and every fifth otherwise. */
  function SkipRendering(frameCounter: int, timePlot: bool): (r: bool)
    ensures timePlot ==> (r <==> frameCounter % 3 == 0)
    ensures !timePlot ==> (r <==> frameCounter % 5 == 0)
  {
    frameCounter % (if timePlot then 3 else 5) == 0
  }

  /** Drawing is never skipped on two consecutive frames, in either mode. */
  lemma NeverSkipsTwice(frameCounter: int, timePlot: bool)
    ensures !(SkipRendering(frameCounter, timePlot) && SkipRendering(frameCounter + 1, timePlot))
  {
    var p := if timePlot then 3 else 5;
    if frameCounter % p == 0 {
      assert (frameCounter + 1) % p == 1;
    }
  }

  /** Of any three consecutive frames, the older loop skips exactly one in time-plot mode. */
  lemma SkipsOneInThree(frameCounter: int)
    ensures var skipped := (if SkipRendering(frameCounter, true) then 1 else 0)
      + (if SkipRendering(frameCounter + 1, true) then 1 else 0)
      + (if SkipRendering(frameCounter + 2, true) then 1 else 0);
      skipped == 1
  {
    var m := frameCounter % 3;
    assert (frameCounter + 1) % 3 == (m + 1) % 3;
    assert (frameCounter + 2) % 3 == (m + 2) % 3;
  }

  /** With the older period of 3, a dirty cache is rebuilt within any three consecutive counter values. */
  lemma LengthCacheRebuiltWithinThree(counter: int, hasCache: bool)
    ensures RefreshCache(true, counter, hasCache, 3)
         || RefreshCache(true, counter + 1, hasCache, 3)
         || RefreshCache(true, counter + 2, hasCache, 3)
  {
    var m := counter % 3;
    assert (counter + 1) % 3 == (m + 1) % 3;
    assert (counter + 2) % 3 == (m + 2) % 3;
  }
}
