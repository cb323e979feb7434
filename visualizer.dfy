/**
 * The visualizer window's state and its four operations on it: the per-channel
 * audio callback, the display frame, starting and stopping the streams, and the
 * settings dialog's mode and rate-adjustment changes.
 *
 * The source keeps one parallel list per quantity (`audio_buffers`,
 * `current_levels`, `time_plot_cache`, ...); here each channel's entries are one
 * `Channel` record, and the window holds the sequence of records.
 */
module Visualizer {
  import opened Wrappers
  import Capped
  import Levels
  import Display
  import TimePlot
  import Session

  /** Capacities of the per-channel deques. */
  const BufferSize: nat := 2048
  const LevelHistory: nat := 100
  const NoiseHistory: nat := 200
  /** Time-plot window capacity before the first resize (0.3 s at 48 kHz). */
  const InitialWindowPoints: nat := 14400
  /** The older window's time-plot capacity. */
  const LegacyWindowPoints: nat := 1000000
  /** The rate-adjustment bounds of the settings dialog. */
  const MinRateAdjust: real := 0.1
  const MaxRateAdjust: real := 2.0
  /** The display-gain bounds of the settings dialog. */
  const MaxGain: real := 2.0

  /** One started input stream. */
  datatype Stream = Stream(channel: nat, device: Option<int>, rate: int)

  /** Everything the window keeps for one microphone. */
  datatype Channel = Channel(
    audio: Capped.Deque<real>,        // newest samples
    levels: Capped.Deque<real>,       // RMS history for the moving average
    noise: Capped.Deque<real>,        // RMS history for the noise floor
    current: real,                    // RMS of the latest block
    peak: real,                       // peak-hold level
    average: real,                    // moving average of the RMS history
    noiseFloor: real,
    time: TimePlot.TimeChannel,       // time-plot window, cache, dirty flag, counter
    shown: Display.Frame,             // the curve handed to the plot in the last frame
    micMax: real,                     // largest |y| of that curve
    barWidth: real)                   // width of the level bar

  predicate ChannelValid(c: Channel)
  {
    && c.audio.Valid() && c.audio.maxlen == BufferSize
    && c.levels.Valid() && c.levels.maxlen == LevelHistory
    && c.noise.Valid() && c.noise.maxlen == NoiseHistory
    && TimePlot.ValidChannel(c.time)
    && 0.0 <= c.current && 0.0 <= c.peak
    && c.noiseFloor >= Levels.NoiseFloorDefault
    && |c.shown.x| == |c.shown.y|
    && (c.time.cache.Some? ==> |c.time.cache.value.x| == |c.time.cache.value.y|)
    && 0.0 <= c.micMax && 0.0 <= c.barWidth
  }

  function InitialChannel(): (c: Channel)
    ensures ChannelValid(c)
  {
    Channel(Capped.Empty(BufferSize), Capped.Empty(LevelHistory), Capped.Empty(NoiseHistory),
      0.0, 0.0, 0.0, Levels.NoiseFloorDefault,
      TimePlot.TimeChannel(Capped.Empty(InitialWindowPoints), None, true, 0),
      Display.Frame([], []), 0.0, 0.0)
  }

  // ---------------------------------------------------------------- callback

  /** One callback's effect on its channel. */
  function AfterCallback(c: Channel, indata: Levels.InData, frames: nat, sqrt: real -> real): (r: Channel)
    requires Levels.WellShaped(indata) && Levels.IsSqrt(sqrt)
    ensures r.current >= 0.0 && |r.audio.items| == Min(|c.audio.items| + frames, c.audio.maxlen)
    ensures r == c.(current := r.current, levels := r.levels, noise := r.noise, peak := r.peak, audio := r.audio)
  {
    var block := Levels.Block(indata, frames);
    Absorbed(c, block, Levels.Rms(block, sqrt))
  }

  /** The channel after taking in the sanitised `block` whose RMS level is `rms`. */
  function Absorbed(c: Channel, block: seq<real>, rms: real): (r: Channel)
    ensures r == c.(current := rms, levels := r.levels, noise := r.noise, peak := r.peak, audio := r.audio)
    ensures r.audio.maxlen == c.audio.maxlen && |r.audio.items| == Min(|c.audio.items| + |block|, c.audio.maxlen)
    ensures |block| <= c.audio.maxlen ==> r.audio.items[|r.audio.items| - |block|..] == block
  {
    c.(current := rms,
       levels := Capped.Extended(c.levels, [rms]),
       noise := Capped.Extended(c.noise, [rms]),
       peak := Levels.PeakUpdate(c.peak, rms),
       audio := Capped.Extended(c.audio, block))
  }

  /** Taking in a block with a non-negative level keeps the channel valid; see `CallbackKeepsChannel`. */
  lemma AbsorbedKeepsChannel(c: Channel, block: seq<real>, rms: real)
    requires ChannelValid(c) && rms >= 0.0
    ensures var r := Absorbed(c, block, rms);
      && ChannelValid(r)
      && |r.levels.items| > 0 && r.levels.items[|r.levels.items| - 1] == rms
      && |r.noise.items| > 0 && r.noise.items[|r.noise.items| - 1] == rms
      && r.peak <= MaxReal(c.peak, rms)
      && |r.audio.items| == Min(|c.audio.items| + |block|, BufferSize)
      && r.audio.items == (c.audio.items + block)[|c.audio.items| + |block| - |r.audio.items|..]
  {
  }

  /**
   * A callback keeps every deque within its capacity and the levels non-negative. The
   * latest RMS becomes the current level and the newest entry of both histories, the peak
   * follows the peak-hold rule, and the sample buffer holds the newest 2048 samples of the
   * old contents followed by exactly `frames` sanitised samples of the block.
   */
  lemma CallbackKeepsChannel(c: Channel, indata: Levels.InData, frames: nat, sqrt: real -> real)
    requires ChannelValid(c) && Levels.WellShaped(indata) && Levels.IsSqrt(sqrt)
    ensures var r := AfterCallback(c, indata, frames, sqrt);
      var block := Levels.Block(indata, frames);
      && ChannelValid(r)
      && r.current == Levels.Rms(block, sqrt)
      && |r.levels.items| > 0 && r.levels.items[|r.levels.items| - 1] == r.current
      && |r.noise.items| > 0 && r.noise.items[|r.noise.items| - 1] == r.current
      && r.peak == Levels.PeakUpdate(c.peak, r.current) && r.peak <= MaxReal(c.peak, r.current)
      && |r.audio.items| == Min(|c.audio.items| + frames, BufferSize)
      && r.audio.items == (c.audio.items + block)[|c.audio.items| + frames - |r.audio.items|..]
      && r.time == c.time && r.shown == c.shown
  {
    var block := Levels.Block(indata, frames);
    AbsorbedKeepsChannel(c, block, Levels.Rms(block, sqrt));
  }

  /** The callback's updates to one channel, one field at a time. */
  method AbsorbBlock(c: Channel, indata: Levels.InData, frames: nat, sqrt: real -> real) returns (r: Channel)
    requires ChannelValid(c) && Levels.WellShaped(indata) && Levels.IsSqrt(sqrt)
    ensures r == AfterCallback(c, indata, frames, sqrt)
  {
    var block := Levels.Block(indata, frames);
    var rms := Levels.Rms(block, sqrt);
    r := c.(current := rms);
    r := r.(levels := Capped.Append(r.levels, rms));
    r := r.(noise := Capped.Append(r.noise, rms));
    r := r.(peak := Levels.PeakUpdate(r.peak, rms));
    var audio := Capped.Extend(r.audio, block);
    r := r.(audio := audio);
  }

  /** Two callbacks append their blocks in arrival order, as one extension by both. */
  lemma CallbacksKeepArrivalOrder(c: Channel, d1: Levels.InData, d2: Levels.InData, frames: nat, sqrt: real -> real)
    requires Levels.WellShaped(d1) && Levels.WellShaped(d2) && Levels.IsSqrt(sqrt)
    ensures AfterCallback(AfterCallback(c, d1, frames, sqrt), d2, frames, sqrt).audio
         == Capped.Extended(c.audio, Levels.Block(d1, frames) + Levels.Block(d2, frames))
  {
    Capped.ExtendedTwice(c.audio, Levels.Block(d1, frames), Levels.Block(d2, frames));
  }

  // ---------------------------------------------------------------- display frame

  /** The rates of the started streams, as `max_sample_rate` sees them. */
  function StreamRates(streams: seq<Stream>): (r: seq<Option<real>>)
    ensures |r| == |streams| && forall k :: 0 <= k < |streams| ==> r[k] == Some(streams[k].rate as real)
  {
    seq(|streams|, k requires 0 <= k < |streams| => Some(streams[k].rate as real))
  }

  /** `int(0.3 * max_sample_rate)`: the time-plot capacity the frame enforces. */
  function WindowCap(streams: seq<Stream>, sampleRate: int): (r: nat)
    requires sampleRate > 0
    ensures TimePlot.WindowSamples(sampleRate as real) <= r
    ensures forall k :: 0 <= k < |streams| && streams[k].rate > 0 ==> TimePlot.WindowSamples(streams[k].rate as real) <= r
    ensures r == TimePlot.WindowSamples(sampleRate as real)
      || exists k :: 0 <= k < |streams| && streams[k].rate > 0 && r == TimePlot.WindowSamples(streams[k].rate as real)
  {
    var m := TimePlot.MaxRate(StreamRates(streams), sampleRate as real);
    MaxRateIsAStreamRate(streams, sampleRate);
    TimePlot.WindowSamples(m)
  }

  /** The highest rate is the configured one or that of a started stream with a positive rate. */
  lemma MaxRateIsAStreamRate(streams: seq<Stream>, sampleRate: int)
    requires sampleRate > 0
    ensures var m := TimePlot.MaxRate(StreamRates(streams), sampleRate as real);
      m == sampleRate as real || exists k :: 0 <= k < |streams| && streams[k].rate > 0 && streams[k].rate as real == m
  {
    var m := TimePlot.MaxRate(StreamRates(streams), sampleRate as real);
    if m != sampleRate as real {
      var k :| 0 <= k < |StreamRates(streams)| && StreamRates(streams)[k] == Some(m);
      assert streams[k].rate as real == m;
    }
  }

  /** The time step of channel `i`: its stream's rate when it has a positive one, else the configured rate. */
  function ChannelStep(streams: seq<Stream>, i: nat, sampleRate: int, adjust: real): (r: real)
    requires sampleRate > 0
    ensures i < |streams| && streams[i].rate > 0 ==> r == TimePlot.SecondsPerSample(streams[i].rate as real, adjust)
    ensures !(i < |streams| && streams[i].rate > 0) ==> r == TimePlot.SecondsPerSample(sampleRate as real, adjust)
  {
    var rate := TimePlot.ChannelRate(if i < |streams| then Some(streams[i].rate as real) else None, sampleRate as real);
    TimePlot.SecondsPerSample(rate, adjust)
  }

  lemma ChannelStepPositive(streams: seq<Stream>, i: nat, sampleRate: int, adjust: real)
    requires sampleRate > 0 && adjust > 0.0
    ensures ChannelStep(streams, i, sampleRate, adjust) > 0.0
  {
    var rate := TimePlot.ChannelRate(if i < |streams| then Some(streams[i].rate as real) else None, sampleRate as real);
    TimePlot.SecondsPerSamplePositive(rate, adjust);
  }

  /** A window whose capacity differs is rebuilt with the new capacity (newest points kept), and its cache dropped. */
  function Resize(c: Channel, cap: nat): (r: Channel)
    ensures r == c.(time := r.time) && r.time.counter == c.time.counter && r.time.buffer.maxlen == cap
    ensures c.time.buffer.maxlen != cap ==>
      r.time.buffer.items == Capped.Keep(c.time.buffer.items, cap) && r.time.cache.None? && r.time.dirty
    ensures c.time.buffer.maxlen == cap ==> r == c
  {
    if c.time.buffer.maxlen != cap then
      c.(time := TimePlot.TimeChannel(Capped.Resized(c.time.buffer, cap), None, true, c.time.counter))
    else c
  }

  /** 512 zeros against 0..511: what is drawn when there is nothing else. */
  function Placeholder(): (f: Display.Frame)
    ensures |f.x| == |f.y| == Display.SnapshotLength
  {
    Display.Frame(Display.Arange(Display.SnapshotLength), Levels.Zeros(Display.SnapshotLength))
  }

  /**
   * One channel's part of a display frame: the curve (a normal-mode snapshot, or a
   * time-plot tick on the newest snapshot), the placeholder when that curve is empty,
   * its absolute maximum, and the noise floor.
   */
  function Draw(c: Channel, timePlot: bool, tps: real, adjust: real, gain: real, p10: seq<real> -> real): (r: Channel)
    ensures r == c.(time := r.time, shown := r.shown, micMax := r.micMax, noiseFloor := r.noiseFloor)
    ensures |r.shown.y| > 0 && r.micMax >= 0.0
    ensures timePlot ==> r.time.buffer == TimePlot.AppendBlock(c.time.buffer, Display.Snapshot(c.audio.items), tps)
    ensures !timePlot ==> r.time == c.time
  {
    var snapshot := Display.Snapshot(c.audio.items);
    var tick := TimePlot.TimeTick(c.time, snapshot, tps, adjust, gain);
    var time := if timePlot then tick.0 else c.time;
    var curve := if timePlot then tick.1 else Display.NormalFrame(c.audio.items, gain);
    c.(time := time,
       shown := if |curve.y| == 0 then Placeholder() else curve,
       micMax := Display.MaxAbs(curve.y),
       noiseFloor := Levels.NoiseFloor(c.noise.items, p10))
  }

  /** Everything a display frame does to channel `i`, in the order the frame does it. */
  function FrameChannel(c: Channel, i: nat, streams: seq<Stream>, sampleRate: int, timePlot: bool,
                        adjust: real, gain: real, p10: seq<real> -> real): (r: Channel)
    requires sampleRate > 0
    ensures r.audio == c.audio && r.levels == c.levels && r.noise == c.noise
    ensures r.current == c.current && r.peak == c.peak && |r.shown.y| > 0
  {
    var resized := if timePlot then Resize(c, WindowCap(streams, sampleRate)) else c;
    var drawn := Draw(resized, timePlot, ChannelStep(streams, i, sampleRate, adjust), adjust, gain, p10);
    var barred := drawn.(barWidth := Display.BarWidth(drawn.current, Display.BarExtent(timePlot, TimePlot.AdjustedWindow(adjust))));
    barred.(average := Levels.NextAverage(barred.average, barred.levels.items))
  }

  /** The per-channel maxima the shared range is computed from. */
  function MicMaxes(cs: seq<Channel>): (r: seq<real>)
    ensures |r| == |cs| && forall i :: 0 <= i < |cs| ==> r[i] == cs[i].micMax
  {
    seq(|cs|, i requires 0 <= i < |cs| => cs[i].micMax)
  }

  /** The shared range is symmetric about 0 and at least 0.1 high. */
  predicate RangeValid(r: Option<Display.YRange>)
  {
    r.Some? ==> Display.Symmetric(r.value) && r.value.hi >= Display.MinRange
  }

  lemma ResizeKeepsChannel(c: Channel, cap: nat)
    requires ChannelValid(c)
    ensures ChannelValid(Resize(c, cap)) && Resize(c, cap).time.buffer.maxlen == cap
    ensures Resize(c, cap).time.buffer.items == Capped.Keep(c.time.buffer.items, cap)
    ensures Resize(c, cap) == c.(time := Resize(c, cap).time) && Resize(c, cap).time.counter == c.time.counter
    ensures c.time.buffer.maxlen != cap ==> Resize(c, cap).time.cache.None? && Resize(c, cap).time.dirty
    ensures c.time.buffer.maxlen == cap ==> Resize(c, cap) == c
  {
    TimePlot.KeepKeepsOrder(c.time.buffer.items, cap, 0.0);
  }

  lemma MaxAbsOfZeros(n: nat)
    ensures Display.MaxAbs(Levels.Zeros(n)) == 0.0
  {
    if n > 0 {
      var j := Display.MaxAbsAttained(Levels.Zeros(n));
    }
  }

  /**
   * In normal mode a frame shows the normal-mode snapshot and leaves the time plot alone; in
   * time-plot mode it shows the tick's curve, or 512 zeros when that is empty. Either way the
   * channel's maximum is the largest |y| of the curve shown and bounds every shown sample.
   */
  lemma DrawShows(c: Channel, timePlot: bool, tps: real, adjust: real, gain: real, p10: seq<real> -> real)
    requires ChannelValid(c) && tps > 0.0
    ensures var r := Draw(c, timePlot, tps, adjust, gain, p10);
      var tick := TimePlot.TimeTick(c.time, Display.Snapshot(c.audio.items), tps, adjust, gain);
      && ChannelValid(r)
      && (!timePlot ==> r.time == c.time && r.shown == Display.NormalFrame(c.audio.items, gain))
      && (timePlot ==> r.time == tick.0 && r.shown == (if |tick.1.y| == 0 then Placeholder() else tick.1))
      && r.micMax == Display.MaxAbs(r.shown.y)
      && (forall k :: 0 <= k < |r.shown.y| ==> AbsReal(r.shown.y[k]) <= r.micMax)
      && r.noiseFloor == Levels.NoiseFloor(c.noise.items, p10)
  {
    var snapshot := Display.Snapshot(c.audio.items);
    TimePlot.TimeTickKeepsValid(c.time, snapshot, tps, adjust, gain);
    TimePlot.TimeTickShowsFreshOrCached(c.time, snapshot, tps, adjust, gain);
    MaxAbsOfZeros(Display.SnapshotLength);
    var f := Display.NormalFrame(c.audio.items, gain);
    assert |f.y| > 0;
  }

  lemma DrawKeepsValid(c: Channel, timePlot: bool, tps: real, adjust: real, gain: real, p10: seq<real> -> real)
    requires ChannelValid(c) && tps > 0.0
    ensures ChannelValid(Draw(c, timePlot, tps, adjust, gain, p10))
  {
    DrawShows(c, timePlot, tps, adjust, gain, p10);
  }

  /** Every sample a frame shows, with 20% headroom, fits inside the target half-range. */
  lemma TargetCoversShownCurves(cs: seq<Channel>)
    requires forall i :: 0 <= i < |cs| ==> forall k :: 0 <= k < |cs[i].shown.y| ==> AbsReal(cs[i].shown.y[k]) <= cs[i].micMax
    ensures forall i, k :: 0 <= i < |cs| && 0 <= k < |cs[i].shown.y| ==>
      AbsReal(cs[i].shown.y[k]) * Display.Headroom <= Display.RangeTarget(MicMaxes(cs))
  {
    var t := Display.RangeTarget(MicMaxes(cs));
    forall i, k | 0 <= i < |cs| && 0 <= k < |cs[i].shown.y|
      ensures AbsReal(cs[i].shown.y[k]) * Display.Headroom <= t
    {
      assert t >= MicMaxes(cs)[i] * Display.Headroom;
      Display.ScaleMonotone(cs[i].micMax, AbsReal(cs[i].shown.y[k]), Display.Headroom);
    }
  }

  /** `r` is `start` after the first phase of a frame: in time-plot mode every window gets capacity `cap`. */
  predicate ResizedAll(start: seq<Channel>, r: seq<Channel>, timePlot: bool, cap: nat)
  {
    |r| == |start| && forall i :: 0 <= i < |start| ==> r[i] == if timePlot then Resize(start[i], cap) else start[i]
  }

  /** `r` is `start` with every channel drawn. */
  predicate DrawnAll(start: seq<Channel>, r: seq<Channel>, streams: seq<Stream>, sampleRate: int, timePlot: bool,
                     adjust: real, gain: real, p10: seq<real> -> real)
    requires sampleRate > 0
  {
    |r| == |start| &&
    forall i :: 0 <= i < |start| ==> r[i] == Draw(start[i], timePlot, ChannelStep(streams, i, sampleRate, adjust), adjust, gain, p10)
  }

  /** `r` is `start` with every level bar sized against the x extent. */
  predicate BarredAll(start: seq<Channel>, r: seq<Channel>, timePlot: bool, adjust: real)
  {
    |r| == |start| &&
    forall i :: 0 <= i < |start| ==>
      r[i] == start[i].(barWidth := Display.BarWidth(start[i].current, Display.BarExtent(timePlot, TimePlot.AdjustedWindow(adjust))))
  }

  /** `r` is `start` with every moving average updated. */
  predicate AveragedAll(start: seq<Channel>, r: seq<Channel>)
  {
    |r| == |start| &&
    forall i :: 0 <= i < |start| ==> r[i] == start[i].(average := Levels.NextAverage(start[i].average, start[i].levels.items))
  }

  /** The four phases of a display frame, each applied to every channel, compose to `FrameChannel`. */
  lemma FramePhases(start: seq<Channel>, resized: seq<Channel>, drawn: seq<Channel>, barred: seq<Channel>, final: seq<Channel>,
                    streams: seq<Stream>, sampleRate: int, timePlot: bool, adjust: real, gain: real, p10: seq<real> -> real)
    requires sampleRate > 0
    requires ResizedAll(start, resized, timePlot, WindowCap(streams, sampleRate))
    requires DrawnAll(resized, drawn, streams, sampleRate, timePlot, adjust, gain, p10)
    requires |drawn| > 0 ==> BarredAll(drawn, barred, timePlot, adjust)
    requires |drawn| == 0 ==> barred == drawn
    requires AveragedAll(barred, final)
    ensures |final| == |start|
    ensures forall i :: 0 <= i < |start| ==>
      final[i] == FrameChannel(start[i], i, streams, sampleRate, timePlot, adjust, gain, p10)
    ensures MicMaxes(final) == MicMaxes(drawn)
  {
  }

  /**
   * A display frame only reads what the callbacks collect (samples, histories, levels). In
   * normal mode it shows the normal-mode snapshot and leaves the time plot alone; in
   * time-plot mode the window ends at the frame's capacity. The maximum is that of the curve
   * shown, the noise floor and moving average come from the histories, and the bar is at
   * most as wide as the plot's x extent.
   */
  lemma FrameChannelEffects(c: Channel, i: nat, streams: seq<Stream>, sampleRate: int, timePlot: bool,
                            adjust: real, gain: real, p10: seq<real> -> real)
    requires ChannelValid(c) && sampleRate > 0 && adjust > 0.0
    ensures var r := FrameChannel(c, i, streams, sampleRate, timePlot, adjust, gain, p10);
      && ChannelValid(r)
      && r.audio == c.audio && r.levels == c.levels && r.noise == c.noise
      && r.current == c.current && r.peak == c.peak
      && (!timePlot ==> r.time == c.time && r.shown == Display.NormalFrame(c.audio.items, gain))
      && (timePlot ==> r.time.buffer.maxlen == WindowCap(streams, sampleRate) && r.time.counter == c.time.counter + 1)
      && r.micMax == Display.MaxAbs(r.shown.y)
      && r.noiseFloor == Levels.NoiseFloor(c.noise.items, p10)
      && r.average == Levels.NextAverage(c.average, c.levels.items)
      && r.barWidth <= Display.BarExtent(timePlot, TimePlot.AdjustedWindow(adjust))
  {
    var cap := WindowCap(streams, sampleRate);
    var resized := if timePlot then Resize(c, cap) else c;
    if timePlot {
      ResizeKeepsChannel(c, cap);
    }
    var tps := ChannelStep(streams, i, sampleRate, adjust);
    ChannelStepPositive(streams, i, sampleRate, adjust);
    DrawShows(resized, timePlot, tps, adjust, gain, p10);
    TimePlot.TimeTickKeepsValid(resized.time, Display.Snapshot(resized.audio.items), tps, adjust, gain);
  }

  // ---------------------------------------------------------------- start / stop

  /** The stream channel `ch` opens, or None when its device is invalid or no rate starts. */
  function ChannelStream(ch: nat, devices: Option<seq<Option<int>>>, query: int -> Option<Session.DeviceInfo>,
                         attempt: (Option<int>, int) -> Session.Attempt, sampleRate: int): (r: Option<Stream>)
    ensures r.Some? ==> r.value.channel == ch && r.value.device == Session.DeviceFor(devices, ch)
    ensures r.Some? ==> attempt(r.value.device, r.value.rate) == Session.Started
  {
    var device := Session.DeviceFor(devices, ch);
    match Session.PreferredRate(device, query, sampleRate)
      case None => None
      case Some(preferred) =>
        match Session.TryRates(Session.RatesToTry(preferred), r => attempt(device, r))
          case None => None
          case Some(rate) => Some(Stream(ch, device, rate))
  }

  /** The streams start-up opens, channel by channel, and whether it got through every channel. */
  datatype StartPlan = StartPlan(started: seq<Stream>, ok: bool)

  /** Channel `ch`'s attempt to open, as start-up makes it with the given devices, backend and rate. */
  function ChannelOpener(devices: Option<seq<Option<int>>>, query: int -> Option<Session.DeviceInfo>,
                         attempt: (Option<int>, int) -> Session.Attempt, sampleRate: int): nat -> Option<Stream>
  {
    (ch: nat) => ChannelStream(ch, devices, query, attempt, sampleRate)
  }

  /** The opener gives channel `ch` the stream `ChannelStream` chooses for it. */
  lemma OpenerOpens(devices: Option<seq<Option<int>>>, query: int -> Option<Session.DeviceInfo>,
                    attempt: (Option<int>, int) -> Session.Attempt, sampleRate: int, ch: nat)
    ensures ChannelOpener(devices, query, attempt, sampleRate)(ch) == ChannelStream(ch, devices, query, attempt, sampleRate)
  {
  }

  /** The plan for channels `ch` to `n - 1`, each opened by `open`: stop at the first channel that cannot open. */
  function PlanFrom(ch: nat, n: nat, open: nat -> Option<Stream>): (r: StartPlan)
    ensures ch <= n ==> |r.started| <= n - ch && (r.ok <==> |r.started| == n - ch)
    decreases n - ch
  {
    if ch >= n then StartPlan([], true)
    else match open(ch)
      case None => StartPlan([], false)
      case Some(s) =>
        var rest := PlanFrom(ch + 1, n, open);
        StartPlan([s] + rest.started, rest.ok)
  }

  /**
   * Start-up opens the channels in order, each at the rate its own attempt sequence chooses,
   * and succeeds exactly when every channel opens; when it fails, the channels before the
   * first failing one were started and that one was not.
   */
  lemma PlanOpensInOrder(ch: nat, n: nat, open: nat -> Option<Stream>)
    requires ch <= n
    ensures var p := PlanFrom(ch, n, open);
      && |p.started| <= n - ch
      && (forall k :: 0 <= k < |p.started| ==> Some(p.started[k]) == open(ch + k))
      && (p.ok <==> |p.started| == n - ch)
      && (!p.ok ==> open(ch + |p.started|).None?)
  {
    PlanStartsEachChannel(ch, n, open);
    PlanStopsAtFailure(ch, n, open);
  }

  /** The k-th stream of the plan is the one channel `ch + k` opens. */
  lemma {:induction false} PlanStartsEachChannel(ch: nat, n: nat, open: nat -> Option<Stream>)
    requires ch <= n
    ensures var p := PlanFrom(ch, n, open);
      && |p.started| <= n - ch
      && (forall k :: 0 <= k < |p.started| ==> Some(p.started[k]) == open(ch + k))
    decreases n - ch
  {
    if ch < n && open(ch).Some? {
      PlanStartsEachChannel(ch + 1, n, open);
      var p := PlanFrom(ch, n, open);
      var rest := PlanFrom(ch + 1, n, open);
      assert p == StartPlan([open(ch).value] + rest.started, rest.ok);
      forall k | 0 < k < |p.started|
        ensures Some(p.started[k]) == open(ch + k)
      {
        assert p.started[k] == rest.started[k - 1];
      }
    }
  }

  /** The plan succeeds exactly when it opens every channel, and otherwise stops at one that cannot open. */
  lemma {:induction false} PlanStopsAtFailure(ch: nat, n: nat, open: nat -> Option<Stream>)
    requires ch <= n
    ensures var p := PlanFrom(ch, n, open);
      && (p.ok <==> |p.started| == n - ch)
      && (!p.ok ==> open(ch + |p.started|).None?)
    decreases n - ch
  {
    if ch < n && open(ch).Some? {
      PlanStopsAtFailure(ch + 1, n, open);
      var rest := PlanFrom(ch + 1, n, open);
      assert PlanFrom(ch, n, open) == StartPlan([open(ch).value] + rest.started, rest.ok);
    }
  }

  /** One channel's step of the plan: stop when it cannot open, otherwise start it and go on. */
  lemma PlanStep(ch: nat, n: nat, open: nat -> Option<Stream>, s: Option<Stream>)
    requires ch < n && s == open(ch)
    ensures s.None? ==> PlanFrom(ch, n, open) == StartPlan([], false)
    ensures s.Some? ==>
      var rest := PlanFrom(ch + 1, n, open);
      PlanFrom(ch, n, open) == StartPlan([s.value] + rest.started, rest.ok)
  {
  }

  /**
   * The plan seen part-way: once the streams `started` are open and channel `ch` gets `s`,
   * a failure ends the plan with just those streams, and a success moves `s` onto them.
   */
  lemma PlanResumes(ch: nat, n: nat, open: nat -> Option<Stream>, s: Option<Stream>, plan: StartPlan, started: seq<Stream>)
    requires ch < n && s == open(ch)
    requires var rest := PlanFrom(ch, n, open); plan == StartPlan(started + rest.started, rest.ok)
    ensures s.None? ==> plan == StartPlan(started, false)
    ensures s.Some? ==> var rest := PlanFrom(ch + 1, n, open); plan == StartPlan((started + [s.value]) + rest.started, rest.ok)
  {
    PlanStep(ch, n, open, s);
    if s.Some? {
      ConcatAssoc(started, [s.value], PlanFrom(ch + 1, n, open).started);
    } else {
      assert started + [] == started;
    }
  }

  /** Every started stream belongs to its channel and runs at the first rate of its list that started. */
  lemma OpenedStreamRate(ch: nat, devices: Option<seq<Option<int>>>, query: int -> Option<Session.DeviceInfo>,
                         attempt: (Option<int>, int) -> Session.Attempt, sampleRate: int) returns (k: nat)
    requires ChannelStream(ch, devices, query, attempt, sampleRate).Some?
    ensures var s := ChannelStream(ch, devices, query, attempt, sampleRate).value;
      var rates := Session.RatesToTry(Session.PreferredRate(s.device, query, sampleRate).value);
      && s.channel == ch && s.device == Session.DeviceFor(devices, ch)
      && Session.PreferredRate(s.device, query, sampleRate).Some?
      && k < |rates| && s.rate == rates[k] && attempt(s.device, rates[k]) == Session.Started
      && forall j :: 0 <= j < k ==> attempt(s.device, rates[j]) == Session.PortAudioError
  {
    var device := Session.DeviceFor(devices, ch);
    var rates := Session.RatesToTry(Session.PreferredRate(device, query, sampleRate).value);
    var a := r => attempt(device, r);
    k := Session.TryRatesChoosesFirstStarted(rates, a);
    assert Session.FailedBefore(rates, a, k);
  }

  // ---------------------------------------------------------------- settings

  /** A fresh, empty time-plot window of the given capacity. */
  function FreshWindow(cap: nat): (t: TimePlot.TimeChannel)
    ensures TimePlot.ValidChannel(t) && t.buffer.items == [] && t.buffer.maxlen == cap
    ensures t.cache.None? && t.dirty && t.counter == 0
  {
    TimePlot.TimeChannel(Capped.Empty(cap), None, true, 0)
  }

  /** A dirty window without a cache: the next frame rebuilds the curve. */
  function Invalidated(t: TimePlot.TimeChannel): (r: TimePlot.TimeChannel)
    ensures r.buffer == t.buffer && r.counter == t.counter && r.cache.None? && r.dirty
  {
    t.(cache := None, dirty := true)
  }

  /**
   * What accepting the settings dialog does to one channel's time-plot state. Changing mode
   * leaves the window empty, uncached, dirty and at counter 0, with the entry capacity when
   * entering time-plot mode and the exit capacity when leaving it; keeping the mode keeps the
   * window's contents; a changed adjustment leaves it uncached and dirty.
   */
  function SettingsWindow(t: TimePlot.TimeChannel, oldMode: bool, newMode: bool, enterCap: nat, leaveCap: nat,
                          adjustChanged: bool): (r: TimePlot.TimeChannel)
    ensures newMode != oldMode ==> r.buffer.items == [] && r.cache.None? && r.dirty && r.counter == 0
    ensures newMode && !oldMode ==> r.buffer.maxlen == enterCap
    ensures !newMode && oldMode ==> r.buffer.maxlen == leaveCap
    ensures newMode == oldMode ==> r.buffer == t.buffer && r.counter == t.counter
    ensures newMode == oldMode && !adjustChanged ==> r == t
    ensures adjustChanged ==> r.cache.None? && r.dirty
  {
    var reset := if newMode && !oldMode then FreshWindow(enterCap)
                 else if !newMode && oldMode then FreshWindow(leaveCap)
                 else t;
    if adjustChanged then Invalidated(reset) else reset
  }

  /** Accepting the settings keeps a valid window valid. */
  lemma SettingsWindowKeepsValid(t: TimePlot.TimeChannel, oldMode: bool, newMode: bool, enterCap: nat, leaveCap: nat,
                             adjustChanged: bool)
    requires TimePlot.ValidChannel(t)
    ensures TimePlot.ValidChannel(SettingsWindow(t, oldMode, newMode, enterCap, leaveCap, adjustChanged))
  {
  }

  // ---------------------------------------------------------------- the window

  class AudioVisualizer {
    var chans: seq<Channel>
    var sampleRate: int
    var blockSize: nat
    var devices: Option<seq<Option<int>>>
    /** The streams opened and started, in channel order. */
    var streams: seq<Stream>
    /** Every stream stopped and closed so far, in the order they were closed. */
    var closed: seq<Stream>
    var displayGain: real
    var timePlotMode: bool
    var rateAdjust: real
    var globalRange: Option<Display.YRange>

    predicate Valid()
      reads this
    {
      && sampleRate > 0 && rateAdjust > 0.0 && displayGain >= 0.0
      && (forall i :: 0 <= i < |chans| ==> ChannelValid(chans[i]))
      && RangeValid(globalRange)
    }

    /** The window before start-up: every channel empty, normal mode, gain and adjustment 1.0. */
    constructor(sampleRate: int, blockSize: nat, channels: nat, devices: Option<seq<Option<int>>>)
      requires sampleRate > 0
      ensures Valid()
      ensures |chans| == channels && forall i :: 0 <= i < channels ==> chans[i] == InitialChannel()
      ensures this.sampleRate == sampleRate && this.blockSize == blockSize && this.devices == devices
      ensures streams == [] && closed == [] && displayGain == 1.0 && !timePlotMode && rateAdjust == 1.0
      ensures globalRange.None?
    {
      this.sampleRate := sampleRate;
      this.blockSize := blockSize;
      this.devices := devices;
      chans := seq(channels, _ => InitialChannel());
      streams := [];
      closed := [];
      displayGain := 1.0;
      timePlotMode := false;
      rateAdjust := 1.0;
      globalRange := None;
    }

    /** The audio callback of channel `ch`; a channel index out of range changes nothing. */
    method Callback(ch: nat, indata: Levels.InData, frames: nat, sqrt: real -> real)
      requires Valid() && Levels.WellShaped(indata) && Levels.IsSqrt(sqrt)
      modifies this`chans
      ensures Valid()
      ensures ch < |old(chans)| ==> chans == old(chans)[ch := AfterCallback(old(chans)[ch], indata, frames, sqrt)]
      ensures ch >= |old(chans)| ==> chans == old(chans)
    {
      if ch < |chans| {
        CallbackKeepsChannel(chans[ch], indata, frames, sqrt);
        var c := AbsorbBlock(chans[ch], indata, frames, sqrt);
        SetChannel(ch, c);
      }
    }

    /** Stores channel `ch`'s new state. */
    method SetChannel(ch: nat, c: Channel)
      requires Valid() && ch < |chans| && ChannelValid(c)
      modifies this`chans
      ensures Valid() && chans == old(chans)[ch := c]
    {
      chans := chans[ch := c];
    }

    /**
     * One display frame: in time-plot mode every window is first resized to 0.3 s at the
     * highest stream rate; then each channel is drawn, the shared range moves a tenth of the
     * way toward the target set by the channels' maxima, the level bars are sized and the
     * moving averages updated.
     */
    method UpdatePlots(p10: seq<real> -> real)
      requires Valid()
      modifies this`chans, this`globalRange
      ensures Valid()
      ensures |chans| == |old(chans)|
      ensures forall i :: 0 <= i < |chans| ==>
        chans[i] == FrameChannel(old(chans)[i], i, streams, sampleRate, timePlotMode, rateAdjust, displayGain, p10)
      ensures |chans| > 0 ==> globalRange == Some(Display.SmoothRange(old(globalRange), Display.RangeTarget(MicMaxes(chans))))
      ensures |chans| == 0 ==> globalRange == old(globalRange)
    {
      ResizePhase();
      ghost var resized := chans;
      DrawChannels(p10);
      ghost var drawn := chans;
      RangeAndBars();
      ghost var barred := chans;
      UpdateAverages();
      FramePhases(old(chans), resized, drawn, barred, chans, streams, sampleRate, timePlotMode, rateAdjust, displayGain, p10);
    }

    /** The first phase of a frame: in time-plot mode every window gets 0.3 s at the highest stream rate. */
    method ResizePhase()
      requires Valid()
      modifies this`chans
      ensures Valid() && |chans| == |old(chans)|
      ensures ResizedAll(old(chans), chans, timePlotMode, WindowCap(streams, sampleRate))
    {
      if timePlotMode {
        ResizeWindows(WindowCap(streams, sampleRate));
      }
    }

    /** The middle phase of a frame: with at least one channel, move the shared range and size the bars. */
    method RangeAndBars()
      requires Valid()
      modifies this`chans, this`globalRange
      ensures Valid() && |chans| == |old(chans)|
      ensures |chans| > 0 ==> BarredAll(old(chans), chans, timePlotMode, rateAdjust)
      ensures |chans| == 0 ==> chans == old(chans)
      ensures |chans| > 0 ==> globalRange == Some(Display.SmoothRange(old(globalRange), Display.RangeTarget(MicMaxes(old(chans)))))
      ensures |chans| == 0 ==> globalRange == old(globalRange)
    {
      if |chans| > 0 {
        UpdateRange();
        SizeBars();
      }
    }

    /** Move the shared Y range a tenth of the way toward the target set by the channels' maxima. */
    method UpdateRange()
      requires Valid()
      modifies this`globalRange
      ensures Valid()
      ensures globalRange == Some(Display.SmoothRange(old(globalRange), Display.RangeTarget(MicMaxes(chans))))
    {
      var target := Display.RangeTarget(MicMaxes(chans));
      Display.SmoothKeepsSymmetry(globalRange, target);
      Display.SmoothKeepsFloor(globalRange, MicMaxes(chans));
      globalRange := Some(Display.SmoothRange(globalRange, target));
    }

    /** Give every time-plot window the capacity `cap`, keeping its newest points; a window whose capacity changes loses its cache. */
    method ResizeWindows(cap: nat)
      requires Valid()
      modifies this`chans
      ensures Valid() && |chans| == |old(chans)|
      ensures forall i :: 0 <= i < |chans| ==> chans[i] == Resize(old(chans)[i], cap)
    {
      var n := |chans|;
      for i := 0 to n
        modifies this`chans
        invariant |chans| == n
        invariant forall j :: 0 <= j < i ==> chans[j] == Resize(old(chans)[j], cap)
        invariant forall j :: i <= j < n ==> chans[j] == old(chans)[j]
      {
        chans := chans[i := Resize(chans[i], cap)];
      }
      forall j | 0 <= j < n ensures ChannelValid(chans[j]) {
        ResizeKeepsChannel(old(chans)[j], cap);
      }
    }

    /** Draw every channel's curve and compute its maximum and noise floor. */
    method DrawChannels(p10: seq<real> -> real)
      requires Valid()
      modifies this`chans
      ensures Valid()
      ensures DrawnAll(old(chans), chans, streams, sampleRate, timePlotMode, rateAdjust, displayGain, p10)
    {
      var n := |chans|;
      for i := 0 to n
        modifies this`chans
        invariant Valid() && |chans| == n
        invariant forall j :: 0 <= j < i ==>
          chans[j] == Draw(old(chans)[j], timePlotMode, ChannelStep(streams, j, sampleRate, rateAdjust), rateAdjust, displayGain, p10)
        invariant forall j :: i <= j < n ==> chans[j] == old(chans)[j]
      {
        var tps := ChannelStep(streams, i, sampleRate, rateAdjust);
        ChannelStepPositive(streams, i, sampleRate, rateAdjust);
        DrawKeepsValid(chans[i], timePlotMode, tps, rateAdjust, displayGain, p10);
        SetChannel(i, Draw(chans[i], timePlotMode, tps, rateAdjust, displayGain, p10));
      }
    }

    /** Size every level bar from the channel's current level and the plot's x extent. */
    method SizeBars()
      requires Valid()
      modifies this`chans
      ensures Valid()
      ensures BarredAll(old(chans), chans, timePlotMode, rateAdjust)
    {
      var n := |chans|;
      var extent := Display.BarExtent(timePlotMode, TimePlot.AdjustedWindow(rateAdjust));
      for i := 0 to n
        modifies this`chans
        invariant |chans| == n
        invariant forall j :: 0 <= j < i ==> chans[j] == old(chans)[j].(barWidth := Display.BarWidth(old(chans)[j].current, extent)) && ChannelValid(chans[j])
        invariant forall j :: i <= j < n ==> chans[j] == old(chans)[j]
      {
        chans := chans[i := chans[i].(barWidth := Display.BarWidth(chans[i].current, extent))];
      }
    }

    /** Update every channel's moving average from its RMS history. */
    method UpdateAverages()
      requires Valid()
      modifies this`chans
      ensures Valid()
      ensures AveragedAll(old(chans), chans)
    {
      var n := |chans|;
      for i := 0 to n
        modifies this`chans
        invariant |chans| == n
        invariant forall j :: 0 <= j < i ==> chans[j] == old(chans)[j].(average := Levels.NextAverage(old(chans)[j].average, old(chans)[j].levels.items)) && ChannelValid(chans[j])
        invariant forall j :: i <= j < n ==> chans[j] == old(chans)[j]
      {
        chans := chans[i := chans[i].(average := Levels.NextAverage(chans[i].average, chans[i].levels.items))];
      }
    }

    /** `stop()`: stop and close every stream, in order, then forget them. */
    method Stop()
      modifies this`streams, this`closed
      ensures closed == old(closed) + old(streams)
      ensures streams == []
    {
      for i := 0 to |streams|
        invariant streams == old(streams)
        invariant closed == old(closed) + streams[..i]
      {
        closed := closed + [streams[i]];
      }
      assert streams[..|streams|] == streams;
      streams := [];
    }

    /** The rate at which channel `ch`'s stream starts, trying the rates in order; None aborts start-up. */
    method OpenChannel(ch: nat, query: int -> Option<Session.DeviceInfo>, attempt: (Option<int>, int) -> Session.Attempt)
      returns (s: Option<Stream>)
      ensures s == ChannelStream(ch, devices, query, attempt, sampleRate)
    {
      var device := Session.DeviceFor(devices, ch);
      var preferred := Session.PreferredRate(device, query, sampleRate);
      if preferred.None? {
        return None;
      }
      var rates := Session.RatesToTry(preferred.value);
      ghost var a := r => attempt(device, r);
      var k := 0;
      while k < |rates|
        invariant 0 <= k <= |rates|
        invariant Session.TryRates(rates, a) == Session.TryRates(rates[k..], a)
      {
        var outcome := attempt(device, rates[k]);
        assert rates[k..][0] == rates[k] && rates[k..][1..] == rates[k + 1..];
        match outcome {
          case Started =>
            return Some(Stream(ch, device, rates[k]));
          case OtherError =>
            return None;
          case PortAudioError =>
            if k == |rates| - 1 {
              return None;
            }
        }
        k := k + 1;
      }
      return None;
    }

    /**
     * `start()`: open every channel's stream in order; on the first channel that cannot
     * open, stop and close every stream started so far and report failure.
     */
    method Start(query: int -> Option<Session.DeviceInfo>, attempt: (Option<int>, int) -> Session.Attempt)
      returns (ok: bool)
      modifies this`streams, this`closed
      ensures var plan := PlanFrom(0, |chans|, ChannelOpener(devices, query, attempt, sampleRate));
        && ok == plan.ok
        && (ok ==> streams == old(streams) + plan.started && closed == old(closed))
        && (!ok ==> streams == [] && closed == old(closed) + old(streams) + plan.started)
      ensures ok ==> |streams| == |old(streams)| + |chans|
    {
      PlanOpensInOrder(0, |chans|, ChannelOpener(devices, query, attempt, sampleRate));
      ok := OpenInOrder(query, attempt);
      if !ok {
        Stop();
      }
    }

    /** The loop of `start()`: open channel after channel, up to the first one that cannot open. */
    method OpenInOrder(query: int -> Option<Session.DeviceInfo>, attempt: (Option<int>, int) -> Session.Attempt)
      returns (ok: bool)
      modifies this`streams
      ensures var plan := PlanFrom(0, |chans|, ChannelOpener(devices, query, attempt, sampleRate));
        ok == plan.ok && streams == old(streams) + plan.started
    {
      var n := |chans|;
      ghost var open := ChannelOpener(devices, query, attempt, sampleRate);
      ghost var plan := PlanFrom(0, n, open);
      ghost var started: seq<Stream> := [];
      for ch := 0 to n
        invariant streams == old(streams) + started
        invariant var rest := PlanFrom(ch, n, open);
          plan == StartPlan(started + rest.started, rest.ok)
      {
        var s := OpenChannel(ch, query, attempt);
        OpenerOpens(devices, query, attempt, sampleRate, ch);
        PlanResumes(ch, n, open, s, plan, started);
        if s.None? {
          return false;
        }
        ConcatAssoc(old(streams), started, [s.value]);
        streams := streams + [s.value];
        started := started + [s.value];
      }
      assert started + [] == started;
      return true;
    }

    /**
     * Accepting the settings dialog: the gain and adjustment come from its widgets (0 to 2,
     * and 0.1 to 2). Entering time-plot mode gives every channel an empty window of 0.3 s at
     * the highest stream rate; leaving it gives every channel an empty window of 14400 points;
     * a changed adjustment then marks every window dirty and drops its cache.
     */
    method ApplySettings(gain: real, newMode: bool, newAdjust: real)
      requires Valid()
      requires 0.0 <= gain <= MaxGain && MinRateAdjust <= newAdjust <= MaxRateAdjust
      modifies this`chans, this`displayGain, this`timePlotMode, this`rateAdjust
      ensures Valid()
      ensures displayGain == gain && timePlotMode == newMode && rateAdjust == newAdjust
      ensures |chans| == |old(chans)|
      ensures forall i :: 0 <= i < |chans| ==>
        chans[i] == old(chans)[i].(time := SettingsWindow(old(chans)[i].time, old(timePlotMode), newMode,
                                          WindowCap(streams, sampleRate), InitialWindowPoints, old(rateAdjust) != newAdjust))
    {
      displayGain := gain;
      ResetWindows(newMode, WindowCap(streams, sampleRate), InitialWindowPoints);
      timePlotMode := newMode;
      if rateAdjust != newAdjust {
        InvalidateWindows();
      }
      rateAdjust := newAdjust;
    }

    /**
     * The mode switch of the settings: entering time-plot mode gives every channel a fresh
     * window of `enterCap` points, leaving it a fresh window of `leaveCap` points.
     */
    method ResetWindows(newMode: bool, enterCap: nat, leaveCap: nat)
      requires Valid()
      modifies this`chans
      ensures Valid() && |chans| == |old(chans)|
      ensures forall i :: 0 <= i < |chans| ==>
        chans[i] == old(chans)[i].(time := SettingsWindow(old(chans)[i].time, timePlotMode, newMode, enterCap, leaveCap, false))
    {
      var n := |chans|;
      if newMode && !timePlotMode {
        var cs := chans;
        chans := seq(n, i requires 0 <= i < n => cs[i].(time := FreshWindow(enterCap)));
      } else if !newMode && timePlotMode {
        var cs := chans;
        chans := seq(n, i requires 0 <= i < n => cs[i].(time := FreshWindow(leaveCap)));
      }
      forall i | 0 <= i < n ensures ChannelValid(chans[i]) {
        SettingsWindowKeepsValid(old(chans)[i].time, timePlotMode, newMode, enterCap, leaveCap, false);
      }
    }

    /** A changed rate adjustment marks every window dirty and drops its cache. */
    method InvalidateWindows()
      requires Valid()
      modifies this`chans
      ensures Valid() && |chans| == |old(chans)|
      ensures forall i :: 0 <= i < |chans| ==> chans[i] == old(chans)[i].(time := Invalidated(old(chans)[i].time))
    {
      var n := |chans|;
      for i := 0 to n
        modifies this`chans
        invariant |chans| == n
        invariant forall j :: 0 <= j < i ==> chans[j] == old(chans)[j].(time := Invalidated(old(chans)[j].time)) && ChannelValid(chans[j])
        invariant forall j :: i <= j < n ==> chans[j] == old(chans)[j]
      {
        chans := chans[i := chans[i].(time := Invalidated(chans[i].time))];
      }
    }

    /**
     * The older window's settings: either mode change gives every channel an empty window of
     * 1,000,000 points; the adjustment is taken over without touching the caches.
     */
    method ApplyLegacySettings(gain: real, newMode: bool, newAdjust: real)
      requires Valid()
      requires 0.0 <= gain <= MaxGain && MinRateAdjust <= newAdjust <= MaxRateAdjust
      modifies this`chans, this`displayGain, this`timePlotMode, this`rateAdjust
      ensures Valid()
      ensures displayGain == gain && timePlotMode == newMode && rateAdjust == newAdjust
      ensures |chans| == |old(chans)|
      ensures forall i :: 0 <= i < |chans| ==>
        chans[i] == old(chans)[i].(time := SettingsWindow(old(chans)[i].time, old(timePlotMode), newMode,
                                          LegacyWindowPoints, LegacyWindowPoints, false))
    {
      displayGain := gain;
      ResetWindows(newMode, LegacyWindowPoints, LegacyWindowPoints);
      timePlotMode := newMode;
      rateAdjust := newAdjust;
    }
  }
}
