# 4MicVisual: the per-channel sample pipeline, in Dafny

4MicVisual shows up to eight microphones side by side in a Qt window. Each microphone
has its own input stream. The stream's callback turns every block into mono samples,
stores them in a 2048-sample ring buffer and tracks the level: the RMS, a decaying
peak, a noise floor and a moving average. A timer redraws every channel, either as
the newest 512 samples ("normal" mode) or as a 0.3-second rolling window of timestamped
samples ("time-plot" mode). All plots share one smoothed, symmetric Y range. Start-up
opens one stream per channel and falls back through a list of sample rates. A settings
dialog switches modes and rate adjustment. A device dialog assigns input devices to
microphones and remembers the choice.

The model covers that pipeline and its bookkeeping.

| file | models |
|---|---|
| `wrappers.dfy` | `Option`, `Min`/`Max`/`AbsReal`/`Clip`, and the arithmetic step the inductions over multiples share |
| `capped.dfy` | `collections.deque(maxlen=…)` as a value: append, extend, resize |
| `levels.dfy` | the callback's arithmetic: first column, length normalisation, sanitising, RMS, peak hold, noise floor, moving average |
| `display.dfy` | the normal-mode snapshot, the gain, the per-channel maximum, the shared Y range, the level bar |
| `timeplot.dfy` | the time-plot window: stamping, resizing, normalised and clipped times, the cache, and the older loop's stamping, cache period and frame skipping |
| `decimation.dfy` | the older loop's peak-preserving decimation, with the chunk loop filling an array |
| `session.dfy` | device and preferred rate per channel, the rate fallback |
| `visualizer.dfy` | the window object (`AudioVisualizer`): callback, display frame, start, stop, settings |
| `dialogs.dfy` | `DeviceSelectionDialog` bookkeeping and the settings dialog's FPS label |

Notes on the model:
- Samples are `real`. A driver sample is `Finite(v)` or `NonFinite`.
- `np.sqrt` and `np.percentile(…, 10)` are function-typed parameters. `IsSqrt` and
  `IsBoundedStatistic` state the only facts the proofs use about them.
- The audio backend is two parameters:
  - `query(device)` is the device query, None when it raises;
  - `attempt(device, rate)` opens and starts a stream and reports `Started`,
    `PortAudioError` or `OtherError`.
- The source keeps one parallel list per quantity. Here one `Channel` record per
  microphone holds them all.
- The window's object is a class whose methods change its fields. Each per-channel
  loop of the display frame is a method with its own loop and invariants. The
  composition is proved by `FramePhases` and described by `FrameChannelEffects`.
- Audio callbacks and timer frames run on different threads in the source. Here they
  are calls on the same object, in some interleaved order.

The peak decays even when the new RMS equals it (`rms > peak` is strict), so it can end
just below the current level; `Levels.PeakCanFallBelowLevel` exhibits this.

## Model

| member | source | states |
|---|---|---|
| Capped.Keep | visualizer.py:36-37 | a bounded deque holds the newest min(len, cap) items, as a suffix in arrival order |
| Capped.KeepConcat | visualizer.py:571-572 | trimming to the cap before an extension gives the same contents as trimming once after it |
| Capped.KeepKeep | visualizer.py:605-606 | trimming to a smaller cap after a larger one is trimming once to the smaller cap |
| Capped.Empty | visualizer.py:36-37 | a new deque is empty, within its bound, with the given maxlen |
| Capped.Append | visualizer.py:556-560 | `append` evicts the oldest item when full: contents are the newest maxlen of old ++ [x], bound kept |
| Capped.Extend | visualizer.py:571-572 | extending item by item leaves the newest maxlen of old ++ xs, within the bound |
| Capped.ExtendedTwice | visualizer.py:571-572 | two extensions equal one extension by the concatenation, so arrival order is kept |
| Capped.Resized | visualizer.py:605-606 | re-creating a deque with a new maxlen keeps its newest min(len, cap) items in order |
| Levels.FirstColumn | visualizer.py:505-520 | no input gives `frames` zeros; a 1-D block is taken as is; a 2-D block gives its first column, or zeros when it has no column |
| Levels.Normalize | visualizer.py:530-536 | the block has exactly `frames` samples: the input's first ones, then zeros |
| Levels.Sanitize | visualizer.py:539-540 | finite samples are kept unchanged and only non-finite ones become 0.0 |
| Levels.Block | visualizer.py:505-540 | the stored block has exactly `frames` values, each the finite input sample at that position or 0.0 |
| Levels.BlockOfCleanMono | visualizer.py:515-540 | a 1-D block of exactly `frames` finite samples is stored unchanged |
| Levels.Rms | visualizer.py:543-550 | the RMS is non-negative, 0.0 for an empty block, and its square is the mean square |
| Levels.MeanSquare | visualizer.py:544-545 | the mean square is non-negative |
| Levels.RmsOfConstant | visualizer.py:543-546 | a constant block of amplitude a has RMS abs(a) |
| Levels.PeakUpdate | visualizer.py:563-568 | instant attack when the RMS exceeds the peak, otherwise decay by 0.999; stays within [0, max(peak, rms)] |
| Levels.PeakDecaysGeometrically | visualizer.py:563-568 | while no RMS exceeds the decaying peak, n callbacks multiply it by 0.999^n |
| Levels.PeakStaysBelow | visualizer.py:563-568 | the peak stays between 0 and any bound that the initial peak and every RMS respect |
| Levels.PeakCanFallBelowLevel | visualizer.py:564-568 | example, one input: an RMS equal to the peak still decays it, to just below the level |
| Levels.NoiseFloor | visualizer.py:766-774 | 0.001 while the history has at most 20 entries, else max(p10, 0.001); always at least 0.001 |
| Levels.NoiseFloorBounded | visualizer.py:766-771 | the noise floor is at most the larger of the loudest RMS in the history and the 0.001 default |
| Levels.NextAverage | visualizer.py:1020-1027 | times the number of newest min(len, 50) RMS values it averages, it gives their sum; unchanged while the history is empty |
| Levels.Mean | visualizer.py:1025 | the length times the mean is the sum |
| Levels.MeanBetween | visualizer.py:1025 | a mean lies between any bounds of its entries |
| Levels.MaxOf | visualizer.py:1020-1027 | the largest value: no entry exceeds it and some entry equals it |
| Levels.MinOf | visualizer.py:1020-1027 | the smallest value: no entry is below it and some entry equals it |
| Levels.AverageWithinRecentLevels | visualizer.py:1020-1027 | the moving average lies between the smallest and largest of those RMS values |
| Display.Scale | visualizer.py:760 | every sample is multiplied by the gain, length kept |
| Display.Arange | visualizer.py:763 | x is 0, 1, …, n-1 |
| Display.Snapshot | visualizer.py:617-632 | the newest min(len, 512) buffered samples in order, or 512 zeros for an empty buffer |
| Display.NormalFrame | visualizer.py:750-763 | x and y have equal length: 512 for an empty buffer, else min(len, 512) |
| Display.NormalFrameShowsNewest | visualizer.py:750-763 | x is 0..n-1 and y is the newest n buffered samples, in arrival order, times the gain; an empty buffer shows zeros |
| Display.MaxAbs | visualizer.py:778 | non-negative and at least abs(y[k]) for every k; 0.0 for an empty curve |
| Display.MaxAbsAttained | visualizer.py:778 | a non-empty curve has a sample whose magnitude is the maximum |
| Display.MaxAbsUnique | visualizer.py:778 | the maximum is the one bound on abs(y[k]) that some sample reaches |
| Display.MaxAbsScale | visualizer.py:760-778 | with a non-negative gain the maximum of the scaled curve `s` is the samples' maximum `m` times the gain |
| Display.RangeTarget | visualizer.py:822-831 | the target half-height is at least 0.1 and at least 1.2 times every channel maximum, and is one of those values; 0.12 with no channels |
| Display.SmoothRange | visualizer.py:834-840 | each end of the range moves a tenth of the way to the target (-size, size); the first range is the target |
| Display.SmoothKeepsSymmetry | visualizer.py:837-847 | a range symmetric about 0 stays symmetric |
| Display.SmoothKeepsFloor | visualizer.py:827-847 | once the top of the range is at least 0.1 it stays so |
| Display.SmoothConverges | visualizer.py:838-840 | under a fixed target the top's distance to it shrinks to 0.9^n of the start |
| Display.TwoChannelTarget | visualizer.py:824-831 | example, one input: channel maxima 0.5 and 0.2 give the target range (-0.6, 0.6) |
| Display.BarWidth | visualizer.py:958-959 | the bar is 0.15 of the x extent per unit of level up to a level of 1/0.15, and clamped to exactly the extent above it; never wider than the extent, non-negative |
| Display.BarExtent | visualizer.py:943-951 | 512 in normal mode, the time window (at least 1.0) in time-plot mode |
| TimePlot.ChannelRate | visualizer.py:647-652 | the stream's rate when positive, else the configured rate; positive when the configured one is |
| TimePlot.SecondsPerSamplePositive | visualizer.py:657 | the time step 1/rate · adjustment is positive |
| TimePlot.Stamp | visualizer.py:674-679 | the k-th point carries the k-th sample at start + k · step |
| TimePlot.NextStart | visualizer.py:664-670 | 0 for an empty window; with a positive step a new block starts strictly after the newest point |
| TimePlot.AppendBlock | visualizer.py:664-679 | the window keeps its maxlen, and its samples are the newest maxlen of the old samples followed by the block |
| TimePlot.KeptValues | visualizer.py:674-679 | stamping a block and evicting the oldest points keeps exactly the newest samples, in order |
| TimePlot.StampOrdered | visualizer.py:676 | a stamped block starts at `start`, is evenly spaced, and strictly increases for a positive step |
| TimePlot.KeepKeepsOrder | visualizer.py:679 | eviction of the oldest points keeps the timestamps increasing and evenly spaced |
| TimePlot.AppendKeepsIncreasing | visualizer.py:664-679 | a block stamped from one step after the newest point keeps the window strictly increasing |
| TimePlot.AppendKeepsSpacing | visualizer.py:664-679 | an evenly spaced window stays evenly spaced after a block is appended |
| TimePlot.FirstBlockStartsAtZero | visualizer.py:668-670 | the first block stamped into an empty window starts at 0 |
| TimePlot.LengthStart | main.py:669-671 | an empty window starts the block at 0 |
| TimePlot.LengthStartAgreesFromZero | main.py:669-671 | while the window still starts at 0 and is evenly spaced, the length-based start is one step after the newest point, as the corrected stamping has it |
| TimePlot.AppendBlockByLength | main.py:666-680 | the older loop stores the same samples as the corrected stamping; only their timestamps differ |
| TimePlot.LengthStartStallsWhenFull | main.py:670-680 | once the older loop's window is full, every later block gets the same start time |
| TimePlot.LengthStampingRepeatsTimes | main.py:666-680 | example, one input: a full window fed two blocks by the older loop holds repeated times, while stamping from the newest point keeps them increasing |
| TimePlot.AdjustedWindow | visualizer.py:723 | 0.3 s times the adjustment, the adjustment floored at 0.01 |
| TimePlot.NormalisedFrame | visualizer.py:716-736 | one x and one y per stored point |
| TimePlot.NormalisedFrameInWindow | visualizer.py:716-736 | x starts at 0 and lies in the window, y is the sample times the gain, x is monotone and exact inside the window |
| TimePlot.WindowSamples | visualizer.py:600 | int(0.3 · rate), truncated |
| TimePlot.SizedBufferFitsWindow | visualizer.py:597-608 | an evenly spaced window of at most int(0.3 · rate) points lies wholly inside the adjusted window, so clipping changes nothing |
| TimePlot.MaxRate | visualizer.py:598-599 | the largest of the stream rates (default for a missing one) and the configured rate, and one of them |
| TimePlot.TimeTick | visualizer.py:664-684 | one frame appends the stamped snapshot and advances the counter |
| TimePlot.TimeTickKeepsValid | visualizer.py:664-684 | a frame keeps the window within its bound and its times increasing, and keeps its maxlen |
| TimePlot.TimeTickShowsFreshOrCached | visualizer.py:686-748 | a clean frame shows and caches the curve rebuilt from the window just updated; a dirty one keeps and shows the previous cache; an empty window shows nothing |
| TimePlot.TimeTickCleanWhenDue | visualizer.py:686-737 | on an even counter, or without a cache, a non-empty window's curve is rebuilt |
| TimePlot.CacheRebuiltEveryOtherFrame | visualizer.py:682-737 | of two consecutive frames of a non-empty window at least one rebuilds the curve |
| TimePlot.RefreshCache | visualizer.py:686-690 | a clean cache is never rebuilt, a missing one always is when dirty, and an existing dirty one only when the counter is a multiple of the period |
| TimePlot.SkipRendering | main.py:605-617 | skips exactly the frames whose counter is a multiple of 3 in time-plot mode, of 5 otherwise |
| TimePlot.NeverSkipsTwice | main.py:605-617 | the older loop never skips drawing on two consecutive frames |
| TimePlot.SkipsOneInThree | main.py:609-613 | in time-plot mode it skips exactly one of any three consecutive frames |
| TimePlot.LengthCacheRebuiltWithinThree | main.py:689-691 | with period 3 a dirty cache is rebuilt within any three consecutive counter values |
| Decimation.Arange | main.py:720 | starts at `from`, strictly increasing, inside [from, n), and its last element plus the step reaches n |
| Decimation.ArangeAt | main.py:720 | the k-th element is from + k · step |
| Decimation.Step | main.py:719 | the step is max(1, n // 15000), at least 1 |
| Decimation.Indices | main.py:716-723 | the first kept position is 0 and the last is n-1, so the first and the final sample are always drawn |
| Decimation.IndicesShape | main.py:716-723 | the kept positions number at least 2, start at 0, end at n-1 and lie in [0, n) |
| Decimation.IndicesIncreasing | main.py:720-723 | the kept positions strictly increase |
| Decimation.IndexAt | main.py:719-720 | every kept position but the appended last one is k · step |
| Decimation.FirstPeak | main.py:735 | the first position of largest magnitude in a chunk |
| Decimation.ChunkPeak | main.py:731-736 | the chunk's first sample of largest magnitude: no sample of the chunk is larger in magnitude, and every earlier one is smaller |
| Decimation.Downsampled | main.py:729-738 | one value per kept position, the last being the final sample |
| Decimation.DownsampledKeepsPeak | main.py:730-736 | each other value is the first sample of largest magnitude in its chunk |
| Decimation.ChunkPeaks | main.py:729-738 | the array filled chunk by chunk equals the downsampled values |
| Decimation.Decimate | main.py:716-742 | at most 15000 points pass unchanged apart from the gain; more give x at the kept positions and the downsampled y times the gain |
| Decimation.KeptTimes | main.py:725 | x at each kept position |
| Decimation.KeptPeaks | main.py:729-739 | the downsampled values times the gain |
| Decimation.SmallestDecimatedWindowKeepsAll | main.py:717-723 | example, one input: 15001 points are decimated with step 1 and keep every position exactly once |
| Session.DeviceFor | visualizer.py:1046-1049 | the channel's configured device, or the default device when the list is missing or too short |
| Session.Truncate | visualizer.py:1061 | `int(x)` truncates toward zero |
| Session.PreferredRate | visualizer.py:1054-1065 | the configured rate for the default device; for a chosen device, failure when the query fails or it has no input, else its default rate truncated toward zero (at most the rate and within 1 below it when positive, at least the rate and within 1 above it when negative), or the configured rate when that is missing or 0 |
| Session.RatesToTry | visualizer.py:1069 | the preferred rate followed by 44100, 48000, 96000 and 192000 |
| Session.TryRates | visualizer.py:1071-1089 | a chosen rate is in the list and started there; an error other than a PortAudio error on the first attempt gives up at once |
| Session.TryRatesChoosesFirstStarted | visualizer.py:1071-1089 | a chosen rate is at a position that started, after PortAudio errors at every earlier one |
| Session.TryRatesFindsFirstStarted | visualizer.py:1071-1089 | conversely, the first position that starts after only PortAudio errors is the rate chosen |
| Session.TryRatesGivesUp | visualizer.py:1084-1089 | giving up means another error at some position, or PortAudio errors at every position |
| Session.AsWrittenAgreesWithoutEarlyLast | visualizer.py:1084-1087 | comparing with the last rate by value and by position agree when that rate occurs only at the end |
| Session.AsWrittenAgreesUnlessPreferredIsLast | visualizer.py:1069-1087 | the written loop behaves as intended for every preferred rate except 192000 |
| Session.TryRatesAsWritten | visualizer.py:1071-1089 | a chosen rate is in the list and started there; a PortAudio error at a rate equal to the last one gives up, wherever that rate stands |
| Session.PreferredLastRateAbortsEarly | visualizer.py:1084-1086 | example, one input: with preferred rate 192000 failing and 44100 working, the written loop gives up while the intended one opens at 44100 |
| Visualizer.InitialChannel | visualizer.py:34-64 | a channel starts with empty deques of 2048, 100, 200 and 14400 entries, zero levels and noise floor 0.001 |
| Visualizer.CallbackKeepsChannel | visualizer.py:499-577 | a callback keeps the channel valid, sets the current level to the RMS and appends it to both histories, applies the peak rule and appends exactly `frames` samples |
| Visualizer.AfterCallback | visualizer.py:499-577 | the level is non-negative, the sample buffer grows by `frames` up to its bound, and only the level, the histories, the peak and the buffer change |
| Visualizer.Absorbed | visualizer.py:552-572 | the current level becomes the RMS, the newest samples of the buffer are the block (when it fits), and nothing but the callback's fields changes |
| Visualizer.AbsorbedKeepsChannel | visualizer.py:552-572 | taking in a block with a non-negative level keeps the channel valid, makes the level the newest entry of both histories, keeps the peak at most max(peak, level), and leaves the newest 2048 of old samples followed by the block |
| Visualizer.AbsorbBlock | visualizer.py:543-577 | appending the level to both histories, applying the peak rule and extending the sample buffer item by item gives the callback's channel state |
| Visualizer.CallbacksKeepArrivalOrder | visualizer.py:571-572 | two callbacks leave the sample buffer as one extension by both blocks in order |
| Visualizer.StreamRates | visualizer.py:598-599 | the rate of every started stream, in order |
| Visualizer.WindowCap | visualizer.py:597-600 | the capacity is the largest of the 0.3 s windows at the configured rate and at every started stream's rate: it covers each of them and equals one of them |
| Visualizer.MaxRateIsAStreamRate | visualizer.py:597-600 | the highest rate is the configured one or the positive rate of a started stream |
| Visualizer.ChannelStep | visualizer.py:647-657 | the step is 1/rate · adjustment, with the channel's stream rate when it is positive and the configured rate otherwise |
| Visualizer.ChannelStepPositive | visualizer.py:647-657 | a channel's time step is positive |
| Visualizer.Placeholder | visualizer.py:781-785 | 512 zeros against 0..511 |
| Visualizer.MicMaxes | visualizer.py:788-790 | the per-channel maxima, one per channel |
| Visualizer.Resize | visualizer.py:597-608 | the window gets the capacity, its newest points kept; a changed capacity drops the cache and marks it dirty; the same capacity changes nothing; nothing outside the window changes |
| Visualizer.ResizeKeepsChannel | visualizer.py:597-608 | resizing keeps the channel valid, gives the window the new capacity and keeps its newest points; a changed capacity drops the cache and marks the window dirty, the same capacity changes nothing; nothing outside the window changes |
| Visualizer.MaxAbsOfZeros | visualizer.py:783-785 | the placeholder's maximum is 0 |
| Visualizer.Draw | visualizer.py:611-790 | only the window, the curve, the maximum and the noise floor change; the curve is never empty and its maximum is non-negative; time-plot mode appends the snapshot to the window, normal mode leaves the window alone |
| Visualizer.DrawKeepsValid | visualizer.py:611-790 | drawing keeps the channel valid |
| Visualizer.DrawShows | visualizer.py:611-790 | a drawn channel is valid, shows the normal frame or the tick's curve (the placeholder when that is empty), and its maximum is the shown curve's |
| Visualizer.TargetCoversShownCurves | visualizer.py:822-831 | every shown sample, with 20% headroom, fits inside the target range |
| Visualizer.ChannelStream | visualizer.py:1044-1092 | an opened stream belongs to its channel and its configured device, and started at its rate |
| Visualizer.PlanFrom | visualizer.py:1044-1095 | channels opened one by one by `open` (for start-up, `ChannelOpener`: each channel's own device and rate choice): at most one stream per remaining channel, and success exactly when every remaining channel opened |
| Visualizer.FramePhases | visualizer.py:597-1027 | the four per-channel loops of a frame compose to one per-channel function, and the last two do not change the maxima |
| Visualizer.FrameChannelEffects | visualizer.py:579-1027 | a frame keeps the channel valid and leaves the callback's data alone; in normal mode it shows the snapshot and leaves the time plot alone; in time-plot mode the window gets the frame's capacity; bar, average and noise floor follow their rules |
| Visualizer.FrameChannel | visualizer.py:579-1027 | a frame never touches the samples, histories, level or peak the callbacks write, and the shown curve is never empty |
| Visualizer.PlanOpensInOrder | visualizer.py:1044-1092 | start-up opens channels in order, succeeds exactly when all open, and stops at the first channel that cannot |
| Visualizer.PlanStartsEachChannel | visualizer.py:1044-1092 | the k-th stream of the plan is the one channel ch + k opens, and there are at most n - ch of them |
| Visualizer.PlanStopsAtFailure | visualizer.py:1044-1095 | the plan succeeds exactly when every channel opened; otherwise the channel after the started ones cannot open |
| Visualizer.PlanStep | visualizer.py:1044-1095 | a channel that cannot open ends the plan in failure; one that opens is followed by the plan for the next channel |
| Visualizer.PlanResumes | visualizer.py:1044-1092 | part-way through start-up, a channel that cannot open ends the plan with just the streams already started, and one that opens joins them |
| Visualizer.OpenedStreamRate | visualizer.py:1054-1089 | a started stream belongs to its channel and device and runs at the first rate of its list that started |
| Visualizer.FreshWindow | visualizer.py:1183-1186 | an empty, uncached, dirty window with counter 0 |
| Visualizer.Invalidated | visualizer.py:1239-1243 | the same window, dirty and without a cache |
| Visualizer.SettingsWindow | visualizer.py:1178-1244 | a mode change empties every window and resets cache, flag and counter, with the entry or exit capacity; keeping the mode keeps the window; a new adjustment drops the cache |
| Visualizer.SettingsWindowKeepsValid | visualizer.py:1178-1244 | accepting the settings keeps a valid window valid |
| Visualizer.AudioVisualizer.constructor | visualizer.py:18-64 | every channel starts in its initial state, normal mode, gain and adjustment 1.0, no streams |
| Visualizer.AudioVisualizer.Callback | visualizer.py:499-577 | only channel ch changes, as the callback rule says; an out-of-range channel changes nothing |
| Visualizer.AudioVisualizer.SetChannel | visualizer.py:552-572 | only channel ch is replaced, and the window stays valid |
| Visualizer.AudioVisualizer.UpdatePlots | visualizer.py:579-1038 | every channel gets its frame update, and the shared range moves toward the target of the new maxima |
| Visualizer.AudioVisualizer.ResizePhase | visualizer.py:597-608 | in time-plot mode every window gets the frame's capacity; in normal mode nothing changes |
| Visualizer.AudioVisualizer.ResizeWindows | visualizer.py:597-608 | every window gets the capacity, keeping its newest points |
| Visualizer.AudioVisualizer.DrawChannels | visualizer.py:611-790 | every channel is drawn |
| Visualizer.AudioVisualizer.SizeBars | visualizer.py:927-959 | every bar is sized from its level and the x extent |
| Visualizer.AudioVisualizer.RangeAndBars | visualizer.py:822-959 | with channels, the range moves toward the target of their maxima and every bar is sized; with none, nothing changes |
| Visualizer.AudioVisualizer.UpdateRange | visualizer.py:822-847 | the shared range becomes the smoothed step from the old range toward the target of the channel maxima |
| Visualizer.AudioVisualizer.UpdateAverages | visualizer.py:1020-1027 | every moving average is updated from its history |
| Visualizer.AudioVisualizer.Stop | visualizer.py:1098-1104 | every stream is closed in order and the list is emptied, so a second stop closes nothing |
| Visualizer.AudioVisualizer.OpenChannel | visualizer.py:1046-1092 | the rate loop returns the stream its channel opens, or None |
| Visualizer.AudioVisualizer.OpenInOrder | visualizer.py:1044-1092 | the streams the plan starts are appended in channel order, and the result says whether every channel opened |
| Visualizer.AudioVisualizer.Start | visualizer.py:1040-1096 | on success one stream per channel is appended in order; on failure every stream is closed and the list is empty |
| Visualizer.AudioVisualizer.ApplySettings | visualizer.py:1164-1244 | the gain, mode and adjustment are taken over and every window is reset or invalidated as the settings rule says |
| Visualizer.AudioVisualizer.ResetWindows | visualizer.py:1178-1236 | a mode change gives every channel an empty window with the entry or exit capacity; keeping the mode keeps every window |
| Visualizer.AudioVisualizer.InvalidateWindows | visualizer.py:1239-1243 | every window drops its cache and is marked dirty, and nothing else changes |
| Visualizer.AudioVisualizer.ApplyLegacySettings | main.py:1242-1299 | the older variant resets every window to 1000000 points on either mode change and leaves caches alone otherwise |
| Dialogs.ItemData | dialogs.py:770-774 | the item's device, None outside the box |
| Dialogs.DeviceItems | dialogs.py:737-740 | the default device first, then every input device in order |
| Dialogs.FindItem | dialogs.py:754-758 | the first item whose data is the device, or none when no item has it |
| Dialogs.FirstIndexOf | dialogs.py:754-758 | the first position holding the device |
| Dialogs.PadWithNone | dialogs.py:954-957 | the list keeps its entries and is padded with None to the channel count |
| Dialogs.FpsLabel | dialogs.py:389-395 | int(1000 / ms) for ms > 0, "∞" otherwise |
| Dialogs.FpsLabelWithinSliderRange | dialogs.py:277-278 | over the slider's 5..100 ms the label lies in 10..200 |
| Dialogs.FpsLabelMonotone | dialogs.py:391-392 | a longer interval never shows a higher rate |
| Dialogs.SavedShown | dialogs.py:875-884 | a saved None selects the default, a saved device the first item offering it, else the row is left alone |
| Dialogs.ShowSavedDevice | dialogs.py:875-884 | the search over the row's items gives that row |
| Dialogs.DeviceSelectionDialog.constructor | dialogs.py:456-561 | one unset default row per microphone, then a saved count in 1..8 and the saved devices are loaded: exactly one entry per microphone, the saved device for the first ones and None after them, and each row shows its entry |
| Dialogs.DeviceSelectionDialog.OpenRows | dialogs.py:553-560 | the rows are laid out, one showing the default per microphone; a saved count in 1..8 then becomes the microphone count and rows are added for it, all showing the default |
| Dialogs.DeviceSelectionDialog.AddDeviceSelection | dialogs.py:730-758 | a row is appended showing the microphone's device when offered, else the default |
| Dialogs.DeviceSelectionDialog.NewCombo | dialogs.py:735-758 | a new row offers the default and every input device, and shows one of them |
| Dialogs.DeviceSelectionDialog.NewComboShowsSelected | dialogs.py:743-758 | a new row shows its microphone's device when the row offers it, and the default otherwise |
| Dialogs.DeviceSelectionDialog.RemoveDeviceSelection | dialogs.py:760-768 | row `index` is removed when it exists |
| Dialogs.DeviceSelectionDialog.UpdateDeviceSelections | dialogs.py:716-728 | afterwards there is one row per microphone; surviving rows are untouched and new ones are added at the end |
| Dialogs.DeviceSelectionDialog.AddRows | dialogs.py:721-724 | the existing rows are kept and one new row per missing microphone is added, in order |
| Dialogs.DeviceSelectionDialog.RemoveRows | dialogs.py:725-728 | removing from the highest index down leaves exactly the first num_channels rows |
| Dialogs.DeviceSelectionDialog.OnChannelsChanged | dialogs.py:697-714 | growing appends exactly new-old Nones; shrinking keeps the first new selections; the rows follow |
| Dialogs.DeviceSelectionDialog.OnDeviceChanged | dialogs.py:770-781 | pads with None up to the microphone and sets only its entry to the chosen item's device |
| Dialogs.DeviceSelectionDialog.ChooseDevice | dialogs.py:743 | after the user picks an item, the microphone's selection is the device its row shows |
| Dialogs.DeviceSelectionDialog.ClearSavedConfig | dialogs.py:783-793 | when a configuration was deleted every row shows the default and every microphone is unset |
| Dialogs.DeviceSelectionDialog.LoadSavedConfig | dialogs.py:854-884 | a saved count applies only within 1..8 and unsets all; saved devices for existing microphones are recorded and shown, later ones ignored; after a valid count the list has one entry per microphone, None past the saved ones; otherwise it grows only to the last recorded microphone and later entries are kept |
| Dialogs.DeviceSelectionDialog.LoadSavedDevices | dialogs.py:864-884 | the saved devices of existing microphones are recorded and shown in their rows; the list grows only to reach the last recorded microphone, and other entries, rows and later devices are left alone |
| Dialogs.DeviceSelectionDialog.RecordSaved | dialogs.py:869-884 | microphone i's entry becomes the device (appended when the list ends at i), and its row, if any, shows it |
| Dialogs.DeviceSelectionDialog.GetSelectedDevices | dialogs.py:921-935 | each of the first min(num_channels, rows) entries becomes the device its row shows (appended when the list is shorter), later entries are kept; the result is the first min(num_channels, len) entries, so with a row per microphone exactly the devices the rows show |
| Dialogs.DeviceSelectionDialog.Accept | dialogs.py:948-960 | exactly one device per microphone, each the one its row shows |

## Findings

| source | as written | input that shows it | evidently intended | confidence | as-written member | corrected member |
|---|---|---|---|---|---|---|
| visualizer.py:1084-1086 | after a PortAudio error, start-up gives up when the rate just tried equals 192000, wherever it stands in the list | a device whose default rate is 192000 that fails at 192000 and opens at 44100: start-up aborts at the first attempt | give up only after the last position of the list has failed | high, not executed | Session.TryRatesAsWritten, Session.PreferredLastRateAbortsEarly | Session.TryRates, Session.TryRatesChoosesFirstStarted |
| main.py:1130-1136 | the same value comparison in the older start-up | the same device as above | the same as above | high, not executed | Session.TryRatesAsWritten, Session.PreferredLastRateAbortsEarly | Session.TryRates, Session.TryRatesFindsFirstStarted |
| main.py:670-671 | a block's first timestamp is the buffer length times the step, which stops growing once the window is full | a full window (shown with 2 points at times 0 and 1, step 1) fed two one-sample blocks: both are stamped at time 2 | continue one step after the newest stored timestamp, as visualizer.py:664-670 does | medium, not executed | TimePlot.AppendBlockByLength, TimePlot.LengthStampingRepeatsTimes | TimePlot.AppendBlock, TimePlot.AppendKeepsIncreasing |

The rest of the model uses the corrected definitions: `Visualizer.ChannelStream` tries
rates with `Session.TryRates`, and time-plot frames stamp with `TimePlot.AppendBlock`.

## Left out

- Visualizer.AudioVisualizer.Callback: the reset of a non-finite RMS to 0 (visualizer.py:547-548) is not modelled, because real arithmetic on sanitised samples is always finite.
- Display.SmoothRange: the reset of a non-finite range to ±0.1 (visualizer.py:843-845) is not modelled, for the same reason.
- Levels.Rms: float32 rounding of the samples, the mean and the square root is not modelled; the RMS is exact over the reals.
- TimePlot.Stamp: the timestamps are exact reals, while the source computes them in float32 and could repeat them in a very long run.
- Levels.Block: input arrays with more than two dimensions (flattened at visualizer.py:518-527) are not modelled.
- Visualizer.AudioVisualizer.Start: `sys.exit(1)` after a failed start becomes the result `false`. Console output is left out. A stream that was created but whose `start()` failed is never in the list and is not modelled.
- The older `start`, `stop` and audio callback in main.py (lines 520-600 and 1067-1189) match the ones in visualizer.py apart from console printing, so one model covers both.
- The older display loop's time-plot path (main.py:648-757) is modelled by its parts rather than as one per-frame function: length stamping, the cache period of 3, decimation and frame skipping.
- Visualizer.AudioVisualizer.UpdatePlots and the other class methods require `sampleRate > 0` as a class invariant; with 0 the source divides by zero at visualizer.py:657.
- Dialogs.DeviceSelectionDialog.OnChannelsChanged requires the new count in 1..8, the range of the channel-count spin box.
- Visualizer.AudioVisualizer.ApplySettings and ApplyLegacySettings require the gain in [0, 2] and the adjustment in [0.1, 2], the ranges of the settings dialog's widgets.
- Stream `i` is read as channel `i`'s stream, as the source does; start-up stops at the first failure, so the two always line up.
- Wall-clock time is left out: `time_plot_start_time`, the FPS counter and label, the timer, the FPS lock and the pause state.
- Drawing is left out: `setData`, view limits, per-plot last ranges, the level bar's colour and position, the level and dB labels, and the "highest average" text.
- Qt widgets, layouts, styling, fullscreen views, key handling and menus are left out.
- In dialogs.py the input-device list is a parameter, and the saved configuration is passed in as parameters instead of read from a JSON file. `save_device_config` and the message boxes are left out.
- `setCurrentIndex` inside `add_device_selection` and `load_saved_config` re-enters `on_device_changed`. That call writes the value already recorded, so it is not modelled.
- Audio threading: callbacks and display frames are separate calls on the object, in any order. Locking and true concurrency are not modelled.
