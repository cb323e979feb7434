/**
 * Opening the audio streams: which device each channel uses, the rate it asks
 * for first, and the fallback rates tried after a PortAudio error.
 *
 * The audio backend is not modelled: the device query and the outcome of opening
 * and starting a stream at a rate are parameters of function type.
 */
module Session {
  import opened Wrappers

  /** What `sd.query_devices(device)` reports about an input device. */
  datatype DeviceInfo = DeviceInfo(maxInputChannels: nat, defaultRate: Option<real>)

  /** How opening and starting a stream at one rate ends. */
  datatype Attempt = Started | PortAudioError | OtherError

  /** The rates tried after the preferred one, in order. */
  const FallbackRates: seq<int> := [44100, 48000, 96000, 192000]

  /** The last rate of every list of rates tried. */
  const LastRate: int := 192000

  /** The device of channel `ch`: none (the default device) when the list is missing or too short. */
  function DeviceFor(devices: Option<seq<Option<int>>>, ch: nat): (r: Option<int>)
    ensures devices.Some? && ch < |devices.value| ==> r == devices.value[ch]
    ensures devices.None? || ch >= |devices.value| ==> r.None?
  {
    if devices.Some? && ch < |devices.value| then devices.value[ch] else None
  }

  /** Python's `int(x)` on a float: truncation toward zero. */
  function Truncate(x: real): (r: int)
    ensures x >= 0.0 ==> r as real <= x < r as real + 1.0
    ensures x < 0.0 ==> r as real - 1.0 < x <= r as real
  {
    if x >= 0.0 then x.Floor else -((-x).Floor)
  }

  /**
   * The rate a channel asks for first. The default device uses the configured rate. A chosen
   * device must answer the query and have an input channel (otherwise start-up aborts: None);
   * it then uses its own default rate truncated toward zero, or the configured rate when it
   * reports none or 0.
   */
  function PreferredRate(device: Option<int>, query: int -> Option<DeviceInfo>, configured: int): (r: Option<int>)
    ensures device.None? ==> r == Some(configured)
    ensures device.Some? && query(device.value).None? ==> r.None?
    ensures device.Some? && query(device.value).Some? ==>
      var info := query(device.value).value;
      && (info.maxInputChannels == 0 ==> r.None?)
      && (info.maxInputChannels > 0 && (info.defaultRate.None? || info.defaultRate == Some(0.0)) ==> r == Some(configured))
      && (info.maxInputChannels > 0 && info.defaultRate.Some? && info.defaultRate.value != 0.0 ==>
            && r.Some?
            && (info.defaultRate.value > 0.0 ==> r.value as real <= info.defaultRate.value < r.value as real + 1.0)
            && (info.defaultRate.value < 0.0 ==> r.value as real - 1.0 < info.defaultRate.value <= r.value as real))
  {
    if device.None? then Some(configured)
    else match query(device.value)
      case None => None
      case Some(info) =>
        if info.maxInputChannels == 0 then None
        else if info.defaultRate.None? || info.defaultRate.value == 0.0 then Some(configured)
        else Some(Truncate(info.defaultRate.value))
  }

  /** `[sample_rate, 44100, 48000, 96000, 192000]` */
  function RatesToTry(preferred: int): (r: seq<int>)
    ensures |r| == 5 && r[0] == preferred && r[1..] == FallbackRates && r[4] == LastRate
  {
    [preferred] + FallbackRates
  }

  /**
   * The rate a channel's stream ends up at, trying the rates in order: the first that starts,
   * unless an error other than a PortAudio error comes first or the last rate fails too (None).
   */
  function TryRates(rates: seq<int>, attempt: int -> Attempt): (r: Option<int>)
    ensures r.Some? ==> r.value in rates && attempt(r.value) == Started
    ensures |rates| > 0 && attempt(rates[0]) == OtherError ==> r.None?
    decreases |rates|
  {
    if rates == [] then None
    else match attempt(rates[0])
      case Started => Some(rates[0])
      case OtherError => None
      case PortAudioError => if |rates| == 1 then None else TryRates(rates[1..], attempt)
  }

  /** Every rate before position `k` failed with a PortAudio error. */
  predicate FailedBefore(rates: seq<int>, attempt: int -> Attempt, k: nat)
    requires k <= |rates|
  {
    forall j :: 0 <= j < k ==> attempt(rates[j]) == PortAudioError
  }

  /** A chosen rate is at some position that started, after PortAudio errors at every earlier position. */
  lemma {:induction false} TryRatesChoosesFirstStarted(rates: seq<int>, attempt: int -> Attempt) returns (k: nat)
    requires TryRates(rates, attempt).Some?
    ensures k < |rates| && rates[k] == TryRates(rates, attempt).value
    ensures attempt(rates[k]) == Started && FailedBefore(rates, attempt, k)
    decreases |rates|
  {
    if attempt(rates[0]) == Started {
      k := 0;
    } else {
      var i := TryRatesChoosesFirstStarted(rates[1..], attempt);
      k := i + 1;
      forall j | 0 <= j < k ensures attempt(rates[j]) == PortAudioError {
        if j > 0 { assert rates[j] == rates[1..][j - 1]; }
      }
    }
  }

  /** Conversely, a position that starts after PortAudio errors at every earlier one is the rate chosen. */
  lemma {:induction false} TryRatesFindsFirstStarted(rates: seq<int>, attempt: int -> Attempt, k: nat)
    requires k < |rates| && attempt(rates[k]) == Started && FailedBefore(rates, attempt, k)
    ensures TryRates(rates, attempt) == Some(rates[k])
    decreases k
  {
    if k > 0 {
      assert attempt(rates[0]) == PortAudioError;
      forall j | 0 <= j < k - 1 ensures attempt(rates[1..][j]) == PortAudioError {
        assert rates[1..][j] == rates[j + 1];
      }
      TryRatesFindsFirstStarted(rates[1..], attempt, k - 1);
    }
  }

  /** Giving up means some rate failed with another error, or every rate failed with a PortAudio error. */
  lemma {:induction false} TryRatesGivesUp(rates: seq<int>, attempt: int -> Attempt) returns (k: nat)
    requires TryRates(rates, attempt).None? && |rates| > 0
    ensures k < |rates| && FailedBefore(rates, attempt, k)
    ensures attempt(rates[k]) == OtherError || (k == |rates| - 1 && attempt(rates[k]) == PortAudioError)
    decreases |rates|
  {
    if attempt(rates[0]) == PortAudioError && |rates| > 1 {
      var i := TryRatesGivesUp(rates[1..], attempt);
      k := i + 1;
      forall j | 0 <= j < k ensures attempt(rates[j]) == PortAudioError {
        if j > 0 { assert rates[j] == rates[1..][j - 1]; }
      }
    } else {
      k := 0;
    }
  }

  /**
   * The loop as written: after a PortAudio error it gives up when the rate just tried EQUALS
   * the last rate of the list, wherever in the list that rate stands.
   */
  function TryRatesAsWritten(rates: seq<int>, last: int, attempt: int -> Attempt): (r: Option<int>)
    ensures r.Some? ==> r.value in rates && attempt(r.value) == Started
    ensures |rates| > 0 && rates[0] == last && attempt(last) == PortAudioError ==> r.None?
    decreases |rates|
  {
    if rates == [] then None
    else match attempt(rates[0])
      case Started => Some(rates[0])
      case OtherError => None
      case PortAudioError => if rates[0] == last then None else TryRatesAsWritten(rates[1..], last, attempt)
  }

  /** When the last rate appears only at the end, comparing by value and by position agree. */
  lemma {:induction false} AsWrittenAgreesWithoutEarlyLast(rates: seq<int>, attempt: int -> Attempt)
    requires |rates| > 0
    requires forall j :: 0 <= j < |rates| - 1 ==> rates[j] != rates[|rates| - 1]
    ensures TryRatesAsWritten(rates, rates[|rates| - 1], attempt) == TryRates(rates, attempt)
    decreases |rates|
  {
    if |rates| > 1 {
      var rest := rates[1..];
      assert rest[|rest| - 1] == rates[|rates| - 1];
      forall j | 0 <= j < |rest| - 1 ensures rest[j] != rest[|rest| - 1] {
        assert rest[j] == rates[j + 1];
      }
      AsWrittenAgreesWithoutEarlyLast(rest, attempt);
    }
  }

  /** For every preferred rate other than 192000 the written start-up behaves as intended. */
  lemma AsWrittenAgreesUnlessPreferredIsLast(preferred: int, attempt: int -> Attempt)
    requires preferred != LastRate
    ensures TryRatesAsWritten(RatesToTry(preferred), LastRate, attempt) == TryRates(RatesToTry(preferred), attempt)
  {
    AsWrittenAgreesWithoutEarlyLast(RatesToTry(preferred), attempt);
  }

  /**
   * A device whose default rate is 192000 and that cannot open at that rate but can at 44100:
   * the written loop aborts start-up at the first attempt, the intended one opens at 44100.
   */
  lemma PreferredLastRateAbortsEarly()
    ensures var attempt := (r: int) => if r == 44100 then Started else PortAudioError;
      && TryRatesAsWritten(RatesToTry(LastRate), LastRate, attempt) == None
      && TryRates(RatesToTry(LastRate), attempt) == Some(44100)
  {
    var attempt := (r: int) => if r == 44100 then Started else PortAudioError;
    var rates := RatesToTry(LastRate);
    assert rates[1..] == FallbackRates;
    assert rates[1..][1..] == [48000, 96000, 192000];
  }
}
