/**
 * How CpalDriver::new picks the output stream configuration: it takes the
 * FIRST supported range with two channels and signed 16-bit samples, then
 * fails unless that range admits 32000 Hz; a later range is never tried.
 * On success the stream runs at exactly 32000 Hz. Opening and running the
 * stream itself is not part of this model.
 */
module CpalDriver {
  import opened Wrappers
  import opened Display

  /** The DSP's fixed output rate, which the driver never resamples. */
  const NATIVE_RATE: nat := 32000

  datatype SampleFormat = I16 | U16 | F32

  /** One supported output configuration range a device reports. */
  datatype ConfigRange = ConfigRange(channels: nat, sampleFormat: SampleFormat, minSampleRate: nat, maxSampleRate: nat)

  /** The configuration the stream is opened with. */
  datatype StreamConfig = StreamConfig(channels: nat, sampleFormat: SampleFormat, sampleRate: nat)

  /** The default output device: its supported ranges, or None when querying them failed. */
  datatype Device = Device(supportedOutputConfigs: Option<seq<ConfigRange>>)

  datatype DriverError =
    | NoDevice
    | QueryFailed
    | NoSupportedConfig
    | InvalidSamplingRange(min: nat, max: nat)

  predicate IsStereoI16(r: ConfigRange) {
    r.channels == 2 && r.sampleFormat == I16
  }

  predicate AdmitsNativeRate(r: ConfigRange) {
    r.minSampleRate <= NATIVE_RATE && NATIVE_RATE <= r.maxSampleRate
  }

  /** The position at which the `find` over the ranges stops, if it finds one. */
  function FindStereoI16(ranges: seq<ConfigRange>): (found: Option<nat>)
    ensures found.None? <==> forall j :: 0 <= j < |ranges| ==> !IsStereoI16(ranges[j])
    ensures found.Some? ==>
      && found.value < |ranges|
      && IsStereoI16(ranges[found.value])
      && forall j :: 0 <= j < found.value ==> !IsStereoI16(ranges[j])
  {
    if ranges == [] then None
    else if IsStereoI16(ranges[0]) then Some(0)
    else match FindStereoI16(ranges[1..])
      case None => None
      case Some(i) => Some(i + 1)
  }

  /** The configuration chosen from the device's ranges, or why none is. */
  function SelectConfig(ranges: seq<ConfigRange>): (r: Result<StreamConfig, DriverError>)
    ensures r.Success? ==> r.value == StreamConfig(2, I16, NATIVE_RATE)
  {
    match FindStereoI16(ranges)
    case None => Failure(NoSupportedConfig)
    case Some(i) =>
      var range := ranges[i];
      if !(range.minSampleRate <= 32000 && 32000 <= range.maxSampleRate) then
        Failure(InvalidSamplingRange(range.minSampleRate, range.maxSampleRate))
      else
        Success(StreamConfig(range.channels, range.sampleFormat, 32000))
  }

  /**
   * Selection succeeds exactly when the first stereo 16-bit range admits
   * 32000 Hz; it fails with NoSupportedConfig when there is no stereo 16-bit
   * range at all, and otherwise reports the first such range's bounds.
   */
  lemma SelectConfigSpec(ranges: seq<ConfigRange>)
    ensures SelectConfig(ranges).Success? <==>
      exists i :: 0 <= i < |ranges| && IsStereoI16(ranges[i]) && AdmitsNativeRate(ranges[i])
                 && forall j :: 0 <= j < i ==> !IsStereoI16(ranges[j])
    ensures SelectConfig(ranges) == Failure(NoSupportedConfig) <==>
      forall j :: 0 <= j < |ranges| ==> !IsStereoI16(ranges[j])
    ensures SelectConfig(ranges).Failure? && SelectConfig(ranges).error.InvalidSamplingRange? ==>
      exists i :: 0 <= i < |ranges| && IsStereoI16(ranges[i]) && !AdmitsNativeRate(ranges[i])
                 && (forall j :: 0 <= j < i ==> !IsStereoI16(ranges[j]))
                 && SelectConfig(ranges).error == InvalidSamplingRange(ranges[i].minSampleRate, ranges[i].maxSampleRate)
    ensures forall i :: 0 <= i < |ranges| && IsStereoI16(ranges[i]) && !AdmitsNativeRate(ranges[i])
                        && (forall j :: 0 <= j < i ==> !IsStereoI16(ranges[j])) ==>
      SelectConfig(ranges) == Failure(InvalidSamplingRange(ranges[i].minSampleRate, ranges[i].maxSampleRate))
  {
    forall i | 0 <= i < |ranges| && IsStereoI16(ranges[i]) && !AdmitsNativeRate(ranges[i])
               && (forall j :: 0 <= j < i ==> !IsStereoI16(ranges[j]))
      ensures SelectConfig(ranges) == Failure(InvalidSamplingRange(ranges[i].minSampleRate, ranges[i].maxSampleRate))
    {
      assert FindStereoI16(ranges).Some? && FindStereoI16(ranges).value == i;
    }
    match FindStereoI16(ranges)
    case None =>
    case Some(i) =>
  }

  /**
   * There is no fallback: when the first stereo 16-bit range excludes
   * 32000 Hz, selection fails even though a later one admits it.
   */
  lemma NoFallbackToLaterRange()
    ensures var ranges := [ConfigRange(2, I16, 44100, 48000), ConfigRange(2, I16, 8000, 96000)];
            && IsStereoI16(ranges[1]) && AdmitsNativeRate(ranges[1])
            && SelectConfig(ranges) == Failure(InvalidSamplingRange(44100, 48000))
  {
    var ranges := [ConfigRange(2, I16, 44100, 48000), ConfigRange(2, I16, 8000, 96000)];
    assert FindStereoI16(ranges) == Some(0);
  }

  /** The whole negotiation: a default output device, its ranges, then the selection. */
  function NegotiateConfig(device: Option<Device>): (r: Result<StreamConfig, DriverError>)
    ensures device.None? ==> r == Failure(NoDevice)
    ensures device.Some? && device.value.supportedOutputConfigs.None? ==> r == Failure(QueryFailed)
    ensures device.Some? && device.value.supportedOutputConfigs.Some? ==>
      r == SelectConfig(device.value.supportedOutputConfigs.value)
    ensures r.Success? ==> r.value == StreamConfig(2, I16, NATIVE_RATE)
  {
    match device
    case None => Failure(NoDevice)
    case Some(d) =>
      match d.supportedOutputConfigs
      case None => Failure(QueryFailed)
      case Some(ranges) => SelectConfig(ranges)
  }

  /** The context each failure is reported with; each fixed text belongs to one kind of failure. */
  function ErrorMessage(e: DriverError): (msg: string)
    ensures e.NoDevice? <==> msg == "no input device available"
    ensures e.QueryFailed? <==> msg == "error while querying configs"
    ensures e.NoSupportedConfig? <==> msg == "no supported config found"
  {
    match e
    case NoDevice => "no input device available"
    case QueryFailed => "error while querying configs"
    case NoSupportedConfig => "no supported config found"
    case InvalidSamplingRange(min, max) => RangeMessage(min, max)
  }

  /** The message for a range that does not admit 32000 Hz. */
  function RangeMessage(min: nat, max: nat): (msg: string)
    ensures |msg| > 0 && msg[0] == 'i'
  {
    "invalid sampling range " + NatToString(min) + " to " + NatToString(max) + " does not include 32000"
  }

  /**
   * The message determines the failure: in particular the range message
   * reports the bounds of the range that was rejected, and no other.
   */
  lemma ErrorMessageIdentifiesError(e: DriverError, e': DriverError)
    requires ErrorMessage(e) == ErrorMessage(e')
    ensures e == e'
  {
    if e.InvalidSamplingRange? && e'.InvalidSamplingRange? {
      RangeMessageInjective(e.min, e.max, e'.min, e'.max);
    }
  }

  /** Two range messages are equal only for equal bounds. */
  lemma RangeMessageInjective(min: nat, max: nat, min': nat, max': nat)
    requires RangeMessage(min, max) == RangeMessage(min', max')
    ensures min == min' && max == max'
  {
    var head, to, tail := "invalid sampling range ", " to ", " does not include 32000";
    var a, b := NatToString(min), NatToString(max);
    var a', b' := NatToString(min'), NatToString(max');
    Reassociate(head, a, to, b, tail);
    Reassociate(head, a', to, b', tail);
    DropPrefix(head, a + (to + (b + tail)), a' + (to + (b' + tail)));
    DigitsThenSpace(a, to + (b + tail), a', to + (b' + tail));
    DropPrefix(to, b + tail, b' + tail);
    DigitsThenSpace(b, tail, b', tail);
    NatToStringRoundTrip(min);
    NatToStringRoundTrip(min');
    NatToStringRoundTrip(max);
    NatToStringRoundTrip(max');
  }

  lemma Reassociate(p: string, a: string, t: string, b: string, s: string)
    ensures p + a + t + b + s == p + (a + (t + (b + s)))
  {}

  lemma DropPrefix(p: string, x: string, y: string)
    requires p + x == p + y
    ensures x == y
  {
    assert x == (p + x)[|p|..];
    assert y == (p + y)[|p|..];
  }

  /** A run of digits followed by a space splits in one way only. */
  lemma DigitsThenSpace(d: string, rest: string, d': string, rest': string)
    requires IsDigits(d) && IsDigits(d') && |rest| > 0 && |rest'| > 0
    requires rest[0] == ' ' && rest'[0] == ' ' && d + rest == d' + rest'
    ensures d == d' && rest == rest'
  {
    if |d| < |d'| {
      CharAfterShorter(d, rest, d', rest');
    } else if |d'| < |d| {
      CharAfterShorter(d', rest', d, rest);
    } else {
      assert d == (d + rest)[..|d|];
      assert d' == (d' + rest')[..|d|];
      assert rest == (d + rest)[|d|..];
      assert rest' == (d' + rest')[|d|..];
    }
  }

  /** Where the shorter of two equal splits ends, the longer one still has a character of its own. */
  lemma CharAfterShorter(d: string, rest: string, d': string, rest': string)
    requires |d| < |d'| && |rest| > 0 && d + rest == d' + rest'
    ensures rest[0] == d'[|d|]
  {
    assert (d + rest)[|d|] == rest[0];
    assert (d' + rest')[|d|] == d'[|d|];
  }
}
