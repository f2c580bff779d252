/**
 * One row of the `probe` table (src/subcommand/probe.rs): a supported
 * output stream configuration with its sample-rate range and buffer-size
 * range written out as text, a range as "min–max" with an en dash.
 */
module Probe {
  import opened Common

  /** The formats an audio device may support (cpal's `SampleFormat`). */
  datatype SampleFormat = I8 | I16 | I32 | I64 | U8 | U16 | U32 | U64 | F32 | F64

  datatype SupportedBufferSize = Unknown | Range(min: u32, max: u32)

  datatype SupportedStreamConfigRange = SupportedStreamConfigRange(
    bufferSize: SupportedBufferSize,
    channels: u16,
    minSampleRate: u32,
    maxSampleRate: u32,
    sampleFormat: SampleFormat)

  datatype StreamConfig = StreamConfig(bufferSize: string, channels: u16, sampleFormat: SampleFormat, sampleRate: string)

  /** U+2013, the en dash between the ends of a range. */
  const Dash: char := '\U{2013}'

  /** "{min}–{max}" */
  function RangeText(min: nat, max: nat): string {
    Decimal(min) + [Dash] + Decimal(max)
  }

  /** `From<SupportedStreamConfigRange> for StreamConfig` */
  function From(config: SupportedStreamConfigRange): (r: StreamConfig)
    ensures r.channels == config.channels && r.sampleFormat == config.sampleFormat
    ensures config.minSampleRate == config.maxSampleRate ==> r.sampleRate == Decimal(config.minSampleRate)
    ensures config.minSampleRate != config.maxSampleRate ==> r.sampleRate == RangeText(config.minSampleRate, config.maxSampleRate)
    ensures config.bufferSize.Unknown? ==> r.bufferSize == "unknown"
    ensures config.bufferSize.Range? ==> r.bufferSize == RangeText(config.bufferSize.min, config.bufferSize.max)
  {
    StreamConfig(
      match config.bufferSize
        case Unknown => "unknown"
        case Range(min, max) => RangeText(min, max),
      config.channels,
      config.sampleFormat,
      if config.minSampleRate == config.maxSampleRate then Decimal(config.minSampleRate)
      else RangeText(config.minSampleRate, config.maxSampleRate))
  }

  /** The position of the first en dash in s, if there is one. */
  function DashIndex(s: string): (r: Option<nat>)
    ensures r.Some? ==> r.value < |s| && s[r.value] == Dash && forall k :: 0 <= k < r.value ==> s[k] != Dash
    ensures r.None? ==> forall k :: 0 <= k < |s| ==> s[k] != Dash
  {
    if s == [] then None
    else if s[0] == Dash then Some(0)
    else match DashIndex(s[1..])
      case None => None
      case Some(i) => Some(i + 1)
  }

  /** Reads a cell back: one number n as the range n..n, or two numbers around a dash. */
  function ParseRange(s: string): Option<(nat, nat)> {
    match DashIndex(s)
    case None => if |s| > 0 && AllDigits(s) then Some((ParseDecimal(s), ParseDecimal(s))) else None
    case Some(i) =>
      if i > 0 && i + 1 < |s| && AllDigits(s[..i]) && AllDigits(s[i + 1..])
      then Some((ParseDecimal(s[..i]), ParseDecimal(s[i + 1..])))
      else None
  }

  /** A range cell reads back as its two ends. */
  lemma RangeReadBack(min: nat, max: nat)
    ensures ParseRange(RangeText(min, max)) == Some((min, max))
  {
    var s, n := RangeText(min, max), |Decimal(min)|;
    var d := DashIndex(s);
    assert s[n] == Dash;
    assert forall k :: 0 <= k < n ==> IsDigit(s[k]);
    assert forall k :: n < k < |s| ==> IsDigit(s[k]);
    assert d == Some(n);
    assert s[..n] == Decimal(min) && s[n + 1..] == Decimal(max);
    ParseDecimalOfDecimal(min);
    ParseDecimalOfDecimal(max);
  }

  /** The sample-rate cell of a configuration reads back as its range. */
  lemma SampleRateReadBack(config: SupportedStreamConfigRange)
    ensures ParseRange(From(config).sampleRate) == Some((config.minSampleRate, config.maxSampleRate))
  {
    if config.minSampleRate == config.maxSampleRate {
      var s := Decimal(config.minSampleRate);
      assert forall k :: 0 <= k < |s| ==> IsDigit(s[k]);
      ParseDecimalOfDecimal(config.minSampleRate);
    } else {
      RangeReadBack(config.minSampleRate, config.maxSampleRate);
    }
  }

  /** The buffer-size cell reads back as its range, and "unknown" as no range. */
  lemma BufferSizeReadBack(config: SupportedStreamConfigRange)
    ensures ParseRange(From(config).bufferSize) == match config.bufferSize
      case Unknown => None
      case Range(min, max) => Some((min, max))
  {
    if config.bufferSize.Range? {
      RangeReadBack(config.bufferSize.min, config.bufferSize.max);
    } else {
      assert !IsDigit("unknown"[0]);
    }
  }

  /** Consequently two configurations with the same cells have the same ranges. */
  lemma CellsDetermineRanges(a: SupportedStreamConfigRange, b: SupportedStreamConfigRange)
    requires From(a) == From(b)
    ensures a.minSampleRate == b.minSampleRate && a.maxSampleRate == b.maxSampleRate
    ensures a.bufferSize == b.bufferSize
  {
    SampleRateReadBack(a);
    SampleRateReadBack(b);
    BufferSizeReadBack(a);
    BufferSizeReadBack(b);
  }
}
