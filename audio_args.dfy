/** The ffmpeg argument list built for an audio job: the input, an optional trim
    window, one `-af` filter chain (volume, basic processing, time-based effects,
    restoration, advanced processing and finally the playback-speed stages), the
    codec for the container, the sample rate, the channel count, the bitrate for lossy
    formats and finally `-y <output>`. */
module AudioCommand {
  import opened Wrappers
  import opened Strings
  import opened Options
  import opened Tempo
  import opened FFmpegArgs

  // ---------------------------------------------------------------------------
  // Volume and basic processing

  /** The main volume is a linear factor; 1 leaves the level alone. */
  function VolumeSegment(volume: real): seq<string> {
    if volume != 1.0 then ["volume=" + Fmt2(volume)] else []
  }

  /** Amplification in decibels, on top of the main volume. */
  function AmplifySegment(amplify: Option<real>): seq<string> {
    if amplify.Some? && amplify.value != 0.0 then ["volume=" + Fmt2(amplify.value) + "dB"]
    else []
  }

  const FadeInPrefix := "afade=t=in:d="
  const FadeOutPrefix := "afade=t=out:d="

  /** A fade (in or out, after its filter prefix) lasting a positive number of
      seconds. */
  function FadeSegment(prefix: string, seconds: Option<real>): seq<string> {
    if seconds.Some? && seconds.value > 0.0 then [prefix + Fmt2(seconds.value)] else []
  }

  /** One peaking band an octave wide at `freq` Hz with `gain` dB. */
  function EqBand(freq: string, gain: string): string {
    "equalizer=f=" + freq + ":width_type=o:width=2:g=" + gain
  }

  /** The equalizer presets, as comma-separated bands; any other name is empty. */
  function EqualizerPreset(preset: string): string {
    if preset == "bass-boost" then EqBand("80", "6")
    else if preset == "treble-boost" then EqBand("10000", "6")
    else if preset == "vocal" then EqBand("1000", "3") + "," + EqBand("3000", "3")
    else if preset == "classical" then
      EqBand("315", "2") + "," + EqBand("1000", "-2") + "," + EqBand("8000", "4")
    else if preset == "rock" then
      EqBand("80", "4") + "," + EqBand("250", "-2") + "," + EqBand("1000", "2") + ","
      + EqBand("4000", "4")
    else if preset == "jazz" then
      EqBand("125", "3") + "," + EqBand("500", "-2") + "," + EqBand("2000", "2") + ","
      + EqBand("8000", "3")
    else ""
  }

  function EqualizerSegment(eq: Option<Equalizer>): seq<string> {
    if eq.Some? && eq.value.enabled && eq.value.preset != "none"
       && EqualizerPreset(eq.value.preset) != "" then
      [EqualizerPreset(eq.value.preset)]
    else []
  }

  /** Pan from -100 (left) to 100 (right) as a two-channel mix matrix. */
  function PanFilter(pan: real): string {
    var p := pan / 100.0;
    "pan=stereo|c0=" + Fmt2(1.0 - p) + "*c0+" + Fmt2(p) + "*c1|c1=" + Fmt2(p) + "*c0+"
    + Fmt2(1.0 - p) + "*c1"
  }

  function PanSegment(pan: Option<real>): seq<string> {
    if pan.Some? && pan.value != 0.0 then [PanFilter(pan.value)] else []
  }

  /** Stereo width in percent; 100 leaves the image alone. */
  function WidthSegment(width: Option<real>): seq<string> {
    if width.Some? && width.value != 100.0 then ["extrastereo=m=" + Fmt2(width.value / 100.0)]
    else []
  }

  const MonoMix := "pan=mono|c0=0.5*c0+0.5*c1"
  const ChannelSwapMix := "pan=stereo|c0=c1|c1=c0"

  function StereoFilters(st: Option<Stereo>): seq<string> {
    if st.Some? then
      PanSegment(st.value.pan) + WidthSegment(st.value.width)
      + FlagSegment(st.value.monoConversion, MonoMix)
      + FlagSegment(st.value.channelSwap, ChannelSwapMix)
    else []
  }

  function BasicFilters(bp: Option<BasicProcessing>): seq<string> {
    if bp.Some? then
      FlagSegment(bp.value.normalize, "loudnorm") + AmplifySegment(bp.value.amplify)
      + FadeSegment(FadeInPrefix, bp.value.fadeIn) + FadeSegment(FadeOutPrefix, bp.value.fadeOut)
      + EqualizerSegment(bp.value.equalizer) + StereoFilters(bp.value.stereo)
    else []
  }

  // ---------------------------------------------------------------------------
  // Time-based effects

  /** The reverb presets as echo filters; any other name is empty. */
  function ReverbPreset(kind: string): string {
    if kind == "room" then "aecho=0.8:0.88:60:0.4"
    else if kind == "hall" then "aecho=0.8:0.88:60:0.4" + "," + "aecho=0.8:0.88:40:0.3"
    else if kind == "plate" then "aecho=0.8:0.7:40:0.25"
    else if kind == "spring" then "aecho=0.6:0.6:100:0.5"
    else ""
  }

  function ReverbSegment(r: Option<Reverb>): seq<string> {
    if r.Some? && r.value.enabled && r.value.kind != "none" && ReverbPreset(r.value.kind) != "" then
      [ReverbPreset(r.value.kind)]
    else []
  }

  /** How the formatter renders a verb that has no operand left. */
  const MissingOperand := "%!f(MISSING)"

  /** The delay filters. Feedback is a percentage and the delay is in milliseconds,
      printed without decimals. The multi-tap template has six verbs for five
      operands: from its second echo on, every value moves one verb to the left
      (the tap delay is printed with two decimals, the feedback rounded to a whole
      number) and the last verb renders as `MissingOperand`. */
  function DelayFilter(kind: string, time: real, feedback: real): string {
    var fb := feedback / 100.0;
    if kind == "echo" || kind == "ping-pong" then
      "aecho=0.8:" + Fmt2(fb) + ":" + FormatFixed(time, 0) + ":" + Fmt2(fb)
    else if kind == "multi-tap" then
      "aecho=0.8:" + Fmt2(fb) + ":" + FormatFixed(time, 0) + ":" + Fmt2(fb * 0.8)
      + ",aecho=0.6:" + Fmt2(time * 1.5) + ":" + FormatFixed(fb * 0.6, 0) + ":" + MissingOperand
    else ""
  }

  function DelaySegment(d: Option<Delay>): seq<string> {
    if d.Some? && d.value.enabled && d.value.kind != "none"
       && DelayFilter(d.value.kind, d.value.time, d.value.feedback) != "" then
      [DelayFilter(d.value.kind, d.value.time, d.value.feedback)]
    else []
  }

  /** Chorus and flanger are fixed; tremolo and vibrato take the rate in Hz and the
      depth in percent. Any other kind (a phaser, say) is empty. */
  function ModulationFilter(kind: string, rate: real, depth: real): string {
    if kind == "chorus" then "chorus=0.7:0.9:55:0.4:0.25:2:t"
    else if kind == "flanger" then "flanger"
    else if kind == "tremolo" then "tremolo=f=" + Fmt2(rate) + ":d=" + Fmt2(depth / 100.0)
    else if kind == "vibrato" then "vibrato=f=" + Fmt2(rate) + ":d=" + Fmt2(depth / 100.0)
    else ""
  }

  function ModulationSegment(m: Option<Modulation>): seq<string> {
    if m.Some? && m.value.enabled && m.value.kind != "none"
       && ModulationFilter(m.value.kind, m.value.rate, m.value.depth) != "" then
      [ModulationFilter(m.value.kind, m.value.rate, m.value.depth)]
    else []
  }

  function TimeBasedFilters(tbe: Option<TimeBasedEffects>): seq<string> {
    if tbe.Some? then
      ReverbSegment(tbe.value.reverb) + DelaySegment(tbe.value.delay)
      + ModulationSegment(tbe.value.modulation)
    else []
  }

  // ---------------------------------------------------------------------------
  // Restoration

  /** Noise reduction by kind: spectral denoising, non-local means, or a gate whose
      threshold runs from -40 dB (strength 0) to 0 dB (strength 100). */
  function NoiseReductionSegment(nr: Option<NoiseReduction>): seq<string> {
    if nr.Some? && nr.value.enabled then
      var s := nr.value.strength;
      if nr.value.kind == "spectral" then
        ["afftdn=nr=" + Fmt2(s / 10.0) + ":nf=" + Fmt2(s / 20.0)]
      else if nr.value.kind == "adaptive" then ["anlmdn=s=" + Fmt2(s / 10.0)]
      else if nr.value.kind == "gate" then
        ["agate=threshold=" + FormatFixed(-40.0 + s * 0.4, 1) + "dB:ratio=10"]
      else []
    else []
  }

  /** The mains frequency to notch out; automatic detection assumes 60 Hz. */
  function HumFrequency(frequency: string): string {
    if frequency == "50hz" then "50"
    else if frequency == "60hz" || frequency == "auto" then "60"
    else ""
  }

  function DeHumSegment(dh: Option<DeHum>): seq<string> {
    if dh.Some? && dh.value.enabled && HumFrequency(dh.value.frequency) != "" then
      ["equalizer=f=" + HumFrequency(dh.value.frequency) + ":width_type=q:width=0.5:g=-40"]
    else []
  }

  /** The clipping threshold is a percentage. */
  function DeclipSegment(dc: Option<Declip>): seq<string> {
    if dc.Some? && dc.value.enabled then ["adeclip=threshold=" + Fmt2(dc.value.threshold / 100.0)]
    else []
  }

  /** Leading silence below a threshold running from -50 dB (0) to 0 dB (100). */
  function SilenceSegment(sd: Option<SilenceDetection>): seq<string> {
    if sd.Some? && sd.value.enabled then
      ["silenceremove=" + "start_periods=1:start_threshold="
       + FormatFixed(-50.0 + sd.value.threshold * 0.5, 1) + "dB:start_duration="
       + Fmt2(sd.value.minDuration)]
    else []
  }

  function RestorationFilters(rest: Option<Restoration>): seq<string> {
    if rest.Some? then
      NoiseReductionSegment(rest.value.noiseReduction) + DeHumSegment(rest.value.deHum)
      + DeclipSegment(rest.value.declip) + SilenceSegment(rest.value.silenceDetection)
    else []
  }

  // ---------------------------------------------------------------------------
  // Advanced processing

  /** Pitch shifting resamples by `pitchRatio`, the value 2^(semitones/12) the
      floating-point library computes for the requested shift. */
  function PitchSegment(ps: Option<PitchShift>, pitchRatio: real): seq<string> {
    if ps.Some? && ps.value.enabled then
      ["asetrate=48000*" + FormatFixed(pitchRatio, 4) + ",aresample=48000"]
    else []
  }

  /** Time stretching by algorithm: rubberband, chained tempo stages, or a
      resampling that keeps formants. */
  function TimeStretchSegment(ts: Option<TimeStretch>): seq<string> {
    if ts.Some? && ts.value.enabled then
      var f := ts.value.factor;
      if ts.value.algorithm == "pitch" then ["rubberband=tempo=" + Fmt2(f)]
      else if ts.value.algorithm == "time" then Tokens(TimeStretchSpec(f))
      else if ts.value.algorithm == "formant" then ["asetrate=48000/" + Fmt2(f) + ",aresample=48000"]
      else []
    else []
  }

  function SpatialSegment(sa: Option<SpatialAudio>): seq<string> {
    if sa.Some? && sa.value.enabled && sa.value.kind != "none" then
      if sa.value.kind == "binaural" then ["crossfeed=strength=0.8:range=0.5"]
      else if sa.value.kind == "surround" then ["surround"]
      else if sa.value.kind == "3d" then ["sofalizer=" + "sofa=/usr/share/sofa/default.sofa"]
      else []
    else []
  }

  function AdvancedFilters(adv: Option<AudioAdvanced>, pitchRatio: real): seq<string> {
    if adv.Some? then
      PitchSegment(adv.value.pitchShift, pitchRatio) + TimeStretchSegment(adv.value.timeStretch)
      + SpatialSegment(adv.value.spatialAudio)
    else []
  }

  // ---------------------------------------------------------------------------
  // The chain

  /** Playback speed as tempo stages, last in the chain. */
  function SpeedSegment(speed: real): seq<string>
    requires speed > 0.0
  {
    if speed != 1.0 then Tokens(SpeedStagesSpec(speed)) else []
  }

  function AudioFilters(o: AudioOptions, pitchRatio: real): seq<string>
    requires o.speed > 0.0
  {
    VolumeSegment(o.volume) + BasicFilters(o.basicProcessing)
    + TimeBasedFilters(o.timeBasedEffects) + RestorationFilters(o.restoration)
    + AdvancedFilters(o.advanced, pitchRatio) + SpeedSegment(o.speed)
  }

  // ---------------------------------------------------------------------------
  // Argument segments

  function AfSegment(filters: seq<string>): seq<string> {
    if |filters| > 0 then ["-af", Join(filters, ",")] else []
  }

  /** The codec for each known container; others leave the choice to the encoder. */
  function CodecSegment(format: string): seq<string> {
    if format == "mp3" then ["-c:a", "libmp3lame"]
    else if format == "wav" then ["-c:a", "pcm_s16le"]
    else if format == "aac" then ["-c:a", "aac"]
    else if format == "ogg" then ["-c:a", "libvorbis"]
    else if format == "flac" then ["-c:a", "flac"]
    else if format == "opus" then ["-c:a", "libopus"]
    else if format == "ac3" then ["-c:a", "ac3"]
    else []
  }

  function ChannelsSegment(channels: string): seq<string> {
    if channels == "mono" then ["-ac", "1"]
    else if channels == "stereo" then ["-ac", "2"]
    else if channels == "5.1" then ["-ac", "6"]
    else if channels == "7.1" then ["-ac", "8"]
    else []
  }

  /** The lossless formats take no bitrate. */
  predicate Lossless(format: string) {
    format == "wav" || format == "flac" || format == "alac"
  }

  function BitrateSegment(format: string, bitrate: string): seq<string> {
    if !Lossless(format) then ["-b:a", bitrate + "k"] else []
  }

  /** The argument list around a given filter chain. */
  function AssembleAudioArgs(input: string, trim: Option<TrimRange>, filters: seq<string>,
                             format: string, sampleRate: string, channels: string,
                             bitrate: string, output: string): seq<string>
  {
    ["-i", input] + TrimSegment(trim) + AfSegment(filters) + CodecSegment(format)
    + ["-ar", sampleRate] + ChannelsSegment(channels) + BitrateSegment(format, bitrate)
    + ["-y", output]
  }

  function AudioArgs(o: AudioOptions, pitchRatio: real, input: string, output: string)
    : seq<string>
    requires o.speed > 0.0
  {
    AssembleAudioArgs(input, o.trim, AudioFilters(o, pitchRatio), o.format, o.sampleRate,
                      o.channels, o.bitrate, output)
  }

  // ---------------------------------------------------------------------------
  // The builder

  method CollectStereo(st: Stereo) returns (filters: seq<string>)
    ensures filters == StereoFilters(Some(st))
  {
    filters := [];
    if st.pan.Some? && st.pan.value != 0.0 {
      var p := st.pan.value / 100.0;
      filters := filters + ["pan=stereo|c0=" + Fmt2(1.0 - p) + "*c0+" + Fmt2(p) + "*c1|c1="
                            + Fmt2(p) + "*c0+" + Fmt2(1.0 - p) + "*c1"];
    }
    assert filters == PanSegment(st.pan);
    ghost var before := filters;
    if st.width.Some? && st.width.value != 100.0 {
      filters := filters + ["extrastereo=m=" + Fmt2(st.width.value / 100.0)];
    }
    assert filters == before + WidthSegment(st.width);
    before := filters;
    if st.monoConversion.Some? && st.monoConversion.value {
      filters := filters + [MonoMix];
    }
    assert filters == before + FlagSegment(st.monoConversion, MonoMix);
    before := filters;
    if st.channelSwap.Some? && st.channelSwap.value {
      filters := filters + [ChannelSwapMix];
    }
    assert filters == before + FlagSegment(st.channelSwap, ChannelSwapMix);
  }

  method CollectBasicProcessing(bp: BasicProcessing) returns (filters: seq<string>)
    ensures filters == BasicFilters(Some(bp))
  {
    filters := [];
    if bp.normalize.Some? && bp.normalize.value {
      filters := filters + ["loudnorm"];
    }
    assert filters == FlagSegment(bp.normalize, "loudnorm");
    ghost var before := filters;
    if bp.amplify.Some? && bp.amplify.value != 0.0 {
      var gain := Fmt2(bp.amplify.value);
      filters := filters + ["volume=" + gain + "dB"];
    }
    assert filters == before + AmplifySegment(bp.amplify);
    before := filters;
    if bp.fadeIn.Some? && bp.fadeIn.value > 0.0 {
      filters := filters + ["afade=t=in:d=" + Fmt2(bp.fadeIn.value)];
    }
    assert filters == before + FadeSegment(FadeInPrefix, bp.fadeIn);
    before := filters;
    if bp.fadeOut.Some? && bp.fadeOut.value > 0.0 {
      filters := filters + ["afade=t=out:d=" + Fmt2(bp.fadeOut.value)];
    }
    assert filters == before + FadeSegment(FadeOutPrefix, bp.fadeOut);
    filters := AppendEqualizerAndStereo(filters, bp);
  }

  /** The equalizer preset and the stereo filters, appended in that order. */
  method AppendEqualizerAndStereo(head: seq<string>, bp: BasicProcessing)
    returns (filters: seq<string>)
    ensures filters == head + EqualizerSegment(bp.equalizer) + StereoFilters(bp.stereo)
  {
    filters := head;
    if bp.equalizer.Some? && bp.equalizer.value.enabled && bp.equalizer.value.preset != "none" {
      var eqFilter := EqualizerPreset(bp.equalizer.value.preset);
      if eqFilter != "" {
        filters := filters + [eqFilter];
      }
    }
    assert filters == head + EqualizerSegment(bp.equalizer);
    ghost var before := filters;
    if bp.stereo.Some? {
      var stereo := CollectStereo(bp.stereo.value);
      filters := filters + stereo;
    }
    assert filters == before + StereoFilters(bp.stereo);
  }

  method CollectTimeBasedEffects(tbe: TimeBasedEffects) returns (filters: seq<string>)
    ensures filters == TimeBasedFilters(Some(tbe))
  {
    filters := [];
    if tbe.reverb.Some? && tbe.reverb.value.enabled && tbe.reverb.value.kind != "none" {
      var reverbFilter := ReverbPreset(tbe.reverb.value.kind);
      if reverbFilter != "" {
        filters := filters + [reverbFilter];
      }
    }
    assert filters == ReverbSegment(tbe.reverb);
    ghost var before := filters;
    if tbe.delay.Some? && tbe.delay.value.enabled && tbe.delay.value.kind != "none" {
      var d := tbe.delay.value;
      var delayFilter := DelayFilter(d.kind, d.time, d.feedback);
      if delayFilter != "" {
        filters := filters + [delayFilter];
      }
    }
    assert filters == before + DelaySegment(tbe.delay);
    before := filters;
    if tbe.modulation.Some? && tbe.modulation.value.enabled && tbe.modulation.value.kind != "none" {
      var m := tbe.modulation.value;
      var modFilter := ModulationFilter(m.kind, m.rate, m.depth);
      if modFilter != "" {
        filters := filters + [modFilter];
      }
    }
    assert filters == before + ModulationSegment(tbe.modulation);
  }

  method CollectRestoration(rest: Restoration) returns (filters: seq<string>)
    ensures filters == RestorationFilters(Some(rest))
  {
    filters := [];
    if rest.noiseReduction.Some? && rest.noiseReduction.value.enabled {
      var s := rest.noiseReduction.value.strength;
      var kind := rest.noiseReduction.value.kind;
      if kind == "spectral" {
        filters := filters + ["afftdn=nr=" + Fmt2(s / 10.0) + ":nf=" + Fmt2(s / 20.0)];
      } else if kind == "adaptive" {
        filters := filters + ["anlmdn=s=" + Fmt2(s / 10.0)];
      } else if kind == "gate" {
        var threshold := -40.0 + s * 0.4;
        filters := filters + ["agate=threshold=" + FormatFixed(threshold, 1) + "dB:ratio=10"];
      }
    }
    assert filters == NoiseReductionSegment(rest.noiseReduction);
    ghost var before := filters;
    if rest.deHum.Some? && rest.deHum.value.enabled {
      var humFreq := HumFrequency(rest.deHum.value.frequency);
      if humFreq != "" {
        filters := filters + ["equalizer=f=" + humFreq + ":width_type=q:width=0.5:g=-40"];
      }
    }
    assert filters == before + DeHumSegment(rest.deHum);
    filters := AppendRepairFilters(filters, rest);
  }

  /** The de-clipping and silence-removal filters, appended in that order. */
  method AppendRepairFilters(head: seq<string>, rest: Restoration) returns (filters: seq<string>)
    ensures filters == head + DeclipSegment(rest.declip) + SilenceSegment(rest.silenceDetection)
  {
    filters := head;
    if rest.declip.Some? && rest.declip.value.enabled {
      filters := filters + ["adeclip=threshold=" + Fmt2(rest.declip.value.threshold / 100.0)];
    }
    assert filters == head + DeclipSegment(rest.declip);
    ghost var before := filters;
    if rest.silenceDetection.Some? && rest.silenceDetection.value.enabled {
      var sd := rest.silenceDetection.value;
      var threshold := -50.0 + sd.threshold * 0.5;
      filters := filters + ["silenceremove=" + "start_periods=1:start_threshold="
                            + FormatFixed(threshold, 1) + "dB:start_duration="
                            + Fmt2(sd.minDuration)];
    }
    assert filters == before + SilenceSegment(rest.silenceDetection);
  }

  method CollectAdvanced(adv: AudioAdvanced, pitchRatio: real) returns (filters: seq<string>)
    ensures filters == AdvancedFilters(Some(adv), pitchRatio)
  {
    filters := [];
    if adv.pitchShift.Some? && adv.pitchShift.value.enabled {
      filters := filters + ["asetrate=48000*" + FormatFixed(pitchRatio, 4) + ",aresample=48000"];
    }
    assert filters == PitchSegment(adv.pitchShift, pitchRatio);
    ghost var before := filters;
    if adv.timeStretch.Some? && adv.timeStretch.value.enabled {
      var factor := adv.timeStretch.value.factor;
      var algorithm := adv.timeStretch.value.algorithm;
      if algorithm == "pitch" {
        filters := filters + ["rubberband=tempo=" + Fmt2(factor)];
      } else if algorithm == "time" {
        var stages := TimeStretchStages(factor);
        filters := filters + Tokens(stages);
      } else if algorithm == "formant" {
        filters := filters + ["asetrate=48000/" + Fmt2(factor) + ",aresample=48000"];
      }
    }
    assert filters == before + TimeStretchSegment(adv.timeStretch);
    before := filters;
    if adv.spatialAudio.Some? && adv.spatialAudio.value.enabled
       && adv.spatialAudio.value.kind != "none" {
      var kind := adv.spatialAudio.value.kind;
      if kind == "binaural" {
        filters := filters + ["crossfeed=strength=0.8:range=0.5"];
      } else if kind == "surround" {
        filters := filters + ["surround"];
      } else if kind == "3d" {
        filters := filters + ["sofalizer=" + "sofa=/usr/share/sofa/default.sofa"];
      }
    }
    assert filters == before + SpatialSegment(adv.spatialAudio);
  }

  /** The filter chain, grown in the order the options are inspected. */
  method CollectAudioFilters(o: AudioOptions, pitchRatio: real) returns (filters: seq<string>)
    requires o.speed > 0.0
    ensures filters == AudioFilters(o, pitchRatio)
  {
    filters := [];
    if o.volume != 1.0 {
      filters := filters + ["volume=" + Fmt2(o.volume)];
    }
    assert filters == VolumeSegment(o.volume);
    ghost var before := filters;
    if o.basicProcessing.Some? {
      var basic := CollectBasicProcessing(o.basicProcessing.value);
      filters := filters + basic;
    }
    assert filters == before + BasicFilters(o.basicProcessing);
    before := filters;
    if o.timeBasedEffects.Some? {
      var timeBased := CollectTimeBasedEffects(o.timeBasedEffects.value);
      filters := filters + timeBased;
    }
    assert filters == before + TimeBasedFilters(o.timeBasedEffects);
    before := filters;
    if o.restoration.Some? {
      var restoration := CollectRestoration(o.restoration.value);
      filters := filters + restoration;
    }
    assert filters == before + RestorationFilters(o.restoration);
    before := filters;
    if o.advanced.Some? {
      var advanced := CollectAdvanced(o.advanced.value, pitchRatio);
      filters := filters + advanced;
    }
    assert filters == before + AdvancedFilters(o.advanced, pitchRatio);
    before := filters;
    if o.speed != 1.0 {
      var stages := SpeedStages(o.speed);
      filters := filters + Tokens(stages);
    }
    assert filters == before + SpeedSegment(o.speed);
  }

  /** The audio argument building, step by step: input, trim, the filter chain, the
      codec, sample rate, channels, bitrate and output, in that order. */
  method BuildAudioArgs(o: AudioOptions, pitchRatio: real, input: string, output: string)
    returns (args: seq<string>)
    requires o.speed > 0.0
    ensures args == AudioArgs(o, pitchRatio, input, output)
  {
    args := ["-i", input];
    if o.trim.Some? {
      args := args + ["-ss", Fmt2(o.trim.value.startTime)];
      var duration := o.trim.value.endTime - o.trim.value.startTime;
      args := args + ["-t", Fmt2(duration)];
    }
    assert args == ["-i", input] + TrimSegment(o.trim);
    var filters := CollectAudioFilters(o, pitchRatio);
    ghost var prefix := args;
    if |filters| > 0 {
      args := args + ["-af", Join(filters, ",")];
    }
    assert args == prefix + AfSegment(filters);
    args := AppendEncoderSettings(args, o, output);
  }

  /** Appends the codec, sample rate, channel, bitrate and output arguments. */
  method AppendEncoderSettings(head: seq<string>, o: AudioOptions, output: string)
    returns (args: seq<string>)
    ensures args == head + CodecSegment(o.format) + ["-ar", o.sampleRate]
                    + ChannelsSegment(o.channels) + BitrateSegment(o.format, o.bitrate)
                    + ["-y", output]
  {
    args := head;
    ghost var prefix := args;
    var codec := "";
    if o.format == "mp3" {
      codec := "libmp3lame";
    } else if o.format == "wav" {
      codec := "pcm_s16le";
    } else if o.format == "aac" {
      codec := "aac";
    } else if o.format == "ogg" {
      codec := "libvorbis";
    } else if o.format == "flac" {
      codec := "flac";
    } else if o.format == "opus" {
      codec := "libopus";
    } else if o.format == "ac3" {
      codec := "ac3";
    }
    if codec != "" {
      args := args + ["-c:a", codec];
    }
    assert args == prefix + CodecSegment(o.format);
    prefix := args;
    args := args + ["-ar", o.sampleRate];
    assert args == prefix + ["-ar", o.sampleRate];
    prefix := args;
    if o.channels == "mono" {
      args := args + ["-ac", "1"];
    } else if o.channels == "stereo" {
      args := args + ["-ac", "2"];
    } else if o.channels == "5.1" {
      args := args + ["-ac", "6"];
    } else if o.channels == "7.1" {
      args := args + ["-ac", "8"];
    }
    assert args == prefix + ChannelsSegment(o.channels);
    prefix := args;
    if o.format != "wav" && o.format != "flac" && o.format != "alac" {
      args := args + ["-b:a", o.bitrate + "k"];
    }
    assert args == prefix + BitrateSegment(o.format, o.bitrate);
    args := args + ["-y", output];
  }
}
