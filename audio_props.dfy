/** Properties of the audio filter chain and of the audio argument list. */
module AudioCommandProperties {
  import opened Wrappers
  import opened Strings
  import opened Options
  import opened Tempo
  import opened FFmpegArgs
  import opened AudioCommand

  // ---------------------------------------------------------------------------
  // Filter names

  lemma TokensStartLower(stages: seq<TempoStage>)
    ensures AllStartLower(Tokens(stages))
  {
    var ts := Tokens(stages);
    forall k | 0 <= k < |ts|
      ensures StartsLower(ts[k])
    {
      assert ts[k] == Token(stages[k]);
    }
  }

  lemma StereoFiltersStartLower(st: Option<Stereo>)
    ensures AllStartLower(StereoFilters(st))
  {
    if st.Some? {
      var s1 := PanSegment(st.value.pan);
      var s2 := WidthSegment(st.value.width);
      var s3 := FlagSegment(st.value.monoConversion, MonoMix);
      var s4 := FlagSegment(st.value.channelSwap, ChannelSwapMix);
      assert AllStartLower(s1) && AllStartLower(s2) && AllStartLower(s3) && AllStartLower(s4);
      AllStartLowerAppend(s1, s2);
      AllStartLowerAppend(s1 + s2, s3);
      AllStartLowerAppend(s1 + s2 + s3, s4);
    }
  }

  lemma LevelSegmentsStartLower(b: BasicProcessing)
    ensures AllStartLower(FlagSegment(b.normalize, "loudnorm"))
    ensures AllStartLower(AmplifySegment(b.amplify))
    ensures AllStartLower(FadeSegment(FadeInPrefix, b.fadeIn))
    ensures AllStartLower(FadeSegment(FadeOutPrefix, b.fadeOut))
    ensures AllStartLower(EqualizerSegment(b.equalizer))
  {
  }

  lemma BasicFiltersStartLower(bp: Option<BasicProcessing>)
    ensures AllStartLower(BasicFilters(bp))
  {
    if bp.Some? {
      var b := bp.value;
      var a1 := FlagSegment(b.normalize, "loudnorm");
      var a2 := AmplifySegment(b.amplify);
      var a3 := FadeSegment(FadeInPrefix, b.fadeIn);
      var a4 := FadeSegment(FadeOutPrefix, b.fadeOut);
      var a5 := EqualizerSegment(b.equalizer);
      var a6 := StereoFilters(b.stereo);
      LevelSegmentsStartLower(b);
      StereoFiltersStartLower(b.stereo);
      AllStartLowerAppend(a1, a2);
      AllStartLowerAppend(a1 + a2, a3);
      AllStartLowerAppend(a1 + a2 + a3, a4);
      AllStartLowerAppend(a1 + a2 + a3 + a4, a5);
      AllStartLowerAppend(a1 + a2 + a3 + a4 + a5, a6);
      assert BasicFilters(bp) == a1 + a2 + a3 + a4 + a5 + a6;
    }
  }

  lemma TimeBasedFiltersStartLower(tbe: Option<TimeBasedEffects>)
    ensures AllStartLower(TimeBasedFilters(tbe))
  {
    if tbe.Some? {
      var a := ReverbSegment(tbe.value.reverb);
      var b := DelaySegment(tbe.value.delay);
      var c := ModulationSegment(tbe.value.modulation);
      assert AllStartLower(a) && AllStartLower(b) && AllStartLower(c);
      AllStartLowerAppend(a, b);
      AllStartLowerAppend(a + b, c);
    }
  }

  lemma RestorationFiltersStartLower(rest: Option<Restoration>)
    ensures AllStartLower(RestorationFilters(rest))
  {
    if rest.Some? {
      var a := NoiseReductionSegment(rest.value.noiseReduction);
      var b := DeHumSegment(rest.value.deHum);
      var c := DeclipSegment(rest.value.declip);
      var d := SilenceSegment(rest.value.silenceDetection);
      assert AllStartLower(a) && AllStartLower(b) && AllStartLower(c) && AllStartLower(d);
      AllStartLowerAppend(a, b);
      AllStartLowerAppend(a + b, c);
      AllStartLowerAppend(a + b + c, d);
    }
  }

  lemma AdvancedFiltersStartLower(adv: Option<AudioAdvanced>, pitchRatio: real)
    ensures AllStartLower(AdvancedFilters(adv, pitchRatio))
  {
    if adv.Some? {
      var a := PitchSegment(adv.value.pitchShift, pitchRatio);
      var b := TimeStretchSegment(adv.value.timeStretch);
      var c := SpatialSegment(adv.value.spatialAudio);
      var ts := adv.value.timeStretch;
      if ts.Some? && ts.value.enabled && ts.value.algorithm == "time" {
        TokensStartLower(TimeStretchSpec(ts.value.factor));
      }
      assert AllStartLower(a) && AllStartLower(b) && AllStartLower(c);
      AllStartLowerAppend(a, b);
      AllStartLowerAppend(a + b, c);
    }
  }

  /** Every filter of the audio chain starts with a lower-case letter. */
  lemma AudioFiltersStartLower(o: AudioOptions, pitchRatio: real)
    requires o.speed > 0.0
    ensures AllStartLower(AudioFilters(o, pitchRatio))
  {
    BasicFiltersStartLower(o.basicProcessing);
    TimeBasedFiltersStartLower(o.timeBasedEffects);
    RestorationFiltersStartLower(o.restoration);
    AdvancedFiltersStartLower(o.advanced, pitchRatio);
    TokensStartLower(SpeedStagesSpec(o.speed));
    var a := VolumeSegment(o.volume);
    var b := BasicFilters(o.basicProcessing);
    var c := TimeBasedFilters(o.timeBasedEffects);
    var d := RestorationFilters(o.restoration);
    var e := AdvancedFilters(o.advanced, pitchRatio);
    var f := SpeedSegment(o.speed);
    assert AllStartLower(a) && AllStartLower(f);
    AllStartLowerAppend(a, b);
    AllStartLowerAppend(a + b, c);
    AllStartLowerAppend(a + b + c, d);
    AllStartLowerAppend(a + b + c + d, e);
    AllStartLowerAppend(a + b + c + d + e, f);
  }

  // ---------------------------------------------------------------------------
  // The chain

  /** A changed main volume is the first filter of the chain. */
  lemma VolumeFirst(o: AudioOptions, pitchRatio: real)
    requires o.speed > 0.0 && o.volume != 1.0
    ensures |AudioFilters(o, pitchRatio)| > 0
    ensures AudioFilters(o, pitchRatio)[0] == "volume=" + Fmt2(o.volume)
  {
  }

  /** The playback-speed stages close the chain, and they multiply out to the speed. */
  lemma SpeedStagesLast(o: AudioOptions, pitchRatio: real)
    requires o.speed > 0.0
    ensures var fs := AudioFilters(o, pitchRatio);
      var st := SpeedStagesSpec(o.speed);
      |st| <= |fs| && fs[|fs| - |st|..] == Tokens(st) && Product(st) == o.speed
  {
    var fs := AudioFilters(o, pitchRatio);
    var st := SpeedStagesSpec(o.speed);
    SpeedStagesProduct(o.speed);
    if o.speed == 1.0 {
      SpeedStagesEmptyIff(o.speed);
      assert Tokens(st) == [];
    } else {
      var pre := VolumeSegment(o.volume) + BasicFilters(o.basicProcessing)
        + TimeBasedFilters(o.timeBasedEffects) + RestorationFilters(o.restoration)
        + AdvancedFilters(o.advanced, pitchRatio);
      assert fs == pre + Tokens(st);
      assert |Tokens(st)| == |st|;
      assert fs[|fs| - |st|..] == Tokens(st);
    }
  }

  /** Stretching with the "time" algorithm inserts tempo stages that multiply out to
      the stretch factor. */
  lemma TimeStretchTokens(factor: real)
    requires factor > 0.0
    ensures var st := TimeStretchSpec(factor);
      TimeStretchSegment(Some(TimeStretch(true, factor, "time"))) == Tokens(st)
      && Product(st) == factor
  {
    TimeStretchProduct(factor);
  }

  /** Only the six named presets produce an equalizer. */
  lemma EqualizerPresetKnown(preset: string)
    ensures EqualizerPreset(preset) != "" <==>
      preset in {"bass-boost", "treble-boost", "vocal", "classical", "rock", "jazz"}
  {
    if preset == "bass-boost" || preset == "treble-boost" || preset == "vocal"
       || preset == "classical" || preset == "rock" || preset == "jazz" {
      assert EqualizerPreset(preset)[0] == 'e';
    }
  }

  /** Only the four named reverbs produce a filter. */
  lemma ReverbPresetKnown(kind: string)
    ensures ReverbPreset(kind) != "" <==> kind in {"room", "hall", "plate", "spring"}
  {
    if kind in {"room", "hall", "plate", "spring"} {
      assert ReverbPreset(kind)[0] == 'a';
    }
  }

  /** Of the modulation kinds only chorus, flanger, tremolo and vibrato produce a
      filter; a phaser is dropped without a word. */
  lemma ModulationKnown(kind: string, rate: real, depth: real)
    ensures ModulationFilter(kind, rate, depth) != "" <==>
      kind in {"chorus", "flanger", "tremolo", "vibrato"}
    ensures ModulationFilter("phaser", rate, depth) == ""
  {
    if kind in {"chorus", "flanger", "tremolo", "vibrato"} {
      assert |ModulationFilter(kind, rate, depth)| > 0;
    }
  }

  /** Automatic hum detection notches 60 Hz, like an explicit "60hz". */
  lemma DeHumAuto()
    ensures DeHumSegment(Some(DeHum(true, "auto"))) == DeHumSegment(Some(DeHum(true, "60hz")))
    ensures |DeHumSegment(Some(DeHum(true, "auto")))| == 1
  {
  }

  /** A de-hum request is honoured exactly for the three frequencies it knows. */
  lemma DeHumKnown(dh: DeHum)
    ensures |DeHumSegment(Some(dh))| == 1 <==>
      dh.enabled && dh.frequency in {"50hz", "60hz", "auto"}
  {
  }

  /** The multi-tap template is short of operands: the filter ends with the
      formatter's missing-operand marker. */
  lemma MultiTapMissingOperand(time: real, feedback: real)
    ensures HasSuffix(DelayFilter("multi-tap", time, feedback), ":" + MissingOperand)
  {
  }

  // ---------------------------------------------------------------------------
  // The argument list

  /** The input comes first, after `-i`, and `-y <output>` closes the list. */
  lemma AudioArgsEnds(input: string, trim: Option<TrimRange>, filters: seq<string>,
                      format: string, sampleRate: string, channels: string, bitrate: string,
                      output: string)
    ensures var args := AssembleAudioArgs(input, trim, filters, format, sampleRate, channels,
                                          bitrate, output);
      |args| >= 6 && args[0] == "-i" && args[1] == input
      && args[|args| - 2] == "-y" && args[|args| - 1] == output
  {
  }

  /** With a trim window, the seek and the duration come straight after the input. */
  lemma AudioTrimFollowsInput(input: string, trim: Option<TrimRange>, filters: seq<string>,
                              format: string, sampleRate: string, channels: string,
                              bitrate: string, output: string)
    requires trim.Some?
    ensures var args := AssembleAudioArgs(input, trim, filters, format, sampleRate, channels,
                                          bitrate, output);
      var t := trim.value;
      |args| >= 6 && args[2] == "-ss" && args[3] == Fmt2(t.startTime)
      && args[4] == "-t" && args[5] == Fmt2(t.endTime - t.startTime)
  {
  }

  /** The count of a token over the list is the sum over its segments. */
  lemma AudioArgsCount(input: string, trim: Option<TrimRange>, filters: seq<string>,
                       format: string, sampleRate: string, channels: string, bitrate: string,
                       output: string, f: string)
    ensures Count(AssembleAudioArgs(input, trim, filters, format, sampleRate, channels,
                                    bitrate, output), f)
            == Count(["-i", input], f) + Count(TrimSegment(trim), f) + Count(AfSegment(filters), f)
               + Count(CodecSegment(format), f) + Count(["-ar", sampleRate], f)
               + Count(ChannelsSegment(channels), f) + Count(BitrateSegment(format, bitrate), f)
               + Count(["-y", output], f)
  {
    var a := ["-i", input];
    var b := TrimSegment(trim);
    var c := AfSegment(filters);
    var d := CodecSegment(format);
    var e := ["-ar", sampleRate];
    var g := ChannelsSegment(channels);
    var h := BitrateSegment(format, bitrate);
    var i := ["-y", output];
    CountAppend(a, b, f);
    CountAppend(a + b, c, f);
    CountAppend(a + b + c, d, f);
    CountAppend(a + b + c + d, e, f);
    CountAppend(a + b + c + d + e, g, f);
    CountAppend(a + b + c + d + e + g, h, f);
    CountAppend(a + b + c + d + e + g + h, i, f);
  }

  /** The codec, channel and bitrate segments hold no flag other than their own:
      their values are codec names, digits, and a bitrate ending in "k". */
  lemma TailCount(format: string, channels: string, bitrate: string, f: string)
    requires IsFlag(f) && f != "-c:a" && f != "-ac" && f != "-b:a" && f[|f| - 1] != 'k'
    ensures Count(CodecSegment(format), f) == 0 && Count(ChannelsSegment(channels), f) == 0
    ensures Count(BitrateSegment(format, bitrate), f) == 0
  {
    CodecCount(format, f);
    ChannelsCount(channels, f);
    BitrateCount(format, bitrate, f);
  }

  lemma CodecCount(format: string, f: string)
    requires IsFlag(f) && f != "-c:a"
    ensures Count(CodecSegment(format), f) == 0
  {
    var c := CodecSegment(format);
    if |c| == 2 {
      assert c[1][0] != '-';
      PairCount(c[0], c[1], f);
    }
  }

  lemma ChannelsCount(channels: string, f: string)
    requires IsFlag(f) && f != "-ac"
    ensures Count(ChannelsSegment(channels), f) == 0
  {
    var c := ChannelsSegment(channels);
    if |c| == 2 {
      assert c[1][0] != '-';
      PairCount(c[0], c[1], f);
    }
  }

  lemma BitrateCount(format: string, bitrate: string, f: string)
    requires IsFlag(f) && f != "-b:a" && f[|f| - 1] != 'k'
    ensures Count(BitrateSegment(format, bitrate), f) == 0
  {
    if !Lossless(format) {
      var v := bitrate + "k";
      assert v[|v| - 1] == 'k';
      PairCount("-b:a", v, f);
    }
  }

  /** `-af` is given once exactly when there is a filter (provided the paths and the
      sample rate are not "-af" themselves). */
  lemma SingleAudioAf(input: string, trim: Option<TrimRange>, filters: seq<string>,
                      format: string, sampleRate: string, channels: string, bitrate: string,
                      output: string)
    requires AllStartLower(filters)
    requires input != "-af" && output != "-af" && sampleRate != "-af"
    ensures Count(AssembleAudioArgs(input, trim, filters, format, sampleRate, channels,
                                    bitrate, output), "-af")
            == if |filters| > 0 then 1 else 0
  {
    AudioArgsCount(input, trim, filters, format, sampleRate, channels, bitrate, output, "-af");
    TrimCount(trim, "-af");
    TailCount(format, channels, bitrate, "-af");
    PairCount("-i", input, "-af");
    PairCount("-ar", sampleRate, "-af");
    PairCount("-y", output, "-af");
    if |filters| > 0 {
      ChainIsNotFlag(filters, "-af");
      PairCount("-af", Join(filters, ","), "-af");
    }
  }

  /** The bitrate is passed exactly for the lossy formats. */
  lemma BitrateIffLossy(input: string, trim: Option<TrimRange>, filters: seq<string>,
                        format: string, sampleRate: string, channels: string, bitrate: string,
                        output: string)
    requires AllStartLower(filters)
    requires input != "-b:a" && output != "-b:a" && sampleRate != "-b:a"
    ensures "-b:a" in AssembleAudioArgs(input, trim, filters, format, sampleRate, channels,
                                        bitrate, output)
            <==> !Lossless(format)
  {
    var args := AssembleAudioArgs(input, trim, filters, format, sampleRate, channels, bitrate,
                                  output);
    AudioArgsCount(input, trim, filters, format, sampleRate, channels, bitrate, output, "-b:a");
    TrimCount(trim, "-b:a");
    PairCount("-i", input, "-b:a");
    PairCount("-ar", sampleRate, "-b:a");
    PairCount("-y", output, "-b:a");
    CountAbsent(CodecSegment(format), "-b:a");
    CountAbsent(ChannelsSegment(channels), "-b:a");
    if |filters| > 0 {
      ChainIsNotFlag(filters, "-b:a");
      PairCount("-af", Join(filters, ","), "-b:a");
    }
    if !Lossless(format) {
      var v := bitrate + "k";
      assert v[|v| - 1] == 'k';
      PairCount("-b:a", v, "-b:a");
    }
    CountIn(args, "-b:a");
  }

  /** A codec is named exactly for the seven known containers (so never for ALAC). */
  lemma CodecIffKnown(input: string, trim: Option<TrimRange>, filters: seq<string>,
                      format: string, sampleRate: string, channels: string, bitrate: string,
                      output: string)
    requires AllStartLower(filters)
    requires input != "-c:a" && output != "-c:a" && sampleRate != "-c:a"
    ensures "-c:a" in AssembleAudioArgs(input, trim, filters, format, sampleRate, channels,
                                        bitrate, output)
            <==> format in {"mp3", "wav", "aac", "ogg", "flac", "opus", "ac3"}
  {
    var args := AssembleAudioArgs(input, trim, filters, format, sampleRate, channels, bitrate,
                                  output);
    AudioArgsCount(input, trim, filters, format, sampleRate, channels, bitrate, output, "-c:a");
    TrimCount(trim, "-c:a");
    PairCount("-i", input, "-c:a");
    PairCount("-ar", sampleRate, "-c:a");
    PairCount("-y", output, "-c:a");
    CountAbsent(ChannelsSegment(channels), "-c:a");
    if |filters| > 0 {
      ChainIsNotFlag(filters, "-c:a");
      PairCount("-af", Join(filters, ","), "-c:a");
    }
    if !Lossless(format) {
      var v := bitrate + "k";
      assert v[|v| - 1] == 'k';
      PairCount("-b:a", v, "-c:a");
    }
    if format in {"mp3", "wav", "aac", "ogg", "flac", "opus", "ac3"} {
      PairCount("-c:a", CodecSegment(format)[1], "-c:a");
    }
    CountIn(args, "-c:a");
  }

  /** A channel count is passed exactly for the four layouts it knows. */
  lemma ChannelsIffKnown(input: string, trim: Option<TrimRange>, filters: seq<string>,
                         format: string, sampleRate: string, channels: string, bitrate: string,
                         output: string)
    requires AllStartLower(filters)
    requires input != "-ac" && output != "-ac" && sampleRate != "-ac"
    ensures "-ac" in AssembleAudioArgs(input, trim, filters, format, sampleRate, channels,
                                       bitrate, output)
            <==> channels in {"mono", "stereo", "5.1", "7.1"}
  {
    var args := AssembleAudioArgs(input, trim, filters, format, sampleRate, channels, bitrate,
                                  output);
    AudioArgsCount(input, trim, filters, format, sampleRate, channels, bitrate, output, "-ac");
    TrimCount(trim, "-ac");
    PairCount("-i", input, "-ac");
    PairCount("-ar", sampleRate, "-ac");
    PairCount("-y", output, "-ac");
    CountAbsent(CodecSegment(format), "-ac");
    if |filters| > 0 {
      ChainIsNotFlag(filters, "-ac");
      PairCount("-af", Join(filters, ","), "-ac");
    }
    if !Lossless(format) {
      var v := bitrate + "k";
      assert v[|v| - 1] == 'k';
      PairCount("-b:a", v, "-ac");
    }
    if channels in {"mono", "stereo", "5.1", "7.1"} {
      PairCount("-ac", ChannelsSegment(channels)[1], "-ac");
    }
    CountIn(args, "-ac");
  }

  /** For the options themselves: one `-af` exactly when the chain is not empty, which
      a changed speed always makes it. */
  lemma AudioAfOnce(o: AudioOptions, pitchRatio: real, input: string, output: string)
    requires o.speed > 0.0 && !IsFlag(input) && !IsFlag(output) && !IsFlag(o.sampleRate)
    ensures Count(AudioArgs(o, pitchRatio, input, output), "-af")
            == if |AudioFilters(o, pitchRatio)| > 0 then 1 else 0
    ensures o.speed != 1.0 ==> Count(AudioArgs(o, pitchRatio, input, output), "-af") == 1
  {
    var filters := AudioFilters(o, pitchRatio);
    AudioFiltersStartLower(o, pitchRatio);
    SingleAudioAf(input, o.trim, filters, o.format, o.sampleRate, o.channels, o.bitrate, output);
    if o.speed != 1.0 {
      SpeedStagesLast(o, pitchRatio);
      SpeedStagesEmptyIff(o.speed);
    }
  }
}
