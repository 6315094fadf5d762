/** Ordering and uniqueness properties of the video argument list. */
module VideoCommandProperties {
  import opened Wrappers
  import opened Strings
  import opened Options
  import opened FFmpegArgs
  import opened VideoCommand

  lemma NoiseFilterStartsLower(kind: string, strength: int)
    ensures AllStartLower(NoiseFilter(kind, strength))
  {
    if kind == "film-grain" || kind == "digital" || kind == "vintage" {
      assert NoiseFilter(kind, strength)[0][0] == 'n';
    }
  }

  /** A filter keeps the first letter of its name. */
  lemma NameStartsLower(name: string, params: string)
    requires StartsLower(name)
    ensures StartsLower(name + params)
  {
  }

  lemma ArtisticFilterStartsLower(name: string)
    ensures AllStartLower(ArtisticFilter(name))
  {
    if name == "oil-painting" || name == "emboss" {
      NameStartsLower("convolution=", if name == "emboss" then EmbossKernel else OilPaintingKernel);
    } else if name == "watercolor" {
      NameStartsLower("gblur=", "sigma=2,edgedetect=low=0.1:high=0.4");
    } else if name == "sketch" {
      NameStartsLower("edgedetect=", "low=0.05:high=0.2,negate");
    } else if name == "edge-detection" {
      NameStartsLower("edgedetect=", "low=0.1:high=0.3");
    } else if name == "posterize" {
      NameStartsLower("palettegen=", PosterizePalette);
    }
  }

  lemma ColorAndBlurStartLower(v: VisualEffects)
    ensures AllStartLower(EqSegment(v)) && AllStartLower(BlurSegment(v.gaussianBlur))
    ensures AllStartLower(MotionBlurSegment(v.motionBlur))
  {
    if EqSegment(v) != [] {
      NameStartsLower("eq=", Join(ColorTerms(v), ":"));
    }
    if BlurSegment(v.gaussianBlur) != [] {
      NameStartsLower("gblur=sigma=", IntToString(v.gaussianBlur.value));
    }
  }

  lemma UnsharpStartsLower(u: Option<UnsharpMask>)
    ensures AllStartLower(UnsharpSegment(u))
  {
    if UnsharpSegment(u) != [] {
      var f := UnsharpFilter(u.value);
      assert f[0] == 'u';
    }
  }

  lemma EffectSegmentsStartLower(v: VisualEffects)
    ensures AllStartLower(EqSegment(v)) && AllStartLower(BlurSegment(v.gaussianBlur))
    ensures AllStartLower(MotionBlurSegment(v.motionBlur))
    ensures AllStartLower(UnsharpSegment(v.unsharpMask))
    ensures AllStartLower(NoiseSegment(v.noise)) && AllStartLower(ArtisticSegment(v.artistic))
  {
    ColorAndBlurStartLower(v);
    UnsharpStartsLower(v.unsharpMask);
    if v.noise.Some? {
      NoiseFilterStartsLower(v.noise.value.kind, Trunc(v.noise.value.amount));
    }
    if v.artistic.Some? {
      ArtisticFilterStartsLower(v.artistic.value);
    }
  }

  lemma VisualFiltersStartLower(ve: Option<VisualEffects>)
    ensures AllStartLower(VisualFilters(ve))
  {
    if ve.Some? {
      var v := ve.value;
      EffectSegmentsStartLower(v);
      var a := EqSegment(v);
      var b := BlurSegment(v.gaussianBlur);
      var c := MotionBlurSegment(v.motionBlur);
      var d := UnsharpSegment(v.unsharpMask);
      var e := NoiseSegment(v.noise);
      var f := ArtisticSegment(v.artistic);
      assert VisualFilters(ve) == a + b + c + d + e + f;
      AllStartLowerAppend(a, b);
      AllStartLowerAppend(a + b, c);
      AllStartLowerAppend(a + b + c, d);
      AllStartLowerAppend(a + b + c + d, e);
      AllStartLowerAppend(a + b + c + d + e, f);
    }
  }

  lemma TransformFiltersStartLower(t: Option<Transform>)
    ensures AllStartLower(TransformFilters(t))
  {
    if t.Some? {
      var a := RotateSegment(t.value.rotation);
      var b := FlagSegment(t.value.flipHorizontal, "hflip");
      var c := FlagSegment(t.value.flipVertical, "vflip");
      var d := CropSegment(t.value.crop);
      assert AllStartLower(a) && AllStartLower(b) && AllStartLower(c) && AllStartLower(d);
      AllStartLowerAppend(a, b);
      AllStartLowerAppend(a + b, c);
      AllStartLowerAppend(a + b + c, d);
    }
  }

  lemma TemporalFiltersStartLower(te: Option<Temporal>)
    ensures AllStartLower(TemporalFilters(te))
  {
    if te.Some? {
      var a := FlagSegment(te.value.reverse, "reverse");
      var b := FpsSegment(te.value.frameRate);
      var c := DeshakeSegment(te.value.stabilization);
      assert AllStartLower(a) && AllStartLower(b) && AllStartLower(c);
      AllStartLowerAppend(a, b);
      AllStartLowerAppend(a + b, c);
    }
  }

  lemma VideoFiltersStartLower(o: VideoOptions)
    requires o.speed != 0.0
    ensures AllStartLower(VideoFilters(o))
  {
    VisualFiltersStartLower(o.visualEffects);
    TransformFiltersStartLower(o.transform);
    TemporalFiltersStartLower(o.temporal);
    var a := ScaleSegment(o);
    var b := VisualFilters(o.visualEffects);
    var c := TransformFilters(o.transform);
    var d := TemporalFilters(o.temporal);
    var e := SetptsSegment(o.speed);
    assert AllStartLower(a) && AllStartLower(e);
    AllStartLowerAppend(a, b);
    AllStartLowerAppend(a + b, c);
    AllStartLowerAppend(a + b + c, d);
    AllStartLowerAppend(a + b + c + d, e);
  }

  /** The joined chain starts with a lower-case letter. */
  lemma ChainStartsLower(o: VideoOptions)
    requires o.speed != 0.0 && |VideoFilters(o)| > 0
    ensures StartsLower(Join(VideoFilters(o), ","))
  {
    VideoFiltersStartLower(o);
    JoinHead(VideoFilters(o), ",");
  }

  // ---------------------------------------------------------------------------
  // The argument list

  /** The input comes first, after `-i`, and `-y <output>` closes the list. */
  lemma ArgsEnds(input: string, trim: Option<TrimRange>, filters: seq<string>, speed: real,
                 quality: string, format: string, output: string)
    ensures var args := AssembleArgs(input, trim, filters, speed, quality, format, output);
      |args| >= 4 && args[0] == "-i" && args[1] == input
      && args[|args| - 2] == "-y" && args[|args| - 1] == output
  {
  }

  /** With a trim window, the seek and the duration come straight after the input. */
  lemma TrimFollowsInput(input: string, trim: Option<TrimRange>, filters: seq<string>,
                         speed: real, quality: string, format: string, output: string)
    requires trim.Some?
    ensures var args := AssembleArgs(input, trim, filters, speed, quality, format, output);
      var t := trim.value;
      |args| >= 6 && args[2] == "-ss" && args[3] == Fmt2(t.startTime)
      && args[4] == "-t" && args[5] == Fmt2(t.endTime - t.startTime)
  {
  }

  /** The count of a token over the list is the sum over its segments. */
  lemma ArgsCount(input: string, trim: Option<TrimRange>, filters: seq<string>, speed: real,
                  quality: string, format: string, output: string, f: string)
    ensures Count(AssembleArgs(input, trim, filters, speed, quality, format, output), f)
            == Count(["-i", input], f) + Count(TrimSegment(trim), f)
               + Count(VfSegment(filters), f) + Count(AfSegment(speed), f)
               + Count(CrfSegment(quality), f) + Count(DefaultCodecs, f)
               + Count(CodecOverride(format), f) + Count(["-y", output], f)
  {
    var a := ["-i", input];
    var b := TrimSegment(trim);
    var c := VfSegment(filters);
    var d := AfSegment(speed);
    var e := CrfSegment(quality);
    var g := CodecOverride(format);
    var h := ["-y", output];
    CountAppend(a, b, f);
    CountAppend(a + b, c, f);
    CountAppend(a + b + c, d, f);
    CountAppend(a + b + c + d, e, f);
    CountAppend(a + b + c + d + e, DefaultCodecs, f);
    CountAppend(a + b + c + d + e + DefaultCodecs, g, f);
    CountAppend(a + b + c + d + e + DefaultCodecs + g, h, f);
  }

  /** The colour corrections are merged into one `eq` filter exactly when at least
      one of them is set to a value that changes the picture. */
  lemma EqPresentIff(ve: VisualEffects)
    ensures |EqSegment(ve)| <= 1
    ensures |EqSegment(ve)| == 1 <==>
      (ve.brightness.Some? && ve.brightness.value != 0)
      || (ve.contrast.Some? && ve.contrast.value != 0)
      || (ve.saturation.Some? && ve.saturation.value != 0)
      || (ve.gamma.Some? && ve.gamma.value != 1.0)
      || (ve.hue.Some? && ve.hue.value != 0)
      || (ve.exposure.Some? && ve.exposure.value != 0)
      || (ve.shadows.Some? && ve.shadows.value != 0)
      || (ve.highlights.Some? && ve.highlights.value != 0)
  {
  }

  /** Contrast, saturation and exposure are clamped, so they are never printed with a
      minus sign. */
  lemma GainIsUnsigned(v: int, floor: real)
    requires floor >= 0.0
    ensures IsDigit(Fmt2(Gain(v, floor))[0])
  {
    FormatFixedNonNegativeHead(Gain(v, floor), 2);
  }

  /** The quality and codec options hold no flag other than their own. */
  lemma CodecCount(quality: string, format: string, f: string)
    requires IsFlag(f) && f != "-crf" && f != "-c:v" && f != "-c:a" && f != "-profile:v"
    ensures Count(CrfSegment(quality), f) == 0 && Count(DefaultCodecs, f) == 0
    ensures Count(CodecOverride(format), f) == 0
  {
    CountAbsent(CrfSegment(quality), f);
    CountAbsent(DefaultCodecs, f);
    CountAbsent(CodecOverride(format), f);
  }

  /** `-vf` is given once exactly when there is a filter, and nothing else in the
      list can be taken for it (provided the paths are not "-vf" themselves). */
  lemma SingleVf(input: string, trim: Option<TrimRange>, filters: seq<string>, speed: real,
                 quality: string, format: string, output: string)
    requires AllStartLower(filters) && input != "-vf" && output != "-vf"
    ensures Count(AssembleArgs(input, trim, filters, speed, quality, format, output), "-vf")
            == if |filters| > 0 then 1 else 0
  {
    ArgsCount(input, trim, filters, speed, quality, format, output, "-vf");
    TrimCount(trim, "-vf");
    CodecCount(quality, format, "-vf");
    PairCount("-i", input, "-vf");
    PairCount("-y", output, "-vf");
    if |filters| > 0 {
      ChainIsNotFlag(filters, "-vf");
      PairCount("-vf", Join(filters, ","), "-vf");
    }
    if speed != 1.0 {
      PairCount("-af", "atempo=" + Fmt2(speed), "-vf");
    }
  }

  /** `-af` is given once exactly when the speed is changed. */
  lemma SingleAf(input: string, trim: Option<TrimRange>, filters: seq<string>, speed: real,
                 quality: string, format: string, output: string)
    requires AllStartLower(filters) && input != "-af" && output != "-af"
    ensures Count(AssembleArgs(input, trim, filters, speed, quality, format, output), "-af")
            == if speed != 1.0 then 1 else 0
  {
    ArgsCount(input, trim, filters, speed, quality, format, output, "-af");
    TrimCount(trim, "-af");
    CodecCount(quality, format, "-af");
    PairCount("-i", input, "-af");
    PairCount("-y", output, "-af");
    if |filters| > 0 {
      ChainIsNotFlag(filters, "-af");
      PairCount("-vf", Join(filters, ","), "-af");
    }
    if speed != 1.0 {
      PairCount("-af", "atempo=" + Fmt2(speed), "-af");
    }
  }

  /** When both are present, the `-vf` chain comes before the `-af` tempo stage, which
      sits right after it. */
  lemma VfBeforeAf(input: string, trim: Option<TrimRange>, filters: seq<string>, speed: real,
                   quality: string, format: string, output: string)
    requires |filters| > 0 && speed != 1.0
    ensures var args := AssembleArgs(input, trim, filters, speed, quality, format, output);
      var p := 2 + |TrimSegment(trim)|;
      |args| > p + 3 && args[p] == "-vf" && args[p + 1] == Join(filters, ",")
      && args[p + 2] == "-af" && args[p + 3] == "atempo=" + Fmt2(speed)
  {
  }

  /** The quality preset is the last option before the codecs: low is CRF 30, medium
      23, high 18, and any other value passes no `-crf` at all. */
  lemma CrfBeforeCodecs(input: string, trim: Option<TrimRange>, filters: seq<string>,
                        speed: real, quality: string, format: string, output: string)
    ensures var args := AssembleArgs(input, trim, filters, speed, quality, format, output);
      var p := 2 + |TrimSegment(trim)| + |VfSegment(filters)| + |AfSegment(speed)|;
      |args| >= p + 4 &&
      (quality == "low" ==> args[p..p + 2] == ["-crf", "30"])
      && (quality == "medium" ==> args[p..p + 2] == ["-crf", "23"])
      && (quality == "high" ==> args[p..p + 2] == ["-crf", "18"])
      && (quality !in {"low", "medium", "high"} ==> args[p..p + 4] == DefaultCodecs)
  {
    var head := ["-i", input] + TrimSegment(trim) + VfSegment(filters) + AfSegment(speed);
    var mid := CrfSegment(quality) + DefaultCodecs;
    var tail := CodecOverride(format) + ["-y", output];
    var args := AssembleArgs(input, trim, filters, speed, quality, format, output);
    Regroup(["-i", input], TrimSegment(trim), VfSegment(filters), AfSegment(speed),
            CrfSegment(quality), DefaultCodecs, CodecOverride(format), ["-y", output]);
    SliceOfMiddle(head, mid, tail);
    QualityCases(args, |head|, quality);
  }

  /** Eight parts joined in a row, grouped as four, two and two. */
  lemma Regroup<T>(a: seq<T>, b: seq<T>, c: seq<T>, d: seq<T>,
                   e: seq<T>, f: seq<T>, g: seq<T>, h: seq<T>)
    ensures a + b + c + d + e + f + g + h == (a + b + c + d) + (e + f) + (g + h)
  {
  }

  /** What follows position `p` when the quality flags and the default codecs start there. */
  lemma QualityCases(args: seq<string>, p: nat, quality: string)
    requires p + |CrfSegment(quality)| + 4 <= |args|
    requires args[p..p + |CrfSegment(quality)| + 4] == CrfSegment(quality) + DefaultCodecs
    ensures |args| >= p + 4
    ensures quality == "low" ==> args[p..p + 2] == ["-crf", "30"]
    ensures quality == "medium" ==> args[p..p + 2] == ["-crf", "23"]
    ensures quality == "high" ==> args[p..p + 2] == ["-crf", "18"]
    ensures quality !in {"low", "medium", "high"} ==> args[p..p + 4] == DefaultCodecs
  {
    var crf := CrfSegment(quality);
    assert args[p..p + |crf|] == args[p..p + |crf| + 4][..|crf|];
  }

  /** The middle part of a three-part concatenation sits right after the first. */
  lemma SliceOfMiddle<T>(head: seq<T>, mid: seq<T>, tail: seq<T>)
    ensures (head + mid + tail)[|head|..|head| + |mid|] == mid
  {
  }

  /** `-crf` appears exactly when the quality is one of the three presets. */
  lemma CrfIffPreset(input: string, trim: Option<TrimRange>, filters: seq<string>,
                     speed: real, quality: string, format: string, output: string)
    requires AllStartLower(filters) && input != "-crf" && output != "-crf"
    ensures "-crf" in AssembleArgs(input, trim, filters, speed, quality, format, output)
            <==> quality in {"low", "medium", "high"}
  {
    ArgsCount(input, trim, filters, speed, quality, format, output, "-crf");
    TrimCount(trim, "-crf");
    PairCount("-i", input, "-crf");
    PairCount("-y", output, "-crf");
    CountAbsent(DefaultCodecs, "-crf");
    CountAbsent(CodecOverride(format), "-crf");
    if |filters| > 0 {
      ChainIsNotFlag(filters, "-crf");
      PairCount("-vf", Join(filters, ","), "-crf");
    }
    if speed != 1.0 {
      PairCount("-af", "atempo=" + Fmt2(speed), "-crf");
    }
    if quality in {"low", "medium", "high"} {
      PairCount("-crf", CrfSegment(quality)[1], "-crf");
    }
    CountIn(AssembleArgs(input, trim, filters, speed, quality, format, output), "-crf");
  }

  /** With a width or a height, the chain opens with the scale filter. */
  lemma ScaleFirst(o: VideoOptions)
    requires o.speed != 0.0 && (o.width.Some? || o.height.Some?)
    ensures |VideoFilters(o)| > 0
    ensures HasPrefix(Join(VideoFilters(o), ","), ScaleFilter(o.width, o.height, o.preserveAspectRatio))
    ensures HasPrefix(Join(VideoFilters(o), ","), "scale=")
  {
    var filters := VideoFilters(o);
    var scale := ScaleFilter(o.width, o.height, o.preserveAspectRatio);
    assert filters[0] == scale;
    JoinFirst(filters, ",");
    var chain := Join(filters, ",");
    assert chain[..6] == scale[..6];
  }

  /** A changed speed always leaves a filter in the chain (the timestamp scaling). */
  lemma SpeedNeedsChain(o: VideoOptions)
    requires o.speed != 0.0 && o.speed != 1.0
    ensures |VideoFilters(o)| > 0
  {
    assert |SetptsSegment(o.speed)| == 1;
  }

  /** For the options themselves: one `-vf` when there is any filter, one `-af` when
      the speed is changed, and the tempo stage straight after the chain. */
  lemma VideoFlagsOnce(o: VideoOptions, input: string, output: string)
    requires o.speed != 0.0 && !IsFlag(input) && !IsFlag(output)
    ensures Count(VideoArgs(o, input, output), "-vf") == if |VideoFilters(o)| > 0 then 1 else 0
    ensures Count(VideoArgs(o, input, output), "-af") == if o.speed != 1.0 then 1 else 0
  {
    var filters := VideoFilters(o);
    VideoFiltersStartLower(o);
    SingleVf(input, o.trim, filters, o.speed, o.quality, o.format, output);
    SingleAf(input, o.trim, filters, o.speed, o.quality, o.format, output);
  }
}
