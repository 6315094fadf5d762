/** The ffmpeg argument list built for a video job: the input, an optional trim window,
    one `-vf` filter chain (scale, colour, blur, sharpening, noise, artistic effects,
    transforms, temporal effects, speed), an optional `-af atempo` stage, the CRF
    quality, the codecs and finally `-y <output>`. */
module VideoCommand {
  import opened Wrappers
  import opened Strings
  import opened Options
  import opened FFmpegArgs

  // ---------------------------------------------------------------------------
  // Filter terms

  /** The scale filter: both sides (optionally only shrinking to fit), or one side
      with the other derived from the aspect ratio (-1). */
  function ScaleFilter(width: Option<int>, height: Option<int>, preserve: bool): string
    requires width.Some? || height.Some?
  {
    if width.Some? && height.Some? then
      if preserve then
        "scale=" + IntToString(width.value) + ":" + IntToString(height.value)
        + ":force_original_aspect_ratio=decrease"
      else "scale=" + IntToString(width.value) + ":" + IntToString(height.value)
    else if width.Some? then "scale=" + IntToString(width.value) + ":-1"
    else "scale=-1:" + IntToString(height.value)
  }

  function ScaleSegment(o: VideoOptions): seq<string> {
    if o.width.Some? || o.height.Some? then [ScaleFilter(o.width, o.height, o.preserveAspectRatio)]
    else []
  }

  /** An eq gain: 1 + v/100, never below `floor`. */
  function Gain(v: int, floor: real): (r: real)
    ensures r >= floor
    ensures r == floor || r == 1.0 + v as real / 100.0
    ensures 1.0 + v as real / 100.0 >= floor ==> r == 1.0 + v as real / 100.0
  {
    var g := 1.0 + v as real / 100.0;
    if g < floor then floor else g
  }

  function BrightnessTerm(b: Option<int>): seq<string> {
    if b.Some? && b.value != 0 then ["brightness=" + Fmt2(b.value as real / 100.0)] else []
  }

  function ContrastTerm(c: Option<int>): seq<string> {
    if c.Some? && c.value != 0 then ["contrast=" + Fmt2(Gain(c.value, 0.0))] else []
  }

  function SaturationTerm(s: Option<int>): seq<string> {
    if s.Some? && s.value != 0 then ["saturation=" + Fmt2(Gain(s.value, 0.0))] else []
  }

  function GammaTerm(g: Option<real>): seq<string> {
    if g.Some? && g.value != 1.0 then ["gamma=" + Fmt2(g.value)] else []
  }

  function HueTerm(h: Option<int>): seq<string> {
    if h.Some? && h.value != 0 then ["h=" + IntToString(h.value)] else []
  }

  function ExposureTerm(e: Option<int>): seq<string> {
    if e.Some? && e.value != 0 then ["exposure=" + Fmt2(Gain(e.value, 0.1))] else []
  }

  function ShadowsTerm(s: Option<int>): seq<string> {
    if s.Some? && s.value != 0 then ["gamma_b=" + Fmt2(1.0 - s.value as real / 100.0 * 0.3)]
    else []
  }

  function HighlightsTerm(h: Option<int>): seq<string> {
    if h.Some? && h.value != 0 then ["gamma_r=" + Fmt2(1.0 + h.value as real / 100.0 * 0.3)]
    else []
  }

  /** The colour corrections, in the order they are collected. */
  function ColorTerms(ve: VisualEffects): seq<string> {
    BrightnessTerm(ve.brightness) + ContrastTerm(ve.contrast) + SaturationTerm(ve.saturation)
    + GammaTerm(ve.gamma) + HueTerm(ve.hue) + ExposureTerm(ve.exposure)
    + ShadowsTerm(ve.shadows) + HighlightsTerm(ve.highlights)
  }

  /** All colour corrections are merged into one `eq` filter, present only when there
      is at least one. */
  function EqSegment(ve: VisualEffects): seq<string> {
    var terms := ColorTerms(ve);
    if |terms| > 0 then ["eq=" + Join(terms, ":")] else []
  }

  function BlurSegment(sigma: Option<int>): seq<string> {
    if sigma.Some? && sigma.value > 0 then ["gblur=sigma=" + IntToString(sigma.value)] else []
  }

  function MotionBlurSegment(m: Option<MotionBlur>): seq<string> {
    if m.Some? && m.value.distance > 0.0 then
      ["minterpolate=" + "fps=25:mc_mode=aobmc:me_mode=bidir:vsbmc=1"]
    else []
  }

  /** Sharpening: the radius and threshold are truncated to integers and the kernel is
      2 * radius + 1 wide in both directions. */
  function UnsharpFilter(u: UnsharpMask): string {
    var size := IntToString(Trunc(u.radius) * 2 + 1);
    "unsharp=luma_msize_x=" + size + ":luma_msize_y=" + size + ":luma_amount="
    + Fmt2(u.amount / 100.0) + ":luma_threshold=" + IntToString(Trunc(u.threshold))
  }

  function UnsharpSegment(u: Option<UnsharpMask>): seq<string> {
    if u.Some? && u.value.amount > 0.0 then [UnsharpFilter(u.value)] else []
  }

  /** Noise by kind; "vintage" halves the truncated amount. Other kinds add nothing. */
  function NoiseFilter(kind: string, strength: int): seq<string> {
    if kind == "film-grain" then ["noise=alls=" + IntToString(strength) + ":allf=t"]
    else if kind == "digital" then ["noise=alls=" + IntToString(strength) + ":allf=u"]
    else if kind == "vintage" then ["noise=alls=" + IntToString(strength / 2) + ":allf=t"]
    else []
  }

  function NoiseSegment(n: Option<Noise>): seq<string> {
    if n.Some? && n.value.amount > 0.0 && n.value.kind != "none" then
      NoiseFilter(n.value.kind, Trunc(n.value.amount))
    else []
  }

  const OilPaintingKernel := "0 0 0 0:0 1 0 0:0 0 0 0:0 0 0 0:1:1:1:1:0:128"
  const EmbossKernel := "0 -1 0:-1 5 -1:0 -1 0:0:1:1:0:128:1:0"
  const PosterizePalette := "stats_mode=single:max_colors=16,paletteuse=dither=none"

  /** The fixed filter for each artistic effect, written as the filter name and then
      its parameters; unknown names add nothing. */
  function ArtisticFilter(name: string): seq<string> {
    if name == "oil-painting" then ["convolution=" + OilPaintingKernel]
    else if name == "watercolor" then ["gblur=" + "sigma=2,edgedetect=low=0.1:high=0.4"]
    else if name == "sketch" then ["edgedetect=" + "low=0.05:high=0.2,negate"]
    else if name == "emboss" then ["convolution=" + EmbossKernel]
    else if name == "edge-detection" then ["edgedetect=" + "low=0.1:high=0.3"]
    else if name == "posterize" then ["palettegen=" + PosterizePalette]
    else []
  }

  function ArtisticSegment(a: Option<string>): seq<string> {
    if a.Some? && a.value != "none" then ArtisticFilter(a.value) else []
  }

  function VisualFilters(ve: Option<VisualEffects>): seq<string> {
    if ve.None? then []
    else
      var v := ve.value;
      EqSegment(v) + BlurSegment(v.gaussianBlur) + MotionBlurSegment(v.motionBlur)
      + UnsharpSegment(v.unsharpMask) + NoiseSegment(v.noise) + ArtisticSegment(v.artistic)
  }

  /** Rotation in degrees becomes radians (pi taken as 3.14159) with four decimals. */
  function RotateSegment(rotation: Option<real>): seq<string> {
    if rotation.Some? && rotation.value != 0.0 then
      ["rotate=" + FormatFixed(rotation.value * 3.14159 / 180.0, 4)]
    else []
  }

  function CropSegment(c: Option<CropArea>): seq<string> {
    if c.Some? then
      ["crop=" + IntToString(c.value.width) + ":" + IntToString(c.value.height) + ":"
       + IntToString(c.value.x) + ":" + IntToString(c.value.y)]
    else []
  }

  function TransformFilters(t: Option<Transform>): seq<string> {
    if t.None? then []
    else
      RotateSegment(t.value.rotation) + FlagSegment(t.value.flipHorizontal, "hflip")
      + FlagSegment(t.value.flipVertical, "vflip") + CropSegment(t.value.crop)
  }

  function FpsSegment(f: Option<FrameRate>): seq<string> {
    if f.Some? && f.value.target.Some? then ["fps=" + IntToString(f.value.target.value)] else []
  }

  function DeshakeSegment(s: Option<Stabilization>): seq<string> {
    if s.Some? && s.value.enabled then
      ["deshake=x=" + IntToString(s.value.shakiness) + ":y=" + IntToString(s.value.accuracy)]
    else []
  }

  function TemporalFilters(te: Option<Temporal>): seq<string> {
    if te.None? then []
    else
      FlagSegment(te.value.reverse, "reverse") + FpsSegment(te.value.frameRate)
      + DeshakeSegment(te.value.stabilization)
  }

  /** Playback speed: presentation timestamps are scaled by 1/speed. */
  function SetptsSegment(speed: real): seq<string>
    requires speed != 0.0
  {
    if speed != 1.0 then ["setpts=" + Fmt2(1.0 / speed) + "*PTS"] else []
  }

  /** The whole filter chain, in application order. */
  function VideoFilters(o: VideoOptions): seq<string>
    requires o.speed != 0.0
  {
    ScaleSegment(o) + VisualFilters(o.visualEffects) + TransformFilters(o.transform)
    + TemporalFilters(o.temporal) + SetptsSegment(o.speed)
  }

  // ---------------------------------------------------------------------------
  // Argument segments

  function VfSegment(filters: seq<string>): seq<string> {
    if |filters| > 0 then ["-vf", Join(filters, ",")] else []
  }

  /** The audio track is sped up with a single tempo stage, whatever the speed. */
  function AfSegment(speed: real): seq<string> {
    if speed != 1.0 then ["-af", "atempo=" + Fmt2(speed)] else []
  }

  function CrfSegment(quality: string): seq<string> {
    if quality == "low" then ["-crf", "30"]
    else if quality == "medium" then ["-crf", "23"]
    else if quality == "high" then ["-crf", "18"]
    else []
  }

  /** H.264/AAC is always named first. */
  const DefaultCodecs := ["-c:v", "libx264", "-c:a", "aac"]

  /** WebM and ProRes name their own codecs after the defaults; the later ones win. */
  function CodecOverride(format: string): seq<string> {
    if format == "webm" then ["-c:v", "libvpx-vp9", "-c:a", "libopus"]
    else if format == "prores" then ["-c:v", "prores_ks", "-profile:v", "2"]
    else []
  }

  /** The argument list around a given filter chain. */
  function AssembleArgs(input: string, trim: Option<TrimRange>, filters: seq<string>,
                        speed: real, quality: string, format: string, output: string)
    : seq<string>
  {
    ["-i", input] + TrimSegment(trim) + VfSegment(filters) + AfSegment(speed)
    + CrfSegment(quality) + DefaultCodecs + CodecOverride(format) + ["-y", output]
  }

  function VideoArgs(o: VideoOptions, input: string, output: string): seq<string>
    requires o.speed != 0.0
  {
    AssembleArgs(input, o.trim, VideoFilters(o), o.speed, o.quality, o.format, output)
  }

  // ---------------------------------------------------------------------------
  // The builder

  /** 1 + v/100, raised to `floor` when it falls below it. */
  method ClampedGain(v: int, floor: real) returns (g: real)
    ensures g == Gain(v, floor)
  {
    g := 1.0 + v as real / 100.0;
    if g < floor {
      g := floor;
    }
  }

  /** Collects the basic colour corrections (brightness, contrast, saturation, gamma,
      hue) one by one. */
  method CollectBasicColorTerms(ve: VisualEffects) returns (terms: seq<string>)
    ensures terms == BrightnessTerm(ve.brightness) + ContrastTerm(ve.contrast)
                     + SaturationTerm(ve.saturation) + GammaTerm(ve.gamma) + HueTerm(ve.hue)
  {
    terms := [];
    if ve.brightness.Some? && ve.brightness.value != 0 {
      terms := terms + ["brightness=" + Fmt2(ve.brightness.value as real / 100.0)];
    }
    assert terms == BrightnessTerm(ve.brightness);
    ghost var before := terms;
    if ve.contrast.Some? && ve.contrast.value != 0 {
      var contrast := ClampedGain(ve.contrast.value, 0.0);
      terms := terms + ["contrast=" + Fmt2(contrast)];
    }
    assert terms == before + ContrastTerm(ve.contrast);
    before := terms;
    if ve.saturation.Some? && ve.saturation.value != 0 {
      var saturation := ClampedGain(ve.saturation.value, 0.0);
      terms := terms + ["saturation=" + Fmt2(saturation)];
    }
    assert terms == before + SaturationTerm(ve.saturation);
    terms := AppendGammaHueTerms(terms, ve);
  }

  /** Appends the gamma and hue corrections. */
  method AppendGammaHueTerms(head: seq<string>, ve: VisualEffects) returns (terms: seq<string>)
    ensures terms == head + GammaTerm(ve.gamma) + HueTerm(ve.hue)
  {
    terms := head;
    if ve.gamma.Some? && ve.gamma.value != 1.0 {
      terms := terms + ["gamma=" + Fmt2(ve.gamma.value)];
    }
    assert terms == head + GammaTerm(ve.gamma);
    ghost var before := terms;
    if ve.hue.Some? && ve.hue.value != 0 {
      terms := terms + ["h=" + IntToString(ve.hue.value)];
    }
    assert terms == before + HueTerm(ve.hue);
  }

  /** Appends the exposure, shadow and highlight corrections. */
  method AppendAdvancedColorTerms(basic: seq<string>, ve: VisualEffects)
    returns (terms: seq<string>)
    ensures terms == basic + ExposureTerm(ve.exposure) + ShadowsTerm(ve.shadows)
                     + HighlightsTerm(ve.highlights)
  {
    terms := basic;
    if ve.exposure.Some? && ve.exposure.value != 0 {
      var exposure := ClampedGain(ve.exposure.value, 0.1);
      terms := terms + ["exposure=" + Fmt2(exposure)];
    }
    assert terms == basic + ExposureTerm(ve.exposure);
    ghost var before := terms;
    if ve.shadows.Some? && ve.shadows.value != 0 {
      var lift := ve.shadows.value as real / 100.0;
      terms := terms + ["gamma_b=" + Fmt2(1.0 - lift * 0.3)];
    }
    assert terms == before + ShadowsTerm(ve.shadows);
    before := terms;
    if ve.highlights.Some? && ve.highlights.value != 0 {
      var recovery := ve.highlights.value as real / 100.0;
      terms := terms + ["gamma_r=" + Fmt2(1.0 + recovery * 0.3)];
    }
    assert terms == before + HighlightsTerm(ve.highlights);
  }

  /** The sharpening, noise and artistic filters, appended in that order. */
  method AppendDetailEffects(head: seq<string>, ve: VisualEffects) returns (chain: seq<string>)
    ensures chain == head + UnsharpSegment(ve.unsharpMask) + NoiseSegment(ve.noise)
                     + ArtisticSegment(ve.artistic)
  {
    chain := head;
    if ve.unsharpMask.Some? && ve.unsharpMask.value.amount > 0.0 {
      chain := chain + [UnsharpFilter(ve.unsharpMask.value)];
    }
    assert chain == head + UnsharpSegment(ve.unsharpMask);
    ghost var before := chain;
    if ve.noise.Some? && ve.noise.value.amount > 0.0 && ve.noise.value.kind != "none" {
      chain := chain + NoiseFilter(ve.noise.value.kind, Trunc(ve.noise.value.amount));
    }
    assert chain == before + NoiseSegment(ve.noise);
    before := chain;
    if ve.artistic.Some? && ve.artistic.value != "none" {
      chain := chain + ArtisticFilter(ve.artistic.value);
    }
    assert chain == before + ArtisticSegment(ve.artistic);
  }

  /** The visual-effect filters, collected in order. */
  method CollectVisualEffects(ve: VisualEffects) returns (chain: seq<string>)
    ensures chain == VisualFilters(Some(ve))
  {
    var terms := CollectBasicColorTerms(ve);
    terms := AppendAdvancedColorTerms(terms, ve);
    assert terms == ColorTerms(ve);
    chain := [];
    if |terms| > 0 {
      chain := chain + ["eq=" + Join(terms, ":")];
    }
    assert chain == EqSegment(ve);
    ghost var before := chain;
    if ve.gaussianBlur.Some? && ve.gaussianBlur.value > 0 {
      chain := chain + ["gblur=sigma=" + IntToString(ve.gaussianBlur.value)];
    }
    assert chain == before + BlurSegment(ve.gaussianBlur);
    before := chain;
    if ve.motionBlur.Some? && ve.motionBlur.value.distance > 0.0 {
      chain := chain + ["minterpolate=" + "fps=25:mc_mode=aobmc:me_mode=bidir:vsbmc=1"];
    }
    assert chain == before + MotionBlurSegment(ve.motionBlur);
    chain := AppendDetailEffects(chain, ve);
  }

  /** The transform filters, collected in order. */
  method CollectTransform(t: Transform) returns (chain: seq<string>)
    ensures chain == TransformFilters(Some(t))
  {
    chain := [];
    if t.rotation.Some? && t.rotation.value != 0.0 {
      var radians := t.rotation.value * 3.14159 / 180.0;
      chain := chain + ["rotate=" + FormatFixed(radians, 4)];
    }
    assert chain == RotateSegment(t.rotation);
    ghost var before := chain;
    if t.flipHorizontal.Some? && t.flipHorizontal.value {
      chain := chain + ["hflip"];
    }
    assert chain == before + FlagSegment(t.flipHorizontal, "hflip");
    before := chain;
    if t.flipVertical.Some? && t.flipVertical.value {
      chain := chain + ["vflip"];
    }
    assert chain == before + FlagSegment(t.flipVertical, "vflip");
    before := chain;
    if t.crop.Some? {
      var c := t.crop.value;
      chain := chain + ["crop=" + IntToString(c.width) + ":" + IntToString(c.height) + ":"
                        + IntToString(c.x) + ":" + IntToString(c.y)];
    }
    assert chain == before + CropSegment(t.crop);
  }

  /** The temporal filters, collected in order. */
  method CollectTemporal(te: Temporal) returns (chain: seq<string>)
    ensures chain == TemporalFilters(Some(te))
  {
    chain := [];
    if te.reverse.Some? && te.reverse.value {
      chain := chain + ["reverse"];
    }
    assert chain == FlagSegment(te.reverse, "reverse");
    ghost var before := chain;
    if te.frameRate.Some? && te.frameRate.value.target.Some? {
      chain := chain + ["fps=" + IntToString(te.frameRate.value.target.value)];
    }
    assert chain == before + FpsSegment(te.frameRate);
    before := chain;
    if te.stabilization.Some? && te.stabilization.value.enabled {
      var st := te.stabilization.value;
      chain := chain + ["deshake=x=" + IntToString(st.shakiness) + ":y=" + IntToString(st.accuracy)];
    }
    assert chain == before + DeshakeSegment(te.stabilization);
  }

  /** The filter chain, grown in the order the options are inspected. */
  method CollectVideoFilters(o: VideoOptions) returns (filters: seq<string>)
    requires o.speed != 0.0
    ensures filters == VideoFilters(o)
  {
    filters := [];
    if o.width.Some? || o.height.Some? {
      filters := filters + [ScaleFilter(o.width, o.height, o.preserveAspectRatio)];
    }
    assert filters == ScaleSegment(o);
    ghost var before := filters;
    if o.visualEffects.Some? {
      var visual := CollectVisualEffects(o.visualEffects.value);
      filters := filters + visual;
    }
    assert filters == before + VisualFilters(o.visualEffects);
    filters := AppendTransformAndTiming(filters, o);
  }

  /** Appends the transform, temporal and speed filters, in that order. */
  method AppendTransformAndTiming(head: seq<string>, o: VideoOptions) returns (filters: seq<string>)
    requires o.speed != 0.0
    ensures filters == head + TransformFilters(o.transform) + TemporalFilters(o.temporal)
                       + SetptsSegment(o.speed)
  {
    filters := head;
    ghost var before := filters;
    if o.transform.Some? {
      var transform := CollectTransform(o.transform.value);
      filters := filters + transform;
    }
    assert filters == before + TransformFilters(o.transform);
    before := filters;
    if o.temporal.Some? {
      var temporal := CollectTemporal(o.temporal.value);
      filters := filters + temporal;
    }
    assert filters == before + TemporalFilters(o.temporal);
    before := filters;
    if o.speed != 1.0 {
      filters := filters + ["setpts=" + Fmt2(1.0 / o.speed) + "*PTS"];
    }
    assert filters == before + SetptsSegment(o.speed);
  }

  /** The video argument building, step by step: input, trim, the filter chain, the
      audio tempo, quality, codecs and output, in that order. */
  method BuildVideoArgs(o: VideoOptions, input: string, output: string)
    returns (args: seq<string>)
    requires o.speed != 0.0
    ensures args == VideoArgs(o, input, output)
  {
    args := ["-i", input];
    if o.trim.Some? {
      args := args + ["-ss", Fmt2(o.trim.value.startTime)];
      var duration := o.trim.value.endTime - o.trim.value.startTime;
      args := args + ["-t", Fmt2(duration)];
    }
    assert args == ["-i", input] + TrimSegment(o.trim);
    var filters := CollectVideoFilters(o);
    ghost var prefix := args;
    if |filters| > 0 {
      args := args + ["-vf", Join(filters, ",")];
    }
    assert args == prefix + VfSegment(VideoFilters(o));
    prefix := args;
    if o.speed != 1.0 {
      args := args + ["-af", "atempo=" + Fmt2(o.speed)];
    }
    assert args == prefix + AfSegment(o.speed);
    prefix := args;
    if o.quality == "low" {
      args := args + ["-crf", "30"];
    } else if o.quality == "medium" {
      args := args + ["-crf", "23"];
    } else if o.quality == "high" {
      args := args + ["-crf", "18"];
    }
    assert args == prefix + CrfSegment(o.quality);
    prefix := args;
    args := args + ["-c:v", "libx264", "-c:a", "aac"];
    assert args == prefix + DefaultCodecs;
    prefix := args;
    if o.format == "webm" {
      args := args + ["-c:v", "libvpx-vp9", "-c:a", "libopus"];
    } else if o.format == "prores" {
      args := args + ["-c:v", "prores_ks", "-profile:v", "2"];
    }
    assert args == prefix + CodecOverride(o.format);
    args := args + ["-y", output];
  }
}
