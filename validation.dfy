/** The option validators run before any encoder is started. Each is a chain of early
    returns: the first violated constraint is reported with its message, and a
    record that violates nothing passes. Every validator is paired with a
    declarative predicate saying which records are acceptable, and its contract is
    that it passes exactly on those. */
module Validation {
  import opened Wrappers
  import opened Strings
  import opened Options

  /** The outcome of a validator: Go's `nil` error, or the error text. */
  datatype Check = Pass | Fail(message: string)

  // ---------------------------------------------------------------------------
  // Enumerations

  const ImageFormats: set<string> := {"jpg", "jpeg", "png", "webp", "gif"}
  const ImageFilters: set<string> := {
    "none", "grayscale", "sepia", "blur", "sharpen", "swirl", "barrel-distortion",
    "oil-painting", "vintage", "emboss", "charcoal", "sketch", "rotate-45º",
    "rotate-90º", "rotate-180º", "rotate-270º"}
  const VideoQualities: set<string> := {"low", "medium", "high"}
  const VideoFormats: set<string> :=
    {"mp4", "webm", "avi", "mov", "mkv", "flv", "wmv", "prores", "dnxhd"}
  const ArtisticEffects: set<string> :=
    {"none", "oil-painting", "watercolor", "sketch", "emboss", "edge-detection", "posterize"}
  const ToneMappings: set<string> := {"none", "hable", "reinhard", "mobius"}
  const ColorSpaces: set<string> := {"auto", "rec709", "rec2020", "srgb", "p3"}
  const Bitrates: set<string> := {"128", "192", "256", "320", "512", "1024"}
  const SampleRates: set<string> := {"22050", "44100", "48000", "96000", "192000"}
  const ChannelLayouts: set<string> := {"mono", "stereo", "5.1", "7.1"}
  const AudioFormats: set<string> :=
    {"mp3", "wav", "aac", "ogg", "flac", "alac", "opus", "ac3", "dts"}
  const EqPresets: set<string> :=
    {"none", "bass-boost", "treble-boost", "vocal", "classical", "rock", "jazz"}
  const ReverbKinds: set<string> := {"none", "room", "hall", "plate", "spring"}
  const DelayKinds: set<string> := {"none", "echo", "multi-tap", "ping-pong"}
  const ModulationKinds: set<string> :=
    {"none", "chorus", "flanger", "phaser", "tremolo", "vibrato"}
  const NoiseReductionKinds: set<string> := {"none", "spectral", "adaptive", "gate"}
  const HumFrequencies: set<string> := {"50hz", "60hz", "auto"}
  const StretchAlgorithms: set<string> := {"pitch", "time", "formant"}
  const SpatialKinds: set<string> := {"none", "binaural", "surround", "3d"}

  // ---------------------------------------------------------------------------
  // Acceptable records, stated declaratively

  /** An optional integer that, when present, lies in [lo, hi]. */
  predicate IntWithin(v: Option<int>, lo: int, hi: int) {
    v.Some? ==> lo <= v.value <= hi
  }

  /** An optional real that, when present, lies in [lo, hi]. */
  predicate RealWithin(v: Option<real>, lo: real, hi: real) {
    v.Some? ==> lo <= v.value <= hi
  }

  /** An optional integer that, when present, is above zero. */
  predicate PositiveIfPresent(v: Option<int>) {
    v.Some? ==> v.value > 0
  }

  /** Width and height, each absent or in [1, max]. */
  predicate DimensionsOk(width: Option<int>, height: Option<int>, max: int) {
    IntWithin(width, 1, max) && IntWithin(height, 1, max)
  }

  predicate SpeedOk(speed: real) {
    0.25 <= speed <= 4.0
  }

  /** A trim window is acceptable when it starts at or after zero and lasts at least a
      tenth of a second (the separate checks on the end time follow from these). */
  predicate TrimOk(t: Option<TrimRange>) {
    t.Some? ==> t.value.startTime >= 0.0 && t.value.endTime - t.value.startTime >= 0.1
  }

  predicate ImageCropOk(c: Option<CropArea>) {
    c.Some? ==>
      c.value.x >= 0 && c.value.y >= 0
      && 1 <= c.value.width <= 10000 && 1 <= c.value.height <= 10000
  }

  predicate ImageOptionsOk(o: ImageOptions) {
    DimensionsOk(o.width, o.height, 10000)
    && 1 <= o.quality <= 100
    && o.format in ImageFormats
    && (o.filter == "" || o.filter in ImageFilters)
    && ImageCropOk(o.crop)
  }

  predicate VisualEffectsOk(v: Option<VisualEffects>) {
    v.Some? ==>
      var ve := v.value;
      IntWithin(ve.brightness, -100, 100) && IntWithin(ve.contrast, -100, 100)
      && IntWithin(ve.saturation, -100, 100) && IntWithin(ve.hue, -180, 180)
      && RealWithin(ve.gamma, 0.1, 3.0) && IntWithin(ve.gaussianBlur, 0, 50)
      && (ve.artistic.Some? ==> ve.artistic.value in ArtisticEffects)
  }

  predicate TransformOk(v: Option<Transform>) {
    v.Some? ==>
      RealWithin(v.value.rotation, -360.0, 360.0)
      && (v.value.crop.Some? ==>
            var c := v.value.crop.value;
            c.x >= 0 && c.y >= 0 && c.width > 0 && c.height > 0)
  }

  predicate TemporalOk(v: Option<Temporal>) {
    v.Some? ==>
      (v.value.frameRate.Some? ==> IntWithin(v.value.frameRate.value.target, 1, 120))
      && (v.value.stabilization.Some? && v.value.stabilization.value.enabled ==>
            1 <= v.value.stabilization.value.shakiness <= 10
            && 1 <= v.value.stabilization.value.accuracy <= 15)
  }

  predicate VideoAdvancedOk(v: Option<VideoAdvanced>) {
    v.Some? ==>
      (v.value.hdr.Some? ==> v.value.hdr.value.toneMapping in ToneMappings)
      && (v.value.colorSpace.Some? ==>
            v.value.colorSpace.value.input in ColorSpaces
            && v.value.colorSpace.value.output in ColorSpaces)
  }

  /** The checks of a video request that come before its effect groups. */
  predicate VideoBasicsOk(o: VideoOptions) {
    DimensionsOk(o.width, o.height, 4096)
    && SpeedOk(o.speed)
    && o.quality in VideoQualities
    && o.format in VideoFormats
  }

  predicate VideoOptionsOk(o: VideoOptions) {
    VideoBasicsOk(o)
    && TrimOk(o.trim)
    && VisualEffectsOk(o.visualEffects)
    && TransformOk(o.transform)
    && TemporalOk(o.temporal)
    && VideoAdvancedOk(o.advanced)
  }

  predicate BasicProcessingOk(v: Option<BasicProcessing>) {
    v.Some? ==>
      var bp := v.value;
      RealWithin(bp.amplify, -60.0, 60.0)
      && RealWithin(bp.fadeIn, 0.0, 30.0) && RealWithin(bp.fadeOut, 0.0, 30.0)
      && (bp.equalizer.Some? && bp.equalizer.value.enabled ==> bp.equalizer.value.preset in EqPresets)
      && (bp.stereo.Some? ==>
            RealWithin(bp.stereo.value.pan, -100.0, 100.0)
            && RealWithin(bp.stereo.value.width, 0.0, 200.0))
  }

  predicate TimeBasedEffectsOk(v: Option<TimeBasedEffects>) {
    v.Some? ==>
      var t := v.value;
      (t.reverb.Some? && t.reverb.value.enabled ==>
         t.reverb.value.kind in ReverbKinds && 0.0 <= t.reverb.value.roomSize <= 100.0)
      && (t.delay.Some? && t.delay.value.enabled ==>
            t.delay.value.kind in DelayKinds
            && 0.0 <= t.delay.value.time <= 2000.0 && 0.0 <= t.delay.value.feedback <= 95.0)
      && (t.modulation.Some? && t.modulation.value.enabled ==>
            t.modulation.value.kind in ModulationKinds)
  }

  predicate RestorationOk(v: Option<Restoration>) {
    v.Some? ==>
      (v.value.noiseReduction.Some? && v.value.noiseReduction.value.enabled ==>
         v.value.noiseReduction.value.kind in NoiseReductionKinds)
      && (v.value.deHum.Some? && v.value.deHum.value.enabled ==>
            v.value.deHum.value.frequency in HumFrequencies)
  }

  predicate AudioAdvancedOk(v: Option<AudioAdvanced>) {
    v.Some? ==>
      var a := v.value;
      (a.pitchShift.Some? && a.pitchShift.value.enabled ==>
         -24 <= a.pitchShift.value.semitones <= 24)
      && (a.timeStretch.Some? && a.timeStretch.value.enabled ==>
            0.25 <= a.timeStretch.value.factor <= 4.0
            && a.timeStretch.value.algorithm in StretchAlgorithms)
      && (a.spatialAudio.Some? && a.spatialAudio.value.enabled ==>
            a.spatialAudio.value.kind in SpatialKinds)
  }

  /** The checks of an audio request that come before its effect groups. */
  predicate AudioBasicsOk(o: AudioOptions) {
    SpeedOk(o.speed)
    && 0.1 <= o.volume <= 2.0
    && o.bitrate in Bitrates
    && o.sampleRate in SampleRates
    && o.channels in ChannelLayouts
    && o.format in AudioFormats
  }

  predicate AudioOptionsOk(o: AudioOptions) {
    AudioBasicsOk(o)
    && TrimOk(o.trim)
    && BasicProcessingOk(o.basicProcessing)
    && TimeBasedEffectsOk(o.timeBasedEffects)
    && RestorationOk(o.restoration)
    && AudioAdvancedOk(o.advanced)
  }

  // ---------------------------------------------------------------------------
  // The validators

  /** Width and height checks shared by images and videos: both "positive" checks
      come before both "too large" checks. */
  function CheckDimensions(width: Option<int>, height: Option<int>, max: int): (r: Check)
    ensures r.Pass? <==> DimensionsOk(width, height, max)
    ensures width.Some? && width.value <= 0 ==>
      r == Fail("width must be positive, got " + IntToString(width.value))
    ensures PositiveIfPresent(width) && height.Some? && height.value <= 0 ==>
      r == Fail("height must be positive, got " + IntToString(height.value))
    ensures PositiveIfPresent(width) && PositiveIfPresent(height)
            && width.Some? && width.value > max ==>
      r == Fail("width too large (max " + IntToString(max) + "), got " + IntToString(width.value))
    ensures IntWithin(width, 1, max) && PositiveIfPresent(height)
            && height.Some? && height.value > max ==>
      r == Fail("height too large (max " + IntToString(max) + "), got " + IntToString(height.value))
  {
    if width.Some? && width.value <= 0 then
      Fail("width must be positive, got " + IntToString(width.value))
    else if height.Some? && height.value <= 0 then
      Fail("height must be positive, got " + IntToString(height.value))
    else if width.Some? && width.value > max then
      Fail("width too large (max " + IntToString(max) + "), got " + IntToString(width.value))
    else if height.Some? && height.value > max then
      Fail("height too large (max " + IntToString(max) + "), got " + IntToString(height.value))
    else Pass
  }

  function CheckSpeed(speed: real): (r: Check)
    ensures r.Pass? <==> SpeedOk(speed)
    ensures !SpeedOk(speed) ==> r == Fail("speed must be between 0.25 and 4.0, got " + Fmt2(speed))
  {
    if speed < 0.25 || speed > 4.0 then
      Fail("speed must be between 0.25 and 4.0, got " + Fmt2(speed))
    else Pass
  }

  /** The trim rules, identical for video and audio. */
  function CheckTrim(t: Option<TrimRange>): (r: Check)
    ensures r.Pass? <==> TrimOk(t)
    ensures t.Some? ==>
      var s, e := t.value.startTime, t.value.endTime;
      (s < 0.0 ==> r == Fail("trim start time must be non-negative, got " + Fmt2(s)))
      && (s >= 0.0 && e < 0.0 ==> r == Fail("trim end time must be non-negative, got " + Fmt2(e)))
      && (s >= 0.0 && e >= 0.0 && e <= s ==>
            r == Fail("trim end time (" + Fmt2(e) + ") must be greater than start time ("
                      + Fmt2(s) + ")"))
      && (s >= 0.0 && e > s && e - s < 0.1 ==>
            r == Fail("trim duration must be at least 0.1 seconds, got " + Fmt2(e - s)))
  {
    if t.None? then Pass
    else
      var s := t.value.startTime;
      var e := t.value.endTime;
      if s < 0.0 then Fail("trim start time must be non-negative, got " + Fmt2(s))
      else if e < 0.0 then Fail("trim end time must be non-negative, got " + Fmt2(e))
      else if e <= s then
        Fail("trim end time (" + Fmt2(e) + ") must be greater than start time (" + Fmt2(s) + ")")
      else if e - s < 0.1 then
        Fail("trim duration must be at least 0.1 seconds, got " + Fmt2(e - s))
      else Pass
  }

  function CheckImageCrop(c: Option<CropArea>): (r: Check)
    ensures r.Pass? <==> ImageCropOk(c)
    ensures c.Some? ==>
      var a := c.value;
      (a.x < 0 ==> r == Fail("crop X position must be non-negative, got " + IntToString(a.x)))
      && (a.x >= 0 && a.y < 0 ==>
            r == Fail("crop Y position must be non-negative, got " + IntToString(a.y)))
      && (a.x >= 0 && a.y >= 0 && a.width <= 0 ==>
            r == Fail("crop width must be positive, got " + IntToString(a.width)))
      && (a.x >= 0 && a.y >= 0 && a.width > 0 && a.height <= 0 ==>
            r == Fail("crop height must be positive, got " + IntToString(a.height)))
      && (a.x >= 0 && a.y >= 0 && a.height > 0 && a.width > 10000 ==>
            r == Fail("crop width too large (max 10000), got " + IntToString(a.width)))
      && (a.x >= 0 && a.y >= 0 && 1 <= a.width <= 10000 && a.height > 10000 ==>
            r == Fail("crop height too large (max 10000), got " + IntToString(a.height)))
  {
    if c.None? then Pass
    else
      var a := c.value;
      if a.x < 0 then Fail("crop X position must be non-negative, got " + IntToString(a.x))
      else if a.y < 0 then Fail("crop Y position must be non-negative, got " + IntToString(a.y))
      else if a.width <= 0 then Fail("crop width must be positive, got " + IntToString(a.width))
      else if a.height <= 0 then Fail("crop height must be positive, got " + IntToString(a.height))
      else if a.width > 10000 then
        Fail("crop width too large (max 10000), got " + IntToString(a.width))
      else if a.height > 10000 then
        Fail("crop height too large (max 10000), got " + IntToString(a.height))
      else Pass
  }

  /** validateImageOptions. */
  function ValidateImageOptions(o: ImageOptions): (r: Check)
    ensures r.Pass? <==> ImageOptionsOk(o)
    ensures !DimensionsOk(o.width, o.height, 10000) ==>
      r == CheckDimensions(o.width, o.height, 10000)
    ensures DimensionsOk(o.width, o.height, 10000) && !(1 <= o.quality <= 100) ==>
      r == Fail("quality must be between 1 and 100, got " + IntToString(o.quality))
    ensures DimensionsOk(o.width, o.height, 10000) && 1 <= o.quality <= 100
            && o.format !in ImageFormats ==>
      r == Fail("unsupported format: " + o.format)
    ensures DimensionsOk(o.width, o.height, 10000) && 1 <= o.quality <= 100
            && o.format in ImageFormats && o.filter != "" && o.filter !in ImageFilters ==>
      r == Fail("unsupported filter: " + o.filter)
    ensures DimensionsOk(o.width, o.height, 10000) && 1 <= o.quality <= 100
            && o.format in ImageFormats && (o.filter == "" || o.filter in ImageFilters) ==>
      r == CheckImageCrop(o.crop)
  {
    var dims := CheckDimensions(o.width, o.height, 10000);
    if dims.Fail? then dims
    else if o.quality < 1 || o.quality > 100 then
      Fail("quality must be between 1 and 100, got " + IntToString(o.quality))
    else if o.format !in ImageFormats then Fail("unsupported format: " + o.format)
    else if o.filter != "" && o.filter !in ImageFilters then
      Fail("unsupported filter: " + o.filter)
    else CheckImageCrop(o.crop)
  }

  /** Range message for an integer field: "<name> must be between <lo> and <hi>, got <v>". */
  function IntRangeMessage(name: string, lo: int, hi: int, v: int): string {
    name + " must be between " + IntToString(lo) + " and " + IntToString(hi)
    + ", got " + IntToString(v)
  }

  function CheckVisualEffects(v: Option<VisualEffects>): (r: Check)
    ensures r.Pass? <==> VisualEffectsOk(v)
    ensures v.Some? ==>
      var ve := v.value;
      (!IntWithin(ve.brightness, -100, 100) ==>
         r == Fail(IntRangeMessage("brightness", -100, 100, ve.brightness.value)))
      && (IntWithin(ve.brightness, -100, 100) && !IntWithin(ve.contrast, -100, 100) ==>
            r == Fail(IntRangeMessage("contrast", -100, 100, ve.contrast.value)))
      && (IntWithin(ve.brightness, -100, 100) && IntWithin(ve.contrast, -100, 100)
          && !IntWithin(ve.saturation, -100, 100) ==>
            r == Fail(IntRangeMessage("saturation", -100, 100, ve.saturation.value)))
      && (IntWithin(ve.brightness, -100, 100) && IntWithin(ve.contrast, -100, 100)
          && IntWithin(ve.saturation, -100, 100) && !IntWithin(ve.hue, -180, 180) ==>
            r == Fail(IntRangeMessage("hue", -180, 180, ve.hue.value)))
      && (IntWithin(ve.brightness, -100, 100) && IntWithin(ve.contrast, -100, 100)
          && IntWithin(ve.saturation, -100, 100) && IntWithin(ve.hue, -180, 180)
          && !RealWithin(ve.gamma, 0.1, 3.0) ==>
            r == Fail("gamma must be between 0.1 and 3.0, got " + Fmt2(ve.gamma.value)))
      && (IntWithin(ve.brightness, -100, 100) && IntWithin(ve.contrast, -100, 100)
          && IntWithin(ve.saturation, -100, 100) && IntWithin(ve.hue, -180, 180)
          && RealWithin(ve.gamma, 0.1, 3.0) && !IntWithin(ve.gaussianBlur, 0, 50) ==>
            r == Fail(IntRangeMessage("gaussian blur", 0, 50, ve.gaussianBlur.value)))
      && (IntWithin(ve.brightness, -100, 100) && IntWithin(ve.contrast, -100, 100)
          && IntWithin(ve.saturation, -100, 100) && IntWithin(ve.hue, -180, 180)
          && RealWithin(ve.gamma, 0.1, 3.0) && IntWithin(ve.gaussianBlur, 0, 50)
          && ve.artistic.Some? && ve.artistic.value !in ArtisticEffects ==>
            r == Fail("unsupported artistic effect: " + ve.artistic.value))
  {
    if v.None? then Pass
    else
      var ve := v.value;
      if !IntWithin(ve.brightness, -100, 100) then
        Fail(IntRangeMessage("brightness", -100, 100, ve.brightness.value))
      else if !IntWithin(ve.contrast, -100, 100) then
        Fail(IntRangeMessage("contrast", -100, 100, ve.contrast.value))
      else if !IntWithin(ve.saturation, -100, 100) then
        Fail(IntRangeMessage("saturation", -100, 100, ve.saturation.value))
      else if !IntWithin(ve.hue, -180, 180) then
        Fail(IntRangeMessage("hue", -180, 180, ve.hue.value))
      else if ve.gamma.Some? && (ve.gamma.value < 0.1 || ve.gamma.value > 3.0) then
        Fail("gamma must be between 0.1 and 3.0, got " + Fmt2(ve.gamma.value))
      else if !IntWithin(ve.gaussianBlur, 0, 50) then
        Fail(IntRangeMessage("gaussian blur", 0, 50, ve.gaussianBlur.value))
      else if ve.artistic.Some? && ve.artistic.value !in ArtisticEffects then
        Fail("unsupported artistic effect: " + ve.artistic.value)
      else Pass
  }

  function CheckTransform(v: Option<Transform>): (r: Check)
    ensures r.Pass? <==> TransformOk(v)
    ensures v.Some? ==>
      var t := v.value;
      (!RealWithin(t.rotation, -360.0, 360.0) ==>
         r == Fail("rotation must be between -360 and 360, got " + Fmt2(t.rotation.value)))
      && (RealWithin(t.rotation, -360.0, 360.0) && t.crop.Some?
          && (t.crop.value.x < 0 || t.crop.value.y < 0) ==>
            r == Fail("crop position must be non-negative"))
      && (RealWithin(t.rotation, -360.0, 360.0) && t.crop.Some?
          && t.crop.value.x >= 0 && t.crop.value.y >= 0
          && (t.crop.value.width <= 0 || t.crop.value.height <= 0) ==>
            r == Fail("crop dimensions must be positive"))
  {
    if v.None? then Pass
    else
      var t := v.value;
      if t.rotation.Some? && (t.rotation.value < -360.0 || t.rotation.value > 360.0) then
        Fail("rotation must be between -360 and 360, got " + Fmt2(t.rotation.value))
      else if t.crop.Some? && (t.crop.value.x < 0 || t.crop.value.y < 0) then
        Fail("crop position must be non-negative")
      else if t.crop.Some? && (t.crop.value.width <= 0 || t.crop.value.height <= 0) then
        Fail("crop dimensions must be positive")
      else Pass
  }

  function CheckTemporal(v: Option<Temporal>): (r: Check)
    ensures r.Pass? <==> TemporalOk(v)
    ensures v.Some? ==>
      var te := v.value;
      (te.frameRate.Some? && !IntWithin(te.frameRate.value.target, 1, 120) ==>
         r == Fail("frame rate must be between 1 and 120, got "
                   + IntToString(te.frameRate.value.target.value)))
      && ((te.frameRate.Some? ==> IntWithin(te.frameRate.value.target, 1, 120))
          && te.stabilization.Some? && te.stabilization.value.enabled ==>
            var st := te.stabilization.value;
            (!(1 <= st.shakiness <= 10) ==>
               r == Fail(IntRangeMessage("stabilization shakiness", 1, 10, st.shakiness)))
            && (1 <= st.shakiness <= 10 && !(1 <= st.accuracy <= 15) ==>
                  r == Fail(IntRangeMessage("stabilization accuracy", 1, 15, st.accuracy))))
  {
    if v.None? then Pass
    else
      var te := v.value;
      if te.frameRate.Some? && !IntWithin(te.frameRate.value.target, 1, 120) then
        Fail("frame rate must be between 1 and 120, got "
             + IntToString(te.frameRate.value.target.value))
      else if te.stabilization.Some? && te.stabilization.value.enabled then
        var st := te.stabilization.value;
        if st.shakiness < 1 || st.shakiness > 10 then
          Fail(IntRangeMessage("stabilization shakiness", 1, 10, st.shakiness))
        else if st.accuracy < 1 || st.accuracy > 15 then
          Fail(IntRangeMessage("stabilization accuracy", 1, 15, st.accuracy))
        else Pass
      else Pass
  }

  function CheckVideoAdvanced(v: Option<VideoAdvanced>): (r: Check)
    ensures r.Pass? <==> VideoAdvancedOk(v)
    ensures v.Some? ==>
      var adv := v.value;
      (adv.hdr.Some? && adv.hdr.value.toneMapping !in ToneMappings ==>
         r == Fail("unsupported tone mapping: " + adv.hdr.value.toneMapping))
      && ((adv.hdr.Some? ==> adv.hdr.value.toneMapping in ToneMappings)
          && adv.colorSpace.Some? && adv.colorSpace.value.input !in ColorSpaces ==>
            r == Fail("unsupported input color space: " + adv.colorSpace.value.input))
      && ((adv.hdr.Some? ==> adv.hdr.value.toneMapping in ToneMappings)
          && adv.colorSpace.Some? && adv.colorSpace.value.input in ColorSpaces
          && adv.colorSpace.value.output !in ColorSpaces ==>
            r == Fail("unsupported output color space: " + adv.colorSpace.value.output))
  {
    if v.None? then Pass
    else
      var adv := v.value;
      if adv.hdr.Some? && adv.hdr.value.toneMapping !in ToneMappings then
        Fail("unsupported tone mapping: " + adv.hdr.value.toneMapping)
      else if adv.colorSpace.Some? && adv.colorSpace.value.input !in ColorSpaces then
        Fail("unsupported input color space: " + adv.colorSpace.value.input)
      else if adv.colorSpace.Some? && adv.colorSpace.value.output !in ColorSpaces then
        Fail("unsupported output color space: " + adv.colorSpace.value.output)
      else Pass
  }

  /** validateVideoOptions. */
  function ValidateVideoOptions(o: VideoOptions): (r: Check)
    ensures r.Pass? <==> VideoOptionsOk(o)
    ensures !DimensionsOk(o.width, o.height, 4096) ==>
      r == CheckDimensions(o.width, o.height, 4096)
    ensures DimensionsOk(o.width, o.height, 4096) && !SpeedOk(o.speed) ==> r == CheckSpeed(o.speed)
    ensures DimensionsOk(o.width, o.height, 4096) && SpeedOk(o.speed)
            && o.quality !in VideoQualities ==>
      r == Fail("invalid quality setting: " + o.quality)
    ensures DimensionsOk(o.width, o.height, 4096) && SpeedOk(o.speed)
            && o.quality in VideoQualities && o.format !in VideoFormats ==>
      r == Fail("unsupported format: " + o.format)
    ensures VideoBasicsOk(o) && !TrimOk(o.trim) ==> r == CheckTrim(o.trim)
    ensures VideoBasicsOk(o) && TrimOk(o.trim) && !VisualEffectsOk(o.visualEffects) ==>
      r == CheckVisualEffects(o.visualEffects)
    ensures VideoBasicsOk(o) && TrimOk(o.trim) && VisualEffectsOk(o.visualEffects)
            && !TransformOk(o.transform) ==>
      r == CheckTransform(o.transform)
    ensures VideoBasicsOk(o) && TrimOk(o.trim) && VisualEffectsOk(o.visualEffects)
            && TransformOk(o.transform) && !TemporalOk(o.temporal) ==>
      r == CheckTemporal(o.temporal)
    ensures VideoBasicsOk(o) && TrimOk(o.trim) && VisualEffectsOk(o.visualEffects)
            && TransformOk(o.transform) && TemporalOk(o.temporal) ==>
      r == CheckVideoAdvanced(o.advanced)
  {
    var dims := CheckDimensions(o.width, o.height, 4096);
    var speed := CheckSpeed(o.speed);
    if dims.Fail? then dims
    else if speed.Fail? then speed
    else if o.quality !in VideoQualities then Fail("invalid quality setting: " + o.quality)
    else if o.format !in VideoFormats then Fail("unsupported format: " + o.format)
    else
      var trim := CheckTrim(o.trim);
      var ve := CheckVisualEffects(o.visualEffects);
      var tr := CheckTransform(o.transform);
      var te := CheckTemporal(o.temporal);
      var adv := CheckVideoAdvanced(o.advanced);
      if trim.Fail? then trim
      else if ve.Fail? then ve
      else if tr.Fail? then tr
      else if te.Fail? then te
      else adv
  }

  /** Range message for a real field, printed with two decimals. */
  function RealRangeMessage(name: string, range: string, v: real): string {
    name + " must be between " + range + ", got " + Fmt2(v)
  }

  function CheckBasicProcessing(v: Option<BasicProcessing>): (r: Check)
    ensures r.Pass? <==> BasicProcessingOk(v)
    ensures v.Some? ==>
      var bp := v.value;
      var eqOk := bp.equalizer.Some? && bp.equalizer.value.enabled ==>
                    bp.equalizer.value.preset in EqPresets;
      (!RealWithin(bp.amplify, -60.0, 60.0) ==>
         r == Fail(RealRangeMessage("amplify", "-60 and 60 dB", bp.amplify.value)))
      && (RealWithin(bp.amplify, -60.0, 60.0) && !RealWithin(bp.fadeIn, 0.0, 30.0) ==>
            r == Fail(RealRangeMessage("fade in", "0 and 30 seconds", bp.fadeIn.value)))
      && (RealWithin(bp.amplify, -60.0, 60.0) && RealWithin(bp.fadeIn, 0.0, 30.0)
          && !RealWithin(bp.fadeOut, 0.0, 30.0) ==>
            r == Fail(RealRangeMessage("fade out", "0 and 30 seconds", bp.fadeOut.value)))
      && (RealWithin(bp.amplify, -60.0, 60.0) && RealWithin(bp.fadeIn, 0.0, 30.0)
          && RealWithin(bp.fadeOut, 0.0, 30.0) && !eqOk ==>
            r == Fail("unsupported EQ preset: " + bp.equalizer.value.preset))
      && (RealWithin(bp.amplify, -60.0, 60.0) && RealWithin(bp.fadeIn, 0.0, 30.0)
          && RealWithin(bp.fadeOut, 0.0, 30.0) && eqOk
          && bp.stereo.Some? && !RealWithin(bp.stereo.value.pan, -100.0, 100.0) ==>
            r == Fail(RealRangeMessage("pan", "-100 and 100", bp.stereo.value.pan.value)))
      && (RealWithin(bp.amplify, -60.0, 60.0) && RealWithin(bp.fadeIn, 0.0, 30.0)
          && RealWithin(bp.fadeOut, 0.0, 30.0) && eqOk
          && bp.stereo.Some? && RealWithin(bp.stereo.value.pan, -100.0, 100.0)
          && !RealWithin(bp.stereo.value.width, 0.0, 200.0) ==>
            r == Fail(RealRangeMessage("stereo width", "0 and 200", bp.stereo.value.width.value)))
  {
    if v.None? then Pass
    else
      var bp := v.value;
      if !RealWithin(bp.amplify, -60.0, 60.0) then
        Fail(RealRangeMessage("amplify", "-60 and 60 dB", bp.amplify.value))
      else if !RealWithin(bp.fadeIn, 0.0, 30.0) then
        Fail(RealRangeMessage("fade in", "0 and 30 seconds", bp.fadeIn.value))
      else if !RealWithin(bp.fadeOut, 0.0, 30.0) then
        Fail(RealRangeMessage("fade out", "0 and 30 seconds", bp.fadeOut.value))
      else if bp.equalizer.Some? && bp.equalizer.value.enabled
              && bp.equalizer.value.preset !in EqPresets then
        Fail("unsupported EQ preset: " + bp.equalizer.value.preset)
      else if bp.stereo.Some? && !RealWithin(bp.stereo.value.pan, -100.0, 100.0) then
        Fail(RealRangeMessage("pan", "-100 and 100", bp.stereo.value.pan.value))
      else if bp.stereo.Some? && !RealWithin(bp.stereo.value.width, 0.0, 200.0) then
        Fail(RealRangeMessage("stereo width", "0 and 200", bp.stereo.value.width.value))
      else Pass
  }

  function CheckTimeBasedEffects(v: Option<TimeBasedEffects>): (r: Check)
    ensures r.Pass? <==> TimeBasedEffectsOk(v)
    ensures v.Some? ==>
      var t := v.value;
      var reverbOn := t.reverb.Some? && t.reverb.value.enabled;
      var delayOn := t.delay.Some? && t.delay.value.enabled;
      var reverbOk := reverbOn ==>
                        t.reverb.value.kind in ReverbKinds
                        && 0.0 <= t.reverb.value.roomSize <= 100.0;
      (reverbOn && t.reverb.value.kind !in ReverbKinds ==>
         r == Fail("unsupported reverb type: " + t.reverb.value.kind))
      && (reverbOn && t.reverb.value.kind in ReverbKinds
          && !(0.0 <= t.reverb.value.roomSize <= 100.0) ==>
            r == Fail(RealRangeMessage("reverb room size", "0 and 100", t.reverb.value.roomSize)))
      && (reverbOk && delayOn && t.delay.value.kind !in DelayKinds ==>
            r == Fail("unsupported delay type: " + t.delay.value.kind))
      && (reverbOk && delayOn && t.delay.value.kind in DelayKinds
          && !(0.0 <= t.delay.value.time <= 2000.0) ==>
            r == Fail(RealRangeMessage("delay time", "0 and 2000 ms", t.delay.value.time)))
      && (reverbOk && delayOn && t.delay.value.kind in DelayKinds
          && 0.0 <= t.delay.value.time <= 2000.0
          && !(0.0 <= t.delay.value.feedback <= 95.0) ==>
            r == Fail(RealRangeMessage("delay feedback", "0 and 95%", t.delay.value.feedback)))
      && (reverbOk
          && (delayOn ==> t.delay.value.kind in DelayKinds
                          && 0.0 <= t.delay.value.time <= 2000.0
                          && 0.0 <= t.delay.value.feedback <= 95.0)
          && t.modulation.Some? && t.modulation.value.enabled
          && t.modulation.value.kind !in ModulationKinds ==>
            r == Fail("unsupported modulation type: " + t.modulation.value.kind))
  {
    if v.None? then Pass
    else
      var t := v.value;
      if t.reverb.Some? && t.reverb.value.enabled && t.reverb.value.kind !in ReverbKinds then
        Fail("unsupported reverb type: " + t.reverb.value.kind)
      else if t.reverb.Some? && t.reverb.value.enabled
              && (t.reverb.value.roomSize < 0.0 || t.reverb.value.roomSize > 100.0) then
        Fail(RealRangeMessage("reverb room size", "0 and 100", t.reverb.value.roomSize))
      else if t.delay.Some? && t.delay.value.enabled && t.delay.value.kind !in DelayKinds then
        Fail("unsupported delay type: " + t.delay.value.kind)
      else if t.delay.Some? && t.delay.value.enabled
              && (t.delay.value.time < 0.0 || t.delay.value.time > 2000.0) then
        Fail(RealRangeMessage("delay time", "0 and 2000 ms", t.delay.value.time))
      else if t.delay.Some? && t.delay.value.enabled
              && (t.delay.value.feedback < 0.0 || t.delay.value.feedback > 95.0) then
        Fail(RealRangeMessage("delay feedback", "0 and 95%", t.delay.value.feedback))
      else if t.modulation.Some? && t.modulation.value.enabled
              && t.modulation.value.kind !in ModulationKinds then
        Fail("unsupported modulation type: " + t.modulation.value.kind)
      else Pass
  }

  function CheckRestoration(v: Option<Restoration>): (r: Check)
    ensures r.Pass? <==> RestorationOk(v)
    ensures v.Some? ==>
      var rs := v.value;
      var nrOn := rs.noiseReduction.Some? && rs.noiseReduction.value.enabled;
      (nrOn && rs.noiseReduction.value.kind !in NoiseReductionKinds ==>
         r == Fail("unsupported noise reduction type: " + rs.noiseReduction.value.kind))
      && ((nrOn ==> rs.noiseReduction.value.kind in NoiseReductionKinds)
          && rs.deHum.Some? && rs.deHum.value.enabled
          && rs.deHum.value.frequency !in HumFrequencies ==>
            r == Fail("unsupported de-hum frequency: " + rs.deHum.value.frequency))
  {
    if v.None? then Pass
    else
      var rs := v.value;
      if rs.noiseReduction.Some? && rs.noiseReduction.value.enabled
         && rs.noiseReduction.value.kind !in NoiseReductionKinds then
        Fail("unsupported noise reduction type: " + rs.noiseReduction.value.kind)
      else if rs.deHum.Some? && rs.deHum.value.enabled
              && rs.deHum.value.frequency !in HumFrequencies then
        Fail("unsupported de-hum frequency: " + rs.deHum.value.frequency)
      else Pass
  }

  function CheckAudioAdvanced(v: Option<AudioAdvanced>): (r: Check)
    ensures r.Pass? <==> AudioAdvancedOk(v)
    ensures v.Some? ==>
      var a := v.value;
      var pitchOn := a.pitchShift.Some? && a.pitchShift.value.enabled;
      var stretchOn := a.timeStretch.Some? && a.timeStretch.value.enabled;
      var pitchOk := pitchOn ==> -24 <= a.pitchShift.value.semitones <= 24;
      (!pitchOk ==>
         r == Fail("pitch shift must be between -24 and 24 semitones, got "
                   + IntToString(a.pitchShift.value.semitones)))
      && (pitchOk && stretchOn && !(0.25 <= a.timeStretch.value.factor <= 4.0) ==>
            r == Fail(RealRangeMessage("time stretch factor", "0.25 and 4",
                                       a.timeStretch.value.factor)))
      && (pitchOk && stretchOn && 0.25 <= a.timeStretch.value.factor <= 4.0
          && a.timeStretch.value.algorithm !in StretchAlgorithms ==>
            r == Fail("unsupported time stretch algorithm: " + a.timeStretch.value.algorithm))
      && (pitchOk
          && (stretchOn ==> 0.25 <= a.timeStretch.value.factor <= 4.0
                            && a.timeStretch.value.algorithm in StretchAlgorithms)
          && a.spatialAudio.Some? && a.spatialAudio.value.enabled
          && a.spatialAudio.value.kind !in SpatialKinds ==>
            r == Fail("unsupported spatial audio type: " + a.spatialAudio.value.kind))
  {
    if v.None? then Pass
    else
      var a := v.value;
      if a.pitchShift.Some? && a.pitchShift.value.enabled
         && (a.pitchShift.value.semitones < -24 || a.pitchShift.value.semitones > 24) then
        Fail("pitch shift must be between -24 and 24 semitones, got "
             + IntToString(a.pitchShift.value.semitones))
      else if a.timeStretch.Some? && a.timeStretch.value.enabled
              && (a.timeStretch.value.factor < 0.25 || a.timeStretch.value.factor > 4.0) then
        Fail(RealRangeMessage("time stretch factor", "0.25 and 4", a.timeStretch.value.factor))
      else if a.timeStretch.Some? && a.timeStretch.value.enabled
              && a.timeStretch.value.algorithm !in StretchAlgorithms then
        Fail("unsupported time stretch algorithm: " + a.timeStretch.value.algorithm)
      else if a.spatialAudio.Some? && a.spatialAudio.value.enabled
              && a.spatialAudio.value.kind !in SpatialKinds then
        Fail("unsupported spatial audio type: " + a.spatialAudio.value.kind)
      else Pass
  }

  /** validateAudioOptions. */
  function ValidateAudioOptions(o: AudioOptions): (r: Check)
    ensures r.Pass? <==> AudioOptionsOk(o)
    ensures !SpeedOk(o.speed) ==> r == CheckSpeed(o.speed)
    ensures SpeedOk(o.speed) && !(0.1 <= o.volume <= 2.0) ==>
      r == Fail("volume must be between 0.1 and 2.0, got " + Fmt2(o.volume))
    ensures SpeedOk(o.speed) && 0.1 <= o.volume <= 2.0 && o.bitrate !in Bitrates ==>
      r == Fail("invalid bitrate: " + o.bitrate)
    ensures SpeedOk(o.speed) && 0.1 <= o.volume <= 2.0 && o.bitrate in Bitrates
            && o.sampleRate !in SampleRates ==>
      r == Fail("invalid sample rate: " + o.sampleRate)
    ensures SpeedOk(o.speed) && 0.1 <= o.volume <= 2.0 && o.bitrate in Bitrates
            && o.sampleRate in SampleRates && o.channels !in ChannelLayouts ==>
      r == Fail("invalid channels: " + o.channels)
    ensures SpeedOk(o.speed) && 0.1 <= o.volume <= 2.0 && o.bitrate in Bitrates
            && o.sampleRate in SampleRates && o.channels in ChannelLayouts
            && o.format !in AudioFormats ==>
      r == Fail("unsupported format: " + o.format)
    ensures AudioBasicsOk(o) && !TrimOk(o.trim) ==> r == CheckTrim(o.trim)
    ensures AudioBasicsOk(o) && TrimOk(o.trim) && !BasicProcessingOk(o.basicProcessing) ==>
      r == CheckBasicProcessing(o.basicProcessing)
    ensures AudioBasicsOk(o) && TrimOk(o.trim) && BasicProcessingOk(o.basicProcessing)
            && !TimeBasedEffectsOk(o.timeBasedEffects) ==>
      r == CheckTimeBasedEffects(o.timeBasedEffects)
    ensures AudioBasicsOk(o) && TrimOk(o.trim) && BasicProcessingOk(o.basicProcessing)
            && TimeBasedEffectsOk(o.timeBasedEffects) && !RestorationOk(o.restoration) ==>
      r == CheckRestoration(o.restoration)
    ensures AudioBasicsOk(o) && TrimOk(o.trim) && BasicProcessingOk(o.basicProcessing)
            && TimeBasedEffectsOk(o.timeBasedEffects) && RestorationOk(o.restoration) ==>
      r == CheckAudioAdvanced(o.advanced)
  {
    var speed := CheckSpeed(o.speed);
    if speed.Fail? then speed
    else if o.volume < 0.1 || o.volume > 2.0 then
      Fail("volume must be between 0.1 and 2.0, got " + Fmt2(o.volume))
    else if o.bitrate !in Bitrates then Fail("invalid bitrate: " + o.bitrate)
    else if o.sampleRate !in SampleRates then Fail("invalid sample rate: " + o.sampleRate)
    else if o.channels !in ChannelLayouts then Fail("invalid channels: " + o.channels)
    else if o.format !in AudioFormats then Fail("unsupported format: " + o.format)
    else
      var trim := CheckTrim(o.trim);
      var bp := CheckBasicProcessing(o.basicProcessing);
      var tbe := CheckTimeBasedEffects(o.timeBasedEffects);
      var rs := CheckRestoration(o.restoration);
      var adv := CheckAudioAdvanced(o.advanced);
      if trim.Fail? then trim
      else if bp.Fail? then bp
      else if tbe.Fail? then tbe
      else if rs.Fail? then rs
      else adv
  }

  // ---------------------------------------------------------------------------
  // Which failure is reported

  /** Image quality is checked whatever the output format, and before the format and
      the filter: a well-sized PNG request with quality 0 is refused for its quality. */
  lemma ImageQualityCheckedForEveryFormat(o: ImageOptions)
    requires IntWithin(o.width, 1, 10000) && IntWithin(o.height, 1, 10000)
    requires o.quality == 0
    ensures ValidateImageOptions(o) == Fail("quality must be between 1 and 100, got 0")
  {
    assert IntToString(0) == "0";
  }

  /** A video trim window that ends before it starts is refused with the message that
      names both times, once the checks before it pass. */
  lemma VideoTrimEndBeforeStart(o: VideoOptions)
    requires IntWithin(o.width, 1, 4096) && IntWithin(o.height, 1, 4096)
    requires SpeedOk(o.speed) && o.quality in VideoQualities && o.format in VideoFormats
    requires o.trim == Some(TrimRange(5.0, 3.0))
    ensures ValidateVideoOptions(o)
            == Fail("trim end time (" + "3.00" + ") must be greater than start time (" + "5.00" + ")")
  {
    var msg := "trim end time (" + "3.00" + ") must be greater than start time (" + "5.00" + ")";
    assert CheckTrim(o.trim) == Fail(msg) by {
      Fmt2Whole(3);
      Fmt2Whole(5);
      assert NatToString(3) == "3" && NatToString(5) == "5";
      assert Fmt2(3.0) == "3.00" && Fmt2(5.0) == "5.00";
    }
    assert CheckDimensions(o.width, o.height, 4096).Pass?;
    assert CheckSpeed(o.speed).Pass?;
  }

}
