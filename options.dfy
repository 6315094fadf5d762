/** The typed option records each media kind is decoded into before it is validated
    and turned into an encoder command. A Go field that may be nil is an `Option`; Go's
    `float64` is `real`. Field `kind` stands for the JSON field "type". */
module Options {
  import opened Wrappers

  /** A rectangle, in pixels, with its top-left corner at (x, y). */
  datatype CropArea = CropArea(x: int, y: int, width: int, height: int)

  /** A time window in seconds. */
  datatype TrimRange = TrimRange(startTime: real, endTime: real)

  datatype ImageOptions = ImageOptions(
    format: string,
    width: Option<int>,
    height: Option<int>,
    quality: int,
    filter: string,
    tint: Option<string>,
    crop: Option<CropArea>)

  datatype MotionBlur = MotionBlur(distance: real)
  datatype UnsharpMask = UnsharpMask(amount: real, radius: real, threshold: real)
  datatype Noise = Noise(kind: string, amount: real)

  datatype VisualEffects = VisualEffects(
    brightness: Option<int>,
    contrast: Option<int>,
    saturation: Option<int>,
    gamma: Option<real>,
    hue: Option<int>,
    exposure: Option<int>,
    shadows: Option<int>,
    highlights: Option<int>,
    gaussianBlur: Option<int>,
    motionBlur: Option<MotionBlur>,
    unsharpMask: Option<UnsharpMask>,
    noise: Option<Noise>,
    artistic: Option<string>)

  datatype Transform = Transform(
    rotation: Option<real>,
    flipHorizontal: Option<bool>,
    flipVertical: Option<bool>,
    crop: Option<CropArea>)

  datatype FrameRate = FrameRate(target: Option<int>)
  datatype Stabilization = Stabilization(enabled: bool, shakiness: int, accuracy: int)

  datatype Temporal = Temporal(
    reverse: Option<bool>,
    frameRate: Option<FrameRate>,
    stabilization: Option<Stabilization>)

  datatype Hdr = Hdr(toneMapping: string)
  datatype ColorSpace = ColorSpace(input: string, output: string)
  datatype VideoAdvanced = VideoAdvanced(hdr: Option<Hdr>, colorSpace: Option<ColorSpace>)

  datatype VideoOptions = VideoOptions(
    format: string,
    width: Option<int>,
    height: Option<int>,
    preserveAspectRatio: bool,
    speed: real,
    quality: string,
    trim: Option<TrimRange>,
    visualEffects: Option<VisualEffects>,
    transform: Option<Transform>,
    temporal: Option<Temporal>,
    advanced: Option<VideoAdvanced>)

  datatype Equalizer = Equalizer(enabled: bool, preset: string)

  datatype Stereo = Stereo(
    pan: Option<real>,
    width: Option<real>,
    monoConversion: Option<bool>,
    channelSwap: Option<bool>)

  datatype BasicProcessing = BasicProcessing(
    normalize: Option<bool>,
    amplify: Option<real>,
    fadeIn: Option<real>,
    fadeOut: Option<real>,
    equalizer: Option<Equalizer>,
    stereo: Option<Stereo>)

  datatype Reverb = Reverb(enabled: bool, kind: string, roomSize: real)
  datatype Delay = Delay(enabled: bool, kind: string, time: real, feedback: real)
  datatype Modulation = Modulation(enabled: bool, kind: string, rate: real, depth: real)

  datatype TimeBasedEffects = TimeBasedEffects(
    reverb: Option<Reverb>,
    delay: Option<Delay>,
    modulation: Option<Modulation>)

  datatype NoiseReduction = NoiseReduction(enabled: bool, kind: string, strength: real)
  datatype DeHum = DeHum(enabled: bool, frequency: string)
  datatype Declip = Declip(enabled: bool, threshold: real)
  datatype SilenceDetection = SilenceDetection(enabled: bool, threshold: real, minDuration: real)

  datatype Restoration = Restoration(
    noiseReduction: Option<NoiseReduction>,
    deHum: Option<DeHum>,
    declip: Option<Declip>,
    silenceDetection: Option<SilenceDetection>)

  datatype PitchShift = PitchShift(enabled: bool, semitones: int)
  datatype TimeStretch = TimeStretch(enabled: bool, factor: real, algorithm: string)
  datatype SpatialAudio = SpatialAudio(enabled: bool, kind: string)

  datatype AudioAdvanced = AudioAdvanced(
    pitchShift: Option<PitchShift>,
    timeStretch: Option<TimeStretch>,
    spatialAudio: Option<SpatialAudio>)

  datatype AudioOptions = AudioOptions(
    format: string,
    bitrate: string,
    sampleRate: string,
    channels: string,
    speed: real,
    volume: real,
    trim: Option<TrimRange>,
    basicProcessing: Option<BasicProcessing>,
    timeBasedEffects: Option<TimeBasedEffects>,
    restoration: Option<Restoration>,
    advanced: Option<AudioAdvanced>)
}
