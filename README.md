# Media conversion service: a Dafny model

This project models the core of a Go web service that converts uploaded images,
videos and audio files with external command-line encoders (ImageMagick for images,
FFmpeg for video and audio). The model covers:

- the three option validators, which either accept the options or name the first
  constraint that fails;
- the argument builders for the image, video and audio encoders, including the
  video and audio filter chains;
- the two tempo decompositions. One splits an audio speed change into `atempo`
  stages. The other does the same for the "time" stretch mode;
- the scan of FFmpeg's diagnostic output, which turns `Duration:` and `time=` lines
  into progress percentages;
- the failure classifier, which turns a failed run's error into an explanation,
  including the diagnosis for exit code 8. It is modelled as written, but nothing in
  the program calls it (`enhanceFFmpegError`, internal/services/converter.go:1325).
  A failed FFmpeg run's error reaches the job unchanged;
- the in-memory job registry: a class holding the job map and a bounded queue of
  progress samples;
- the handler logic: naming the output file, driving a job through its states,
  refusing downloads of unfinished jobs, and parsing `identify -verbose` output.

Modules follow the program's structure:

| module | file | covers |
|---|---|---|
| `Wrappers` | wrappers.dfy | `Option`, `Result` |
| `Strings` | strings.dfy | the parts of Go's `strings`, `strconv`, `path/filepath` and `fmt` used by the service |
| `Models` | models.dfy | job status, media kind, job record |
| `Options` | options.dfy | typed option records |
| `Validation` | validation.dfy | `validate*Options` |
| `Tempo` | tempo.dfy | the two tempo loops |
| `FFmpegArgs` | ffmpeg_args.dfy | argument pieces shared by video and audio |
| `ImageCommand` | image_args.dfy | ImageMagick arguments |
| `VideoCommand`, `VideoCommandProperties` | video_args.dfy, video_props.dfy | FFmpeg video arguments and their properties |
| `AudioCommand`, `AudioCommandProperties` | audio_args.dfy, audio_props.dfy | FFmpeg audio arguments and their properties |
| `ProgressScan` | progress.dfy | the stderr fold and the run outcome |
| `ErrorClassifier` | classifier.dfy | `enhanceFFmpegError`, `diagnoseExitCode8Error` |
| `JobRegistry` | registry.dfy | `JobManager` |
| `Handlers` | handlers.dfy | output naming, `processConversion`, `DownloadFile`, the identify parser |

Each builder is written twice:

- A method appends to its argument or filter list step by step, as the Go code does.
- A specification function assembles the same list from one segment per option
  block.

The method's postcondition says that it returns the specification function's value.
The ordering, counting and if-and-only-if properties are lemmas about the
specification functions.

The registry is a class whose methods update the `jobs` map and the `pending` queue
in place. Each method's postcondition gives the new state as a pure function of the
old one. Lemmas prove what those functions guarantee.

Where the service's own description and its code disagree, the model follows the code.
The following points differ:

- `UpdateJobStatus` has no guard against leaving a terminal state.
  `NoTerminalGuard` shows a Failed job returning to Processing. A repeated terminal
  transition also resets the completion time.
- `UpdateJobProgress` accepts any value. Progress is not kept monotonic.
- The video builder emits one `atempo` stage with the raw speed and does not
  decompose it into stages.
- The "time" stretch mode decomposes only factors above 2. A factor below 0.5 stays
  one stage, outside the range an `atempo` stage accepts.
- The image validator checks `quality` for every output format, although only
  jpg/jpeg use it.

## Model

| member | source | states |
|---|---|---|
| `Models.StatusStringRoundTrip` | internal/models/conversion.go:9-14 | the four status spellings are distinct and each reads back as its status |
| `Models.GetFileType` | internal/models/conversion.go:116-125 | Image, Video, Audio exactly for the prefixes "image/", "video/", "audio/"; Unknown for any other first six characters. It needs at least six characters; Go's slice needs six bytes (see Left out) |
| `Models.GetFileTypeHeadOnly` | internal/models/conversion.go:118-123 | nothing after the sixth character affects the media kind |
| `Validation.ValidateImageOptions` | internal/services/converter.go:226-286 | passes iff width/height are absent or in 1..10000, quality is in 1..100, the format is jpg, jpeg, png, webp or gif, the filter is empty or one of the listed names, and any crop has x,y ≥ 0 and width/height in 1..10000. Otherwise it fails in the order dimensions, quality, format, filter, crop: the dimension and crop failures are those checks' own, and the quality, format and filter failures carry their messages |
| `Validation.CheckDimensions` | internal/services/converter.go:228-239 | passes iff each dimension present lies in 1..max. Otherwise the first failure in the order width ≤ 0, height ≤ 0, width > max, height > max, with its message |
| `Validation.CheckSpeed` | internal/services/converter.go:625-627 | passes iff the speed lies in [0.25, 4.0], otherwise fails with the range message |
| `Validation.CheckTrim` | internal/services/converter.go:642-655 | passes iff no trim is given, or start ≥ 0, end ≥ 0, end > start and end − start ≥ 0.1. Otherwise the first of the four failures in that order, with its message |
| `Validation.CheckImageCrop` | internal/services/converter.go:264-283 | passes iff the crop is absent or has x,y ≥ 0 and width/height in 1..10000. Otherwise the first failure in the order x, y, width, height, width too large, height too large, with its message |
| `Validation.CheckVisualEffects` | internal/services/converter.go:658-688 | passes iff every visual-effect value present lies in its range. Otherwise the first failure in the order brightness, contrast, saturation, hue, gamma, blur, artistic effect, with its message |
| `Validation.CheckTransform` | internal/services/converter.go:690-704 | passes iff the rotation and crop values present are allowed. Otherwise the first failure in the order rotation, crop position, crop size, with its message |
| `Validation.CheckTemporal` | internal/services/converter.go:706-722 | passes iff the frame-rate and stabilisation values present are allowed. Otherwise the first failure in the order frame rate, shakiness, accuracy, with its message |
| `Validation.CheckVideoAdvanced` | internal/services/converter.go:724-742 | passes iff the advanced video values present are allowed. Otherwise the first failure in the order tone mapping, input colour space, output colour space, with its message |
| `Validation.ValidateVideoOptions` | internal/services/converter.go:609-744 | passes iff the dimensions are within 1..4096, the speed is in range, quality and format are known, the trim is sound, and every effect block passes. Otherwise the first failure in the order dimensions, speed, quality, format, trim, visual effects, transform, temporal, advanced; delegated failures are the group check's own |
| `Validation.CheckBasicProcessing` | internal/services/converter.go:1217-1246 | passes iff the basic audio processing values present lie in range. Otherwise the first failure in the order amplify, fade in, fade out, equalizer preset, pan, stereo width, with its message |
| `Validation.CheckTimeBasedEffects` | internal/services/converter.go:1248-1278 | passes iff the reverb, delay and modulation values present lie in range. Otherwise the first failure in the order reverb type, room size, delay type, delay time, feedback, modulation type, with its message |
| `Validation.CheckRestoration` | internal/services/converter.go:1280-1295 | passes iff the restoration values present are allowed. Otherwise the noise-reduction failure before the de-hum failure, with its message |
| `Validation.CheckAudioAdvanced` | internal/services/converter.go:1297-1320 | passes iff the pitch, stretch and spatial values present are allowed. Otherwise the first failure in the order pitch, stretch factor, stretch algorithm, spatial type, with its message |
| `Validation.ValidateAudioOptions` | internal/services/converter.go:1165-1322 | passes iff the speed is in [0.25, 4.0], the volume in [0.1, 2.0], bitrate, sample rate, channel layout and format are known, the trim is sound, and every audio effect block passes. Otherwise the first failure in the order speed, volume, bitrate, sample rate, channels, format, trim, basic, time-based, restoration, advanced; delegated failures are the group check's own |
| `Validation.ImageQualityCheckedForEveryFormat` | internal/services/converter.go:242-244 | a quality of 0 is rejected with its message whatever the output format |
| `Validation.VideoTrimEndBeforeStart` | internal/services/converter.go:649-651 | a trim from 5 s to 3 s is rejected with the end-before-start message |
| `ImageCommand.BuildImageArgs` | internal/services/converter.go:113-200 | the appended arguments equal the specification list `ImageArgs` |
| `ImageCommand.ImageArgsEnds` | internal/services/converter.go:113-200 | the input path is the first token and the output path the last |
| `ImageCommand.CropBeforeResize` | internal/services/converter.go:116-134 | with both a crop and a size, `-crop geometry` comes directly before `-resize geometry` |
| `ImageCommand.ResizeGeometryShape` | internal/services/converter.go:124-132 | the resize geometry is `WxH!` exactly when both sides are set, and starts with `x` exactly when the width is missing |
| `ImageCommand.QualityOnlyForJpeg` | internal/services/converter.go:189-191 | `-quality` appears iff the format is jpg or jpeg |
| `Tempo.SpeedStages` | internal/services/converter.go:1095-1111 | the loop's stages equal `SpeedStagesSpec(speed)`: doublings while above 2, halvings while below 0.5, then a residual stage unless 1 |
| `Tempo.SpeedStagesProduct` | internal/services/converter.go:1095-1111 | the stage factors multiply back to the requested speed |
| `Tempo.SpeedStagesInRange` | internal/services/converter.go:1095-1111 | every stage factor lies in [0.5, 2.0] |
| `Tempo.SpeedStagesShape` | internal/services/converter.go:1098-1108 | doublings come first, then halvings, then at most one residual, and never both doublings and halvings |
| `Tempo.SpeedStagesEmptyIff` | internal/services/converter.go:1095 | there are no stages iff the speed is 1 |
| `Tempo.TimeStretchStages` | internal/services/converter.go:1054-1065 | the loop's stages equal `TimeStretchSpec(factor)` |
| `Tempo.TimeStretchProduct` | internal/services/converter.go:1054-1065 | the stage factors multiply back to the stretch factor |
| `Tempo.TimeStretchSmall` | internal/services/converter.go:1063-1065 | a factor of at most 2 gives a single stage |
| `Tempo.TimeStretchEight` | internal/services/converter.go:1056-1061 | factor 8 gives exactly three doublings |
| `Tempo.TimeStretchThree` | internal/services/converter.go:1056-1061 | factor 3 gives one doubling and then a stage of 1.5 |
| `Tempo.TimeStretchThreeTokens` | internal/services/converter.go:1056-1061 | factor 3 gives `atempo=2.0` then `atempo=1.50` |
| `VideoCommand.BuildVideoArgs` | internal/services/converter.go:311-602 | the appended arguments equal the specification list `VideoArgs` |
| `VideoCommand.CollectVideoFilters` | internal/services/converter.go:332-558 | the appended filters equal `VideoFilters`: scale, visual effects, transform, temporal, then the speed filter |
| `VideoCommand.CollectVisualEffects` | internal/services/converter.go:350-490 | the appended visual filters equal `VisualFilters` |
| `VideoCommand.CollectTransform` | internal/services/converter.go:493-525 | the appended transform filters equal `TransformFilters` |
| `VideoCommand.CollectTemporal` | internal/services/converter.go:530-551 | the appended temporal filters equal `TemporalFilters` |
| `VideoCommand.CollectBasicColorTerms` | internal/services/converter.go:356-387 | the `eq` terms for brightness, contrast, saturation, gamma and hue, in that order |
| `VideoCommand.AppendAdvancedColorTerms` | internal/services/converter.go:390-409 | the exposure, shadows and highlights terms appended after them |
| `VideoCommand.Gain` | internal/services/converter.go:364-367 | a contrast, saturation or exposure gain is 1 + v/100 when that is at least the floor, and the floor otherwise |
| `VideoCommandProperties.ArgsEnds` | internal/services/converter.go:311-602 | the arguments start with `-i input` and end with `-y output` |
| `VideoCommandProperties.TrimFollowsInput` | internal/services/converter.go:314-320 | with a trim, `-ss start -t duration` directly follows the input |
| `VideoCommandProperties.ScaleFirst` | internal/services/converter.go:332-346 | with a width or height, the filter chain begins with the `scale=` term |
| `VideoCommandProperties.VideoFlagsOnce` | internal/services/converter.go:562-578 | `-vf` appears once iff there are filters, and `-af` once iff the speed is not 1 |
| `VideoCommandProperties.SingleVf` | internal/services/converter.go:562-566 | at most one `-vf`, present iff the filter list is non-empty |
| `VideoCommandProperties.SingleAf` | internal/services/converter.go:574-578 | at most one `-af`, present iff the speed is not 1 |
| `VideoCommandProperties.VfBeforeAf` | internal/services/converter.go:562-578 | `-vf chain` comes directly before `-af atempo=<speed>` |
| `VideoCommandProperties.CrfBeforeCodecs` | internal/services/converter.go:581-592 | right after the filter and tempo flags come `-crf 30` for low, `-crf 23` for medium, `-crf 18` for high, and for any other quality the default codec flags directly |
| `VideoCommandProperties.CrfIffPreset` | internal/services/converter.go:581-589 | `-crf` appears iff the quality is low, medium or high |
| `VideoCommandProperties.EqPresentIff` | internal/services/converter.go:352-416 | one `eq` filter iff some colour adjustment differs from its neutral value |
| `VideoCommandProperties.SpeedNeedsChain` | internal/services/converter.go:555-558 | a speed other than 1 always gives a non-empty chain |
| `VideoCommandProperties.ChainStartsLower` | internal/services/converter.go:562-564 | the joined `-vf` chain starts with a lower-case letter |
| `VideoCommandProperties.VideoFiltersStartLower` | internal/services/converter.go:332-558 | every filter starts with a lower-case letter, so none can be mistaken for a flag |
| `AudioCommand.BuildAudioArgs` | internal/services/converter.go:769-1158 | the appended arguments equal the specification list `AudioArgs` |
| `AudioCommand.CollectAudioFilters` | internal/services/converter.go:790-1111 | the appended filters equal `AudioFilters`: volume, basic, time-based, restoration, advanced, then the speed stages |
| `AudioCommand.CollectBasicProcessing` | internal/services/converter.go:797-884 | the appended basic-processing filters equal `BasicFilters` |
| `AudioCommand.CollectStereo` | internal/services/converter.go:853-883 | the appended stereo filters equal `StereoFilters` |
| `AudioCommand.CollectTimeBasedEffects` | internal/services/converter.go:892-955 | the appended reverb, delay and modulation filters equal `TimeBasedFilters` |
| `AudioCommand.CollectRestoration` | internal/services/converter.go:964-1027 | the appended restoration filters equal `RestorationFilters` |
| `AudioCommand.CollectAdvanced` | internal/services/converter.go:1030-1091 | the appended pitch, stretch and spatial filters equal `AdvancedFilters` |
| `AudioCommandProperties.AudioArgsEnds` | internal/services/converter.go:769-1158 | the arguments start with `-i input` and end with `-y output` |
| `AudioCommandProperties.AudioTrimFollowsInput` | internal/services/converter.go:772-779 | with a trim, `-ss start -t duration` directly follows the input |
| `AudioCommandProperties.AudioAfOnce` | internal/services/converter.go:1114-1118 | `-af` appears once iff there are filters, hence once whenever the speed is not 1 |
| `AudioCommandProperties.SingleAudioAf` | internal/services/converter.go:1114-1118 | at most one `-af`, present iff the filter list is non-empty |
| `AudioCommandProperties.VolumeFirst` | internal/services/converter.go:790-794 | a volume other than 1 is the first filter |
| `AudioCommandProperties.SpeedStagesLast` | internal/services/converter.go:1095-1111 | the speed stages close the chain and multiply to the speed |
| `AudioCommandProperties.TimeStretchTokens` | internal/services/converter.go:1052-1065 | the "time" mode emits the stretch stages, which multiply to the factor |
| `AudioCommandProperties.BitrateIffLossy` | internal/services/converter.go:1154-1156 | `-b:a` appears iff the format is not wav, flac or alac |
| `AudioCommandProperties.CodecIffKnown` | internal/services/converter.go:1121-1136 | `-c:a` appears iff the format is one of the seven with a codec |
| `AudioCommandProperties.ChannelsIffKnown` | internal/services/converter.go:1142-1151 | `-ac` appears iff the channel layout is mono, stereo, 5.1 or 7.1 |
| `AudioCommandProperties.EqualizerPresetKnown` | internal/services/converter.go:830-850 | an equalizer filter exists iff the preset is one of the six named |
| `AudioCommandProperties.ReverbPresetKnown` | internal/services/converter.go:896-912 | a reverb filter exists iff the type is room, hall, plate or spring |
| `AudioCommandProperties.ModulationKnown` | internal/services/converter.go:936-955 | a modulation filter exists iff the type is chorus, flanger, tremolo or vibrato; phaser gives none |
| `AudioCommandProperties.DeHumKnown` | internal/services/converter.go:989-1008 | a de-hum filter exists iff it is enabled with 50hz, 60hz or auto |
| `AudioCommandProperties.DeHumAuto` | internal/services/converter.go:993-998 | auto filters at 60 Hz |
| `AudioCommandProperties.MultiTapMissingOperand` | internal/services/converter.go:922-924 | the multi-tap delay format string has one verb more than operands, so its last field is Go's missing-operand marker |
| `AudioCommandProperties.AudioFiltersStartLower` | internal/services/converter.go:790-1111 | every audio filter starts with a lower-case letter |
| `ProgressScan.RunFFmpegWithProgress` | internal/services/converter.go:1417-1485 | the loop's samples are `Scan(lines).samples`; the error is the start failure, or the wait error with the captured stderr appended when there is any |
| `ProgressScan.RunImageMagickWithProgress` | internal/services/converter.go:1487-1521 | the error is the start failure, or the wait error with the captured stderr appended when there is any |
| `ProgressScan.Percent` | internal/services/converter.go:1463-1466 | the truncated percentage, capped at 100, lies in 0..100; it is 100 iff the current time has reached the total |
| `ProgressScan.FindClockFrom` | internal/services/converter.go:1435-1436 | the leftmost `tag hh:mm:ss.cc` match at or after a position |
| `ProgressScan.SamplesInRange` | internal/services/converter.go:1456-1470 | every emitted progress lies in 0..100 |
| `ProgressScan.SamplesPerLine` | internal/services/converter.go:1440-1471 | at most one progress sample per line |
| `ProgressScan.NoDurationNoSamples` | internal/services/converter.go:1456 | without a positive `Duration:` line, no progress is emitted |
| `ProgressScan.ScanExtends` | internal/services/converter.go:1440-1471 | more lines only append samples |
| `ProgressScan.LaterDurationReplaces` | internal/services/converter.go:1447-1453 | once a later stretch of lines holds a `Duration:` line, the earlier lines no longer affect the total |
| `ProgressScan.DurationLineClock` | internal/services/converter.go:1447-1452 | `Duration: 00:01:40.00` reads as 10000 centiseconds |
| `ProgressScan.HalfwayExample` | internal/services/converter.go:1440-1471 | a 100 s duration and then `time=00:00:50.00` emit 50 |
| `ProgressScan.TimeBeforeDurationExample` | internal/services/converter.go:1456 | a `time=` line before any duration emits nothing |
| `ErrorClassifier.ExitCode` | internal/services/converter.go:1328-1332 | the code is 0 unless the text starts with `exit status `; a non-zero code means a digit follows that prefix. `ExitCodeRoundTrip` shows that the number read is the number written |
| `ErrorClassifier.EnhanceFFmpegError` | internal/services/converter.go:1325-1360 | an exit status of 8 gives exactly the code-8 diagnosis, and an exit status of 1 gives the general-error message that opens with the original error text. `ExitCodeFirst`, `FirstPhraseWins`, `ExitEightDiagnosed` and `CommandEchoed` state the rest of the dispatch |
| `ErrorClassifier.ExitCodeRoundTrip` | internal/services/converter.go:1328-1332 | `exit status <n>` followed by a non-digit reads back as n |
| `ErrorClassifier.ExitCodeFirst` | internal/services/converter.go:1335-1339 | exit code 1 gives the general error and exit code 8 the diagnosis, whatever the text |
| `ErrorClassifier.FirstPhraseWins` | internal/services/converter.go:1340-1358 | any other code takes the first match among the five phrases, in order, else the generic message |
| `ErrorClassifier.ExitEightDiagnosed` | internal/services/converter.go:1338-1339 | an `exit status 8` failure is explained by the code-8 diagnosis |
| `ErrorClassifier.CommandEchoed` | internal/services/converter.go:1335-1412 | the general, diagnosed and generic messages end with the command line |
| `ErrorClassifier.DiagnoseExitCode8Error` | internal/services/converter.go:1362-1413 | the diagnosis equals `ExitCode8Message`: the causes in checking order, joined by "; ", or the fallback text |
| `ErrorClassifier.CollectSuggestions` | internal/services/converter.go:1366-1404 | the causes found equal `Suggestions`: an inaccessible input, an unwritable output directory, the scale and blur causes of each argument in order, and the same-extension cause, in that order |
| `ErrorClassifier.AppendArgChecks` | internal/services/converter.go:1389-1396 | the per-argument loop appends the scale and blur causes for each argument in order |
| `ErrorClassifier.ProbesFirst` | internal/services/converter.go:1367-1386 | an unreadable input is listed first, then an unwritable output directory |
| `ErrorClassifier.NoCauseFallback` | internal/services/converter.go:1406-1412 | with no cause found, the generic explanation is used, and both probes succeeded |
| `ErrorClassifier.ArgSuggestionsBound` | internal/services/converter.go:1389-1396 | each argument adds at most two causes |
| `ErrorClassifier.ScaleHeuristicFalsePositive` | internal/services/converter.go:1390 | the ordinary `scale=1280:720` is reported as a zero dimension |
| `ErrorClassifier.SameFormatIgnoresCase` | internal/services/converter.go:1399-1404 | extensions are compared after folding ASCII upper case to lower case, and the same-format cause is listed last |
| `JobRegistry.JobManager.constructor` | internal/services/job_manager.go:19-29 | a new registry holds no jobs and no queued samples |
| `JobRegistry.JobManager.CreateJob` | internal/services/job_manager.go:31-46 | adds one pending job with progress 0 and no completion time under the fresh id; nothing else changes |
| `JobRegistry.NewJob` | internal/services/job_manager.go:35-42 | a new job is pending with progress 0, no completion time and the given file and options |
| `JobRegistry.JobManager.GetJob` | internal/services/job_manager.go:48-68 | the stored record iff the id is present, otherwise "job not found"; nothing changes |
| `JobRegistry.JobManager.UpdateJobStatus` | internal/services/job_manager.go:70-93 | unknown id gives an error and no change; otherwise the job becomes `WithStatus(job, status, now)` |
| `JobRegistry.WithStatus` | internal/services/job_manager.go:81-89 | sets the status; Completed or Failed also set the completion time; Completed forces progress to 100; nothing else changes |
| `JobRegistry.JobManager.UpdateJobProgress` | internal/services/job_manager.go:95-115 | unknown id gives an error; a finished job is left alone without an error; otherwise the progress is set |
| `JobRegistry.WithProgress` | internal/services/job_manager.go:106-112 | a Completed or Failed job is unchanged; otherwise only the progress changes |
| `JobRegistry.JobManager.UpdateJobResult` | internal/services/job_manager.go:117-128 | unknown id gives an error; otherwise only the result URL changes |
| `JobRegistry.JobManager.UpdateJobError` | internal/services/job_manager.go:130-144 | unknown id gives an error; otherwise the job becomes `WithError(job, msg, now)` |
| `JobRegistry.WithError` | internal/services/job_manager.go:139-142 | sets the error, status Failed and the completion time together; nothing else changes |
| `JobRegistry.JobManager.SendProgressUpdate` | internal/services/job_manager.go:146-155 | queues the sample iff fewer than 100 are waiting, otherwise drops it; never changes the jobs |
| `JobRegistry.JobManager.DrainOne` | internal/services/job_manager.go:159-162 | takes the oldest sample and applies it as a progress update |
| `JobRegistry.JobManager.DrainAll` | internal/services/job_manager.go:157-163 | empties the queue, applying the samples oldest first |
| `JobRegistry.ApplySample` | internal/services/job_manager.go:161 | a sample changes at most its own job, and only through `WithProgress` |
| `JobRegistry.NewestSampleWins` | internal/services/job_manager.go:157-163 | after a drain, a running job has the progress of the newest sample for it, or its old progress if none |
| `JobRegistry.ApplySamplesOnlyProgress` | internal/services/job_manager.go:106-112 | draining changes only progress, and never a finished job |
| `JobRegistry.ApplySamplesKeys` | internal/services/job_manager.go:157-163 | draining neither adds nor removes jobs |
| `JobRegistry.CompletedIgnoresProgress` | internal/services/job_manager.go:106-110 | a completed job stays at 100% whatever samples arrive |
| `JobRegistry.NoTerminalGuard` | internal/services/job_manager.go:81 | a failed job can be set back to Processing and keeps its old completion time |
| `JobRegistry.JobManager.CleanupOldJobs` | internal/services/job_manager.go:166-176 | the jobs left are exactly those not finished before `now - maxAge` |
| `JobRegistry.Survivors` | internal/services/job_manager.go:170-175 | a job survives iff it has no completion time or one not before the cutoff |
| `JobRegistry.CleanupKeepsUnfinished` | internal/services/job_manager.go:172 | unfinished jobs are always kept, and a job is removed iff it expired |
| `JobRegistry.CleanupIdempotent` | internal/services/job_manager.go:166-176 | a second cleanup with the same cutoff removes nothing |
| `Handlers.GetOutputExtension` | internal/handlers/conversion.go:266-288 | "." + the string `format` option for a known media kind, else .jpg, .mp4 or .mp3 by kind; .bin for an unknown kind |
| `Handlers.GetOutputFilename` | internal/handlers/conversion.go:290-297 | the name ends with `_converted` and the output extension, and what precedes that, followed by the original name's extension (`Strings.Ext`), is the original name. `OutputFilenameReplacesExtension` and `OutputFilenameNoExtension` give the two shapes |
| `Handlers.OutputFilenameReplacesExtension` | internal/handlers/conversion.go:290-297 | `stem.ext` downloads as `stem_converted` + the output extension |
| `Handlers.OutputFilenameNoExtension` | internal/handlers/conversion.go:290-297 | a name without a dot keeps all of it before `_converted` |
| `Handlers.ProcessConversion` | internal/handlers/conversion.go:204-245 | unknown job: stop with no change; otherwise the job ends as `ConversionOutcome`, and the conversion was given the output path |
| `Handlers.ConversionOutcomeStates` | internal/handlers/conversion.go:220-239 | success ends Completed at 100% with the download URL set; failure ends Failed with the error and no URL |
| `Handlers.DownloadableIffConverted` | internal/handlers/conversion.go:220-239 | the job ends Completed iff the conversion succeeded |
| `Handlers.SamePathBothWays` | internal/handlers/conversion.go:187-215 | the path the conversion writes is the path the download reads |
| `Handlers.DownloadFile` | internal/handlers/conversion.go:167-202 | refuses an empty id, an unknown job, a job that is not Completed and a missing file, each with its status and message; otherwise serves the output path under the download name |
| `Handlers.ParseIdentifyOutput` | internal/handlers/conversion.go:308-326 | the loop's map equals `IdentifyDetails` of the output split at newlines |
| `Handlers.ParseIdentifyLine` | internal/handlers/conversion.go:313-325 | a line gives a pair iff its trimmed text is non-empty and holds a colon |
| `Handlers.KeyHasNoColon` | internal/handlers/conversion.go:319-321 | the key is cut at the first colon, so it holds none |
| `Handlers.ParseIdentifyLineRoundTrip` | internal/handlers/conversion.go:313-325 | `key:value` with trimmed sides and a colon-free key reads back as that pair; colons in the value are kept |
| `Handlers.KeysHaveNoColon` | internal/handlers/conversion.go:319-323 | no key of the parsed map holds a colon |
| `Handlers.DescribedIffGiven` | internal/handlers/conversion.go:312-326 | a key is in the map iff some line gives it |
| `Handlers.LastLineWins` | internal/handlers/conversion.go:323 | a later line for the same key overwrites an earlier one |
| `Strings.NatToStringRoundTrip` | internal/services/converter.go:1331 | decimal rendering and reading are inverse, as the exit-code scan relies on |
| `Strings.JoinSplit` | internal/handlers/conversion.go:309 | joining the newline-split output gives it back |
| `Strings.SplitJoin` | internal/handlers/conversion.go:309 | splitting the newline-joined lines gives them back when none holds a newline |
| `Strings.Ext` | internal/services/converter.go:1399-1400 | the extension is a suffix of the path that is empty or a dot followed by no dot or separator. It is empty only when the last path element holds no dot; with `ExtOf`, this pins the value |

## Left out

- Running the encoders is not modelled. Process start, pipes, `cmd.Wait` and the probes of `identify*File` are inputs: the stderr lines, a start error and a wait error.
- The stderr-pipe creation error of both runners is not modelled.
- The file-system checks are booleans: `validateInputFile`, `os.MkdirAll`, the input `os.Stat`, the output-directory write probe and the download's existence check.
- `ConvertFile`'s dispatch by media kind is not modelled. `ProcessConversion` takes the conversion's error, if any, as input.
- Concurrency is not modelled: the mutex, the progress goroutine and `go processConversion`. The registry is used by one caller at a time. `DrainOne` is one step of the goroutine's loop.
- `uuid.New()` and `time.Now()` are not modelled. The caller supplies a fresh id and a clock reading `now`. One reading serves all updates of one `processConversion`: only the last update records a time.
- The registry stores job values rather than shared references, so aliasing between a caller's job and the stored one is not modelled. `processConversion` reads only fields that the registry never changes.
- JSON decoding of the options map into typed records is not modelled. The model starts from typed options. The map keeps only whether `format` is a string.
- Floating point is modelled as exact reals. `%.2f` and `%.4f` round the exact value half to even, where Go rounds the binary double.
- ProgressScan.Percent: computed exactly on integer centiseconds. The binary rounding of `int((current/total)*100)` is not modelled.
- The fixed progress samples the converters queue around each build step (10 to 100 percent) are not modelled. Neither is the output-directory creation before a build. The registry's `SendProgressUpdate` is modelled on its own.
- `math.Pow` in the pitch ratio is not modelled. The ratio is a parameter of the audio builder.
- ErrorClassifier.ExitCode: `fmt.Sscanf("exit status %d")` is modelled as the exact prefix `exit status ` followed by decimal digits. A sign or extra spaces are not accepted.
- Tempo.SpeedStages and AudioCommand.BuildAudioArgs: require a speed above 0. For a speed of 0 or below, the Go halving loop never ends. The validator rejects such speeds first.
- VideoCommand.BuildVideoArgs: requires a non-zero speed, because the `setpts` term divides by it. The validator rejects such speeds first.
- Handlers.GetOutputExtension, Handlers.ProcessConversion and Handlers.DownloadFile: require a MIME type of at least six characters, as `GetFileType` does. Go panics on shorter ones.
- Models.GetFileType: lengths count characters, but Go's `mimeType[:6]` counts UTF-8 bytes. A MIME type of fewer than six characters but at least six bytes, such as "ééé", is Unknown in Go and outside the model's precondition.
- Strings.ToLower: folds the ASCII letters only, while Go's `strings.ToLower` folds all of Unicode. `FormatSuggestion` and `SameFormatIgnoresCase` therefore treat extensions that differ only in non-ASCII case as different.
- Handlers.ProcessConversion: the removal of the uploaded input file after a conversion (`os.Remove(inputPath)`) is not modelled. The file system is not part of the state.
- `filepath.Join("outputs", …)` is modelled as plain concatenation with `/`. Path cleaning is not modelled. Job ids are UUIDs with no separators or dots.
- `[DEBUG]` printing, the HTTP router, CORS, the configuration lookup, multipart parsing and `saveUploadedFile` are not modelled. They are wiring with no logic to state.
