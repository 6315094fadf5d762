/** Reading progress from the encoder's diagnostic output. Each line is searched for a
    `Duration: HH:MM:SS.CC` stamp, which sets the total length, and then for a
    `time=HH:MM:SS.CC` stamp, which, once a positive total is known, yields a
    progress percentage truncated to an integer and capped at 100. Timestamps are
    counted in centiseconds, so the percentage is computed on exact integers. The
    lines are also collected, newline-terminated, for the error message. */
module ProgressScan {
  import opened Wrappers
  import opened Strings

  const DurationTag := "Duration: "
  const TimeTag := "time="

  // ---------------------------------------------------------------------------
  // Timestamps

  /** Two ASCII digits at `j`. */
  predicate DigitPair(s: string, j: int) {
    0 <= j && j + 2 <= |s| && IsDigit(s[j]) && IsDigit(s[j + 1])
  }

  function PairValue(s: string, j: int): (r: nat)
    requires DigitPair(s, j)
    ensures r < 100
  {
    10 * DigitValue(s[j]) + DigitValue(s[j + 1])
  }

  /** `HH:MM:SS.CC` at `j`. */
  predicate ClockDigitsAt(s: string, j: int) {
    DigitPair(s, j) && DigitPair(s, j + 3) && DigitPair(s, j + 6) && DigitPair(s, j + 9)
    && s[j + 2] == ':' && s[j + 5] == ':' && s[j + 8] == '.'
  }

  /** h*3600 + m*60 + s + cs/100 seconds, in centiseconds. */
  function Centiseconds(s: string, j: int): nat
    requires ClockDigitsAt(s, j)
  {
    PairValue(s, j) * 360000 + PairValue(s, j + 3) * 6000 + PairValue(s, j + 6) * 100
    + PairValue(s, j + 9)
  }

  /** A stamp `tag` followed by a clock starts at `i`. */
  predicate ClockAt(s: string, tag: string, i: int) {
    0 <= i && i + |tag| <= |s| && s[i..i + |tag|] == tag && ClockDigitsAt(s, i + |tag|)
  }

  /** The leftmost start, at `i` or later, of a stamp. */
  function FindClockFrom(s: string, tag: string, i: nat): (r: Option<nat>)
    decreases |s| - i
    ensures r.Some? ==> i <= r.value && ClockAt(s, tag, r.value)
    ensures r.Some? ==> forall m :: i <= m < r.value ==> !ClockAt(s, tag, m)
    ensures r.None? ==> forall m :: i <= m ==> !ClockAt(s, tag, m)
  {
    if i + |tag| + 11 > |s| then None
    else if ClockAt(s, tag, i) then Some(i)
    else FindClockFrom(s, tag, i + 1)
  }

  /** The time of the leftmost stamp of a line, if it has one. */
  function FindClock(s: string, tag: string): Option<nat> {
    match FindClockFrom(s, tag, 0)
    case Some(i) => Some(Centiseconds(s, i + |tag|))
    case None => None
  }

  /** A stamp with none before it is the one found. */
  lemma ClockFound(s: string, tag: string, k: nat)
    requires ClockAt(s, tag, k) && forall m :: 0 <= m < k ==> !ClockAt(s, tag, m)
    ensures FindClock(s, tag) == Some(Centiseconds(s, k + |tag|))
  {
    var r := FindClockFrom(s, tag, 0);
    assert r.Some?;
    assert r.value == k;
  }

  // ---------------------------------------------------------------------------
  // The fold

  /** The progress percentage: the elapsed share truncated to an integer, capped
      at 100. */
  function Percent(current: nat, total: nat): (r: int)
    requires total > 0
    ensures 0 <= r <= 100
    ensures r == 100 <==> current >= total
    ensures r < 100 ==> r * total <= current * 100 < (r + 1) * total
  {
    var p := current * 100 / total;
    if p > 100 then 100 else p
  }

  /** The known total (0 while none has been read) and the samples emitted so far. */
  datatype ScanState = ScanState(total: nat, samples: seq<int>)

  /** One line: a duration stamp replaces the total; then a time stamp emits a sample
      if the total is positive. */
  function ScanLine(st: ScanState, line: string): ScanState {
    var total := match FindClock(line, DurationTag) case Some(d) => d case None => st.total;
    match FindClock(line, TimeTag)
    case Some(t) => if total > 0 then ScanState(total, st.samples + [Percent(t, total)])
                    else ScanState(total, st.samples)
    case None => ScanState(total, st.samples)
  }

  /** The state after all the lines, read in order. */
  function Scan(lines: seq<string>): ScanState {
    if |lines| == 0 then ScanState(0, []) else ScanLine(Scan(lines[..|lines| - 1]), lines[|lines| - 1])
  }

  /** Every line, newline-terminated, in order. */
  function StderrText(lines: seq<string>): string {
    if |lines| == 0 then "" else StderrText(lines[..|lines| - 1]) + lines[|lines| - 1] + "\n"
  }

  const FFmpegStderrLabel := ". FFmpeg stderr: "
  const ImageMagickStderrLabel := ". ImageMagick stderr: "

  /** The outcome once the process has ended: no error, or its exit error followed by
      the tool's label and what the tool wrote, if it wrote anything. */
  function WaitOutcome(waitError: Option<string>, stderrLabel: string, stderr: string): Option<string> {
    match waitError
    case None => None
    case Some(e) => if stderr != "" then Some(e + stderrLabel + stderr) else Some(e)
  }

  // ---------------------------------------------------------------------------
  // The runners

  /** One pass of the reading loop: a duration stamp replaces the total, then a time
      stamp queues a sample once the total is known. */
  method ReadProgressLine(totalDuration: nat, samples: seq<int>, line: string)
    returns (total: nat, emitted: seq<int>)
    ensures ScanState(total, emitted) == ScanLine(ScanState(totalDuration, samples), line)
  {
    total, emitted := totalDuration, samples;
    var duration := FindClock(line, DurationTag);
    if duration.Some? {
      total := duration.value;
    }
    var current := FindClock(line, TimeTag);
    if current.Some? && total > 0 {
      var progress := current.value * 100 / total;
      if progress > 100 {
        progress := 100;
      }
      assert progress == Percent(current.value, total);
      emitted := emitted + [progress];
    }
  }

  /** Runs the encoder over its diagnostic lines: the samples it emits, in order, and
      the error it returns. Starting the process and waiting for it are the two
      given outcomes. */
  method RunFFmpegWithProgress(lines: seq<string>, startError: Option<string>,
                               waitError: Option<string>)
    returns (samples: seq<int>, err: Option<string>)
    ensures startError.Some? ==> samples == [] && err == Some("failed to start FFmpeg: " + startError.value)
    ensures startError.None? ==> samples == Scan(lines).samples
    ensures startError.None? ==> err == WaitOutcome(waitError, FFmpegStderrLabel, StderrText(lines))
  {
    if startError.Some? {
      return [], Some("failed to start FFmpeg: " + startError.value);
    }
    var stderrBuf := "";
    var totalDuration: nat := 0;
    samples := [];
    var i := 0;
    while i < |lines|
      invariant 0 <= i <= |lines|
      invariant ScanState(totalDuration, samples) == Scan(lines[..i])
      invariant stderrBuf == StderrText(lines[..i])
    {
      var line := lines[i];
      assert lines[..i + 1][..i] == lines[..i];
      stderrBuf := stderrBuf + line + "\n";
      totalDuration, samples := ReadProgressLine(totalDuration, samples, line);
      assert Scan(lines[..i + 1]) == ScanLine(Scan(lines[..i]), line);
      assert StderrText(lines[..i + 1]) == StderrText(lines[..i]) + line + "\n";
      i := i + 1;
    }
    assert lines[..|lines|] == lines;
    if waitError.Some? {
      if stderrBuf != "" {
        return samples, Some(waitError.value + FFmpegStderrLabel + stderrBuf);
      }
      return samples, waitError;
    }
    err := None;
  }

  /** The image tool's runner only collects its diagnostic lines for the error. */
  method RunImageMagickWithProgress(lines: seq<string>, startError: Option<string>,
                                    waitError: Option<string>)
    returns (err: Option<string>)
    ensures startError.Some? ==> err == Some("failed to start ImageMagick: " + startError.value)
    ensures startError.None? ==> err == WaitOutcome(waitError, ImageMagickStderrLabel, StderrText(lines))
  {
    if startError.Some? {
      return Some("failed to start ImageMagick: " + startError.value);
    }
    var stderrBuf := "";
    var i := 0;
    while i < |lines|
      invariant 0 <= i <= |lines|
      invariant stderrBuf == StderrText(lines[..i])
    {
      assert lines[..i + 1][..i] == lines[..i];
      stderrBuf := stderrBuf + lines[i] + "\n";
      i := i + 1;
    }
    assert lines[..|lines|] == lines;
    if waitError.Some? {
      if stderrBuf != "" {
        return Some(waitError.value + ImageMagickStderrLabel + stderrBuf);
      }
      return waitError;
    }
    err := None;
  }

  // ---------------------------------------------------------------------------
  // Properties

  /** Every sample is a percentage. */
  lemma {:induction false} SamplesInRange(lines: seq<string>)
    ensures forall k :: 0 <= k < |Scan(lines).samples| ==> 0 <= Scan(lines).samples[k] <= 100
  {
    if |lines| > 0 {
      SamplesInRange(lines[..|lines| - 1]);
    }
  }

  /** At most one sample per line. */
  lemma {:induction false} SamplesPerLine(lines: seq<string>)
    ensures |Scan(lines).samples| <= |lines|
  {
    if |lines| > 0 {
      SamplesPerLine(lines[..|lines| - 1]);
    }
  }

  /** Until a positive duration has been read, time stamps are ignored. */
  lemma {:induction false} NoDurationNoSamples(lines: seq<string>)
    requires forall k :: 0 <= k < |lines| ==>
      FindClock(lines[k], DurationTag) == None || FindClock(lines[k], DurationTag) == Some(0)
    ensures Scan(lines) == ScanState(0, [])
  {
    if |lines| > 0 {
      var init := lines[..|lines| - 1];
      assert forall k :: 0 <= k < |init| ==> init[k] == lines[k];
      NoDurationNoSamples(init);
    }
  }

  /** Reading more lines only appends samples. */
  lemma {:induction false} ScanExtends(a: seq<string>, b: seq<string>)
    ensures var before := Scan(a).samples; var after := Scan(a + b).samples;
      |before| <= |after| && after[..|before|] == before
    decreases |b|
  {
    if |b| == 0 {
      assert a + b == a;
    } else {
      var b' := b[..|b| - 1];
      assert (a + b)[..|a + b| - 1] == a + b';
      ScanExtends(a, b');
    }
  }

  /** Once a later line carries a duration, what came before no longer matters to the
      total: a later duration replaces the earlier one. */
  lemma {:induction false} LaterDurationReplaces(a: seq<string>, b: seq<string>, k: nat)
    requires k < |b| && FindClock(b[k], DurationTag).Some?
    ensures Scan(a + b).total == Scan(b).total
    decreases |b|
  {
    var b' := b[..|b| - 1];
    assert (a + b)[..|a + b| - 1] == a + b';
    assert (a + b)[|a + b| - 1] == b[|b| - 1];
    if k < |b| - 1 {
      assert b'[k] == b[k];
      LaterDurationReplaces(a, b', k);
    }
  }

  /** The duration line of the examples holds no time stamp. */
  lemma NoTimeInDurationLine()
    ensures FindClock("Duration: 00:01:40.00", TimeTag) == None
  {
    var d := "Duration: 00:01:40.00";
    assert FindClockFrom(d, TimeTag, 6) == None;
    assert !ClockAt(d, TimeTag, 5) && FindClockFrom(d, TimeTag, 5) == None;
    assert !ClockAt(d, TimeTag, 4) && FindClockFrom(d, TimeTag, 4) == None;
    assert !ClockAt(d, TimeTag, 3) && FindClockFrom(d, TimeTag, 3) == None;
    assert !ClockAt(d, TimeTag, 2) && FindClockFrom(d, TimeTag, 2) == None;
    assert !ClockAt(d, TimeTag, 1) && FindClockFrom(d, TimeTag, 1) == None;
    assert !ClockAt(d, TimeTag, 0);
  }

  /** The duration line of the examples reads as 100 seconds. */
  lemma DurationLineClock()
    ensures FindClock("Duration: 00:01:40.00", DurationTag) == Some(10000)
  {
    var d := "Duration: 00:01:40.00";
    assert d[..10] == DurationTag;
    assert ClockDigitsAt(d, 10);
    ClockFound(d, DurationTag, 0);
    assert PairValue(d, 13) == 1 && PairValue(d, 16) == 40;
  }

  /** The time line of the examples reads as 50 seconds and has no duration. */
  lemma TimeLineClock()
    ensures FindClock("time=00:00:50.00", TimeTag) == Some(5000)
    ensures FindClock("time=00:00:50.00", DurationTag) == None
  {
    var t := "time=00:00:50.00";
    assert t[..5] == TimeTag;
    assert ClockDigitsAt(t, 5);
    ClockFound(t, TimeTag, 0);
    assert PairValue(t, 11) == 50;
    assert FindClockFrom(t, DurationTag, 0) == None;
  }

  /** A 100-second input at its halfway mark reports 50%. */
  lemma HalfwayExample()
    ensures Scan(["Duration: 00:01:40.00", "time=00:00:50.00"]).samples == [50]
  {
    var d := "Duration: 00:01:40.00";
    var t := "time=00:00:50.00";
    DurationLineClock();
    NoTimeInDurationLine();
    TimeLineClock();
    var lines := [d, t];
    assert lines[..1] == [d];
    assert [d][..0] == [];
    assert Scan([d]) == ScanState(10000, []);
    assert Percent(5000, 10000) == 50;
  }

  /** ... while the same time stamp before the duration is ignored. */
  lemma TimeBeforeDurationExample()
    ensures Scan(["time=00:00:50.00", "Duration: 00:01:40.00"]).samples == []
  {
    var d := "Duration: 00:01:40.00";
    var t := "time=00:00:50.00";
    DurationLineClock();
    NoTimeInDurationLine();
    TimeLineClock();
    var lines := [t, d];
    assert lines[..1] == [t];
    assert [t][..0] == [];
    assert Scan([t]) == ScanState(0, []);
  }
}
