/** The parts of the HTTP handlers with logic of their own: naming the converted file,
    driving a job through the registry while it is converted, refusing downloads of
    unfinished jobs, and reading the key/value lines of an image description. The
    conversion itself and the file-system checks are given as inputs. */
module Handlers {
  import opened Wrappers
  import opened Strings
  import opened Models
  import opened JobRegistry

  // ---------------------------------------------------------------------------
  // Output naming

  /** The `format` option, when the client sent it as a string. */
  function FormatOption(options: map<string, OptionValue>): Option<string> {
    if "format" in options && options["format"].Str? then Some(options["format"].s) else None
  }

  function DefaultExtension(t: FileType): string {
    match t
    case Image => ".jpg"
    case Video => ".mp4"
    case Audio => ".mp3"
    case Unknown => ".bin"
  }

  /** The converted file's extension: the requested format for a known media kind,
      else the kind's default. The media kind is read from the MIME type, which must
      therefore have at least six characters. */
  function GetOutputExtension(job: ConversionJob): (ext: string)
    requires |job.originalFile.mimeType| >= 6
    ensures GetFileType(job.originalFile.mimeType) == Unknown ==> ext == ".bin"
    ensures GetFileType(job.originalFile.mimeType) != Unknown ==>
      ext == (if FormatOption(job.options).Some? then "." + FormatOption(job.options).value
              else DefaultExtension(GetFileType(job.originalFile.mimeType)))
  {
    match GetFileType(job.originalFile.mimeType)
    case Image => if FormatOption(job.options).Some? then "." + FormatOption(job.options).value else ".jpg"
    case Video => if FormatOption(job.options).Some? then "." + FormatOption(job.options).value else ".mp4"
    case Audio => if FormatOption(job.options).Some? then "." + FormatOption(job.options).value else ".mp3"
    case Unknown => ".bin"
  }

  /** The download name: the original name without its last extension, then
      `_converted` and the output extension. */
  function GetOutputFilename(job: ConversionJob): (r: string)
    requires |job.originalFile.mimeType| >= 6
    ensures var tail := "_converted" + GetOutputExtension(job);
      |r| >= |tail| && r[|r| - |tail|..] == tail
      && r[..|r| - |tail|] + Ext(job.originalFile.name) == job.originalFile.name
  {
    var name := job.originalFile.name;
    var stem := TrimSuffix(name, Ext(name));
    var tail := "_converted" + GetOutputExtension(job);
    SplitAtSuffix(stem, tail);
    stem + tail
  }

  /** Where the converted file is written and read back from. */
  function OutputPath(job: ConversionJob): string
    requires |job.originalFile.mimeType| >= 6
  {
    "outputs/" + job.id + "_converted" + GetOutputExtension(job)
  }

  function DownloadURL(jobID: string): string {
    "/api/download/" + jobID
  }

  // ---------------------------------------------------------------------------
  // Running a conversion

  /** Drives one job: Processing, then the conversion (whose error, if any, is given),
      then either the error or the download URL followed by Completed. Returns the
      output path the conversion was given, or None when the job could not be marked
      as Processing. `now` is the clock reading at the last registry update. */
  method ProcessConversion(jm: JobManager, job: ConversionJob, conversionError: Option<string>,
                           now: int)
    returns (outputPath: Option<string>)
    requires jm.Valid() && |job.originalFile.mimeType| >= 6
    modifies jm
    ensures jm.Valid() && jm.pending == old(jm.pending)
    ensures job.id !in old(jm.jobs) ==> outputPath == None && jm.jobs == old(jm.jobs)
    ensures job.id in old(jm.jobs) ==>
      outputPath == Some(OutputPath(job))
      && jm.jobs == old(jm.jobs)[job.id := ConversionOutcome(old(jm.jobs)[job.id],
                                                             conversionError, now)]
  {
    var err := jm.UpdateJobStatus(job.id, Processing, now);
    if err.Some? {
      return None;
    }
    var path := "outputs/" + job.id + "_converted" + GetOutputExtension(job);
    outputPath := Some(path);
    if conversionError.Some? {
      var _ := jm.UpdateJobError(job.id, conversionError.value, now);
      return;
    }
    var resultURL := "/api/download/" + job.id;
    err := jm.UpdateJobResult(job.id, resultURL);
    if err.Some? {
      // With one caller at a time the job found above is still there, so recording
      // the result cannot fail and its fallback to an error is never taken.
      assert false;
    }
    var _ := jm.UpdateJobStatus(job.id, Completed, now);
  }

  /** The record a conversion leaves behind. */
  function ConversionOutcome(job: ConversionJob, conversionError: Option<string>, now: int)
    : ConversionJob
  {
    var running := WithStatus(job, Processing, now);
    if conversionError.Some? then WithError(running, conversionError.value, now)
    else WithStatus(running.(resultURL := DownloadURL(job.id)), Completed, now)
  }

  // ---------------------------------------------------------------------------
  // Downloading

  /** The handler's answer: an HTTP error with its message, or the file to send. */
  datatype Download = Refused(code: int, message: string) | Serve(path: string, filename: string)

  /** The download handler. `fileExists` is whether the converted file is on disk. */
  method DownloadFile(jm: JobManager, jobID: string, fileExists: bool) returns (r: Download)
    requires jobID in jm.jobs ==> |jm.jobs[jobID].originalFile.mimeType| >= 6
    ensures jobID == "" ==> r == Refused(400, "Job ID is required")
    ensures jobID != "" && jobID !in jm.jobs ==> r == Refused(404, "Job not found")
    ensures jobID != "" && jobID in jm.jobs && jm.jobs[jobID].status != Completed ==>
      r == Refused(400, "Job not completed")
    ensures jobID != "" && jobID in jm.jobs && jm.jobs[jobID].status == Completed
            && !fileExists ==>
      r == Refused(404, "Converted file not found")
    ensures r.Serve? ==>
      jobID in jm.jobs && jm.jobs[jobID].status == Completed && fileExists
      && r.path == "outputs/" + jobID + "_converted" + GetOutputExtension(jm.jobs[jobID])
      && r.filename == GetOutputFilename(jm.jobs[jobID])
    ensures jobID != "" && jobID in jm.jobs && jm.jobs[jobID].status == Completed ==>
      (r.Serve? <==> fileExists)
  {
    if jobID == "" {
      return Refused(400, "Job ID is required");
    }
    var found := jm.GetJob(jobID);
    if found.Err? {
      return Refused(404, "Job not found");
    }
    var job := found.value;
    if job.status != Completed {
      return Refused(400, "Job not completed");
    }
    var path := "outputs/" + jobID + "_converted" + GetOutputExtension(job);
    if !fileExists {
      return Refused(404, "Converted file not found");
    }
    r := Serve(path, GetOutputFilename(job));
  }

  // ---------------------------------------------------------------------------
  // Reading an image description

  /** One line of `identify -verbose` output: blank lines and lines without a colon
      give nothing; otherwise the trimmed text before the first colon is the key and
      the trimmed rest is the value. */
  function ParseIdentifyLine(line: string): (r: Option<(string, string)>)
    ensures r.Some? <==> TrimSpace(line) != "" && Contains(TrimSpace(line), ":")
  {
    var t := TrimSpace(line);
    if t != "" && Contains(t, ":") then Some(SplitAtColon(t, Index(t, ":").value)) else None
  }

  /** The trimmed text on either side of the colon at `k`. */
  function SplitAtColon(t: string, k: nat): (string, string)
    requires k < |t|
  {
    (TrimSpace(t[..k]), TrimSpace(t[k + 1..]))
  }

  /** No colon comes before the first one. */
  lemma BeforeFirstColon(t: string, k: nat)
    requires Index(t, ":") == Some(k)
    ensures k < |t| && ':' !in t[..k]
  {
    forall j | 0 <= j < k
      ensures t[..k][j] != ':'
    {
      assert !OccursAt(t, ":", j);
    }
  }

  /** A key never holds a colon: the split is at the first one. */
  lemma KeyHasNoColon(line: string)
    requires ParseIdentifyLine(line).Some?
    ensures ':' !in ParseIdentifyLine(line).value.0
  {
    var t := TrimSpace(line);
    var k := Index(t, ":").value;
    BeforeFirstColon(t, k);
    TrimSpaceWithin(t[..k]);
    assert ParseIdentifyLine(line).value.0 == TrimSpace(t[..k]);
  }

  /** Each line parsed on its own. */
  function Entries(lines: seq<string>): (r: seq<Option<(string, string)>>)
    ensures |r| == |lines| && forall i :: 0 <= i < |lines| ==> r[i] == ParseIdentifyLine(lines[i])
  {
    seq(|lines|, i requires 0 <= i < |lines| => ParseIdentifyLine(lines[i]))
  }

  /** The description map after the given parsed lines, entered in order. */
  function Collect(entries: seq<Option<(string, string)>>): map<string, string> {
    if |entries| == 0 then map[]
    else Record(Collect(entries[..|entries| - 1]), entries[|entries| - 1])
  }

  /** A parsed line entered into the map, overwriting an earlier value for its key. */
  function Record(details: map<string, string>, parsed: Option<(string, string)>)
    : map<string, string>
  {
    match parsed
    case None => details
    case Some(kv) => details[kv.0 := kv.1]
  }

  function IdentifyDetails(lines: seq<string>): map<string, string> {
    Collect(Entries(lines))
  }

  /** The parsing loop over the output split at newlines. */
  method ParseIdentifyOutput(rawOutput: string) returns (details: map<string, string>)
    ensures details == IdentifyDetails(Split(rawOutput, '\n'))
  {
    var lines := Split(rawOutput, '\n');
    ghost var entries := Entries(lines);
    details := map[];
    var i := 0;
    assert entries[..0] == [];
    while i < |lines|
      invariant 0 <= i <= |lines|
      invariant details == Collect(entries[..i])
    {
      assert entries[..i + 1][..i] == entries[..i];
      var parsed := ParseIdentifyLine(lines[i]);
      assert Collect(entries[..i + 1]) == Record(details, parsed);
      details := Record(details, parsed);
      i := i + 1;
    }
    assert entries[..|lines|] == entries;
  }

  // ---------------------------------------------------------------------------
  // Properties

  /** The conversion writes where the download reads: the registry's updates never
      touch the id, the options or the file description the path is made from. */
  lemma SamePathBothWays(job: ConversionJob, conversionError: Option<string>, now: int)
    requires |job.originalFile.mimeType| >= 6
    ensures var done := ConversionOutcome(job, conversionError, now);
      |done.originalFile.mimeType| >= 6
      && "outputs/" + job.id + "_converted" + GetOutputExtension(done) == OutputPath(job)
  {
  }

  /** A successful conversion ends Completed at 100% with the download URL set; a failed
      one ends Failed with its error and no download URL. */
  lemma ConversionOutcomeStates(job: ConversionJob, conversionError: Option<string>, now: int)
    ensures var done := ConversionOutcome(job, conversionError, now);
      (conversionError.None? ==>
         done.status == Completed && done.progress == 100
         && done.resultURL == DownloadURL(job.id) && done.completedAt == Some(now))
      && (conversionError.Some? ==>
         done.status == Failed && done.error == conversionError.value
         && done.resultURL == job.resultURL && done.completedAt == Some(now))
  {
  }

  /** Only a successful conversion makes the job downloadable. */
  lemma DownloadableIffConverted(job: ConversionJob, conversionError: Option<string>, now: int)
    ensures ConversionOutcome(job, conversionError, now).status == Completed
            <==> conversionError.None?
  {
  }

  /** `photo.png` converted to jpg downloads as `photo_converted.jpg`. */
  lemma OutputFilenameReplacesExtension(job: ConversionJob, stem: string, e: string)
    requires |job.originalFile.mimeType| >= 6
    requires job.originalFile.name == stem + "." + e
    requires forall k :: 0 <= k < |e| ==> e[k] != '.' && e[k] != '/'
    ensures GetOutputFilename(job) == stem + "_converted" + GetOutputExtension(job)
  {
    ExtOf(stem, e);
    assert HasSuffix(stem + "." + e, "." + e);
    assert (stem + "." + e)[..|stem|] == stem;
  }

  /** A name without an extension keeps all of it. */
  lemma OutputFilenameNoExtension(job: ConversionJob)
    requires |job.originalFile.mimeType| >= 6
    requires '.' !in job.originalFile.name
    ensures GetOutputFilename(job) == job.originalFile.name + "_converted" + GetOutputExtension(job)
  {
  }

  /** The parsed line gives a value for `key`. */
  predicate Gives(entry: Option<(string, string)>, key: string) {
    entry.Some? && entry.value.0 == key
  }

  /** A key is described iff some line gives it. */
  lemma {:induction false} DescribedIffGiven(entries: seq<Option<(string, string)>>, key: string)
    ensures key in Collect(entries) <==> exists i :: 0 <= i < |entries| && Gives(entries[i], key)
  {
    if |entries| > 0 {
      var init := entries[..|entries| - 1];
      DescribedIffGiven(init, key);
      if key in Collect(entries) && !Gives(entries[|entries| - 1], key) {
        var i :| 0 <= i < |init| && Gives(init[i], key);
        assert entries[i] == init[i];
      }
      if exists i :: 0 <= i < |entries| && Gives(entries[i], key) {
        var i :| 0 <= i < |entries| && Gives(entries[i], key);
        if i < |init| {
          assert init[i] == entries[i];
        }
      }
    }
  }

  /** A later line for the same key overwrites an earlier one: the value described is
      the one from the last line giving the key. */
  lemma {:induction false} LastLineWins(entries: seq<Option<(string, string)>>, key: string, i: nat)
    requires i < |entries| && Gives(entries[i], key)
    requires forall j :: i < j < |entries| ==> !Gives(entries[j], key)
    ensures key in Collect(entries)
    ensures Collect(entries)[key] == entries[i].value.1
  {
    var init := entries[..|entries| - 1];
    if i < |entries| - 1 {
      assert init[i] == entries[i];
      forall j | i < j < |init|
        ensures !Gives(init[j], key)
      {
        assert init[j] == entries[j];
      }
      LastLineWins(init, key, i);
    }
  }

  /** In `key:value` with a colon-free key, the first colon is the one after the key. */
  lemma FirstColonAfterKey(key: string, value: string)
    requires ':' !in key
    ensures Index(key + ":" + value, ":") == Some(|key|)
  {
    var t := key + ":" + value;
    assert t[|key|] == ':';
    assert OccursAt(t, ":", |key|);
    forall j | 0 <= j < |key|
      ensures !OccursAt(t, ":", j)
    {
      assert t[j] == key[j];
    }
  }

  /** A line written as `key:value`, with both sides trimmed and no colon in the key,
      reads back as that key and value; colons in the value are kept. */
  lemma ParseIdentifyLineRoundTrip(key: string, value: string)
    requires ':' !in key && Trimmed(key) && Trimmed(value)
    ensures ParseIdentifyLine(key + ":" + value) == Some((key, value))
  {
    var t := key + ":" + value;
    assert t[|key|] == ':';
    assert Trimmed(t);
    TrimSpaceTrimmed(t);
    FirstColonAfterKey(key, value);
    ContainsAt(t, ":", |key|);
    assert t[..|key|] == key;
    assert t[|key| + 1..] == value;
    TrimSpaceTrimmed(key);
    TrimSpaceTrimmed(value);
    assert SplitAtColon(t, |key|) == (key, value);
  }

  /** Every key is free of colons, so no line is ever split at a later colon. */
  lemma KeysHaveNoColon(lines: seq<string>)
    ensures forall key :: key in IdentifyDetails(lines) ==> ':' !in key
  {
    forall key | key in IdentifyDetails(lines)
      ensures ':' !in key
    {
      DescribedIffGiven(Entries(lines), key);
      var i :| 0 <= i < |lines| && Gives(Entries(lines)[i], key);
      KeyHasNoColon(lines[i]);
    }
  }
}
