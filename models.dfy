/** The records and enumerations shared by the service: job status, media kind, the
    uploaded file's description, the conversion job itself and a progress sample. */
module Models {
  import opened Wrappers

  /** The four states a conversion job moves through. */
  datatype JobStatus = Pending | Processing | Completed | Failed

  /** The wire spelling of each status. */
  function StatusString(s: JobStatus): string {
    match s
    case Pending => "pending"
    case Processing => "processing"
    case Completed => "completed"
    case Failed => "failed"
  }

  /** Reads a status back from its wire spelling; any other text is not a status. */
  function ParseStatus(s: string): (r: Option<JobStatus>)
    ensures r.Some? ==> StatusString(r.value) == s
  {
    if s == "pending" then Some(Pending)
    else if s == "processing" then Some(Processing)
    else if s == "completed" then Some(Completed)
    else if s == "failed" then Some(Failed)
    else None
  }

  /** The four constants are spelled differently, and the spelling reads back. */
  lemma StatusStringRoundTrip(s: JobStatus, t: JobStatus)
    ensures ParseStatus(StatusString(s)) == Some(s)
    ensures StatusString(s) == StatusString(t) ==> s == t
  {
  }

  /** A job is finished once it is Completed or Failed. */
  predicate IsTerminal(s: JobStatus) {
    s == Completed || s == Failed
  }

  /** The media kinds the service converts. */
  datatype FileType = Image | Video | Audio | Unknown

  /** Classifies a MIME type by its first six characters. Taking those six characters
      fails on a shorter string, so the caller must supply at least six. */
  function GetFileType(mimeType: string): (r: FileType)
    requires |mimeType| >= 6
    ensures r == Image <==> mimeType[..6] == "image/"
    ensures r == Video <==> mimeType[..6] == "video/"
    ensures r == Audio <==> mimeType[..6] == "audio/"
    ensures r == Unknown <==> mimeType[..6] !in {"image/", "video/", "audio/"}
  {
    var head := mimeType[..6];
    if head == "image/" then Image
    else if head == "video/" then Video
    else if head == "audio/" then Audio
    else Unknown
  }

  /** Nothing past the sixth character matters to the classification. */
  lemma GetFileTypeHeadOnly(a: string, b: string)
    requires |a| >= 6 && |b| >= 6 && a[..6] == b[..6]
    ensures GetFileType(a) == GetFileType(b)
  {
  }

  /** What the client said about the uploaded file. */
  datatype OriginalFileInfo = OriginalFileInfo(name: string, size: int, mimeType: string)

  /** A value of the loosely typed options map: only string values are looked at by
      the handlers; every other JSON value is `Other`. */
  datatype OptionValue = Str(s: string) | Other

  /** A conversion job. Times are instants on an integer clock. */
  datatype ConversionJob = ConversionJob(
    id: string,
    status: JobStatus,
    progress: int,
    resultURL: string,
    error: string,
    originalFile: OriginalFileInfo,
    options: map<string, OptionValue>,
    createdAt: int,
    completedAt: Option<int>)

  /** One progress sample travelling from a conversion to the registry. */
  datatype ProgressUpdate = ProgressUpdate(jobID: string, progress: int)
}
