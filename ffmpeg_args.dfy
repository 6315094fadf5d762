/** Pieces shared by the video and the audio ffmpeg argument lists: the trim window
    that follows the input, and the facts that keep filter chains and formatted
    numbers apart from option flags. */
module FFmpegArgs {
  import opened Wrappers
  import opened Strings
  import opened Options

  /** Seek to the start, then keep `end - start` seconds. */
  function TrimSegment(trim: Option<TrimRange>): seq<string> {
    if trim.Some? then
      ["-ss", Fmt2(trim.value.startTime), "-t", Fmt2(trim.value.endTime - trim.value.startTime)]
    else []
  }

  /** A filter that is given exactly when its switch is present and on. */
  function FlagSegment(flag: Option<bool>, filter: string): seq<string> {
    if flag.Some? && flag.value then [filter] else []
  }

  /** Every filter name starts with a lower-case letter (so no filter chain can be
      mistaken for an option flag). */
  predicate StartsLower(s: string) {
    |s| > 0 && 'a' <= s[0] <= 'z'
  }

  predicate AllStartLower(xs: seq<string>) {
    forall k :: 0 <= k < |xs| ==> StartsLower(xs[k])
  }

  lemma AllStartLowerAppend(a: seq<string>, b: seq<string>)
    requires AllStartLower(a) && AllStartLower(b)
    ensures AllStartLower(a + b)
  {
  }

  /** An option flag: a dash followed by a lower-case letter. */
  predicate IsFlag(f: string) {
    |f| >= 2 && f[0] == '-' && 'a' <= f[1] <= 'z'
  }

  /** A formatted number is never a flag. */
  lemma NumberIsNotFlag(x: real, prec: nat, f: string)
    requires IsFlag(f)
    ensures FormatFixed(x, prec) != f
  {
    var r := FormatFixed(x, prec);
    assert |r| >= 2 ==> IsDigit(r[1]) || r[1] == '.';
  }

  /** The trim segment holds no flag other than its own two. */
  lemma TrimCount(trim: Option<TrimRange>, f: string)
    requires IsFlag(f) && f != "-ss" && f != "-t"
    ensures Count(TrimSegment(trim), f) == 0
  {
    if trim.Some? {
      NumberIsNotFlag(trim.value.startTime, 2, f);
      NumberIsNotFlag(trim.value.endTime - trim.value.startTime, 2, f);
    }
    CountAbsent(TrimSegment(trim), f);
  }

  /** A chain of filter names is never a flag. */
  lemma ChainIsNotFlag(filters: seq<string>, f: string)
    requires |filters| > 0 && AllStartLower(filters) && IsFlag(f)
    ensures Join(filters, ",") != f
  {
    JoinHead(filters, ",");
  }

  lemma PairCount(a: string, b: string, f: string)
    ensures Count([a, b], f) == (if a == f then 1 else 0) + (if b == f then 1 else 0)
  {
    assert [a][..0] == [];
    assert Count([a], f) == (if a == f then 1 else 0);
    assert [a, b][..1] == [a];
  }
}
