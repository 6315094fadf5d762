/** Turning a failed encoder run into a message for the user. The exit code is read
    from the front of the error text; code 1 and code 8 have their own messages (8
    with a list of likely causes), and any other code is explained by the first known
    phrase found in the error text, or else by a generic message. The two file-system
    probes of the code-8 diagnosis (can the input be read, can the output directory be
    written) are given as booleans. */
module ErrorClassifier {
  import opened Wrappers
  import opened Strings

  // ---------------------------------------------------------------------------
  // The exit code

  const ExitStatusPrefix := "exit status "

  /** The longest run of digits at the front of `s`. */
  function LeadingDigits(s: string): (r: string)
    ensures HasPrefix(s, r)
    ensures forall k :: 0 <= k < |r| ==> IsDigit(r[k])
    ensures |r| == |s| || !IsDigit(s[|r|])
  {
    if |s| > 0 && IsDigit(s[0]) then [s[0]] + LeadingDigits(s[1..]) else ""
  }

  /** The code scanned as `exit status %d` from the start of the error text; 0 when the
      text does not mention an exit status or the scan fails. */
  function ExitCode(errorMsg: string): (r: nat)
    ensures !HasPrefix(errorMsg, ExitStatusPrefix) ==> r == 0
    ensures r != 0 ==>
      |errorMsg| > |ExitStatusPrefix| && IsDigit(errorMsg[|ExitStatusPrefix|])
  {
    if Contains(errorMsg, "exit status") && HasPrefix(errorMsg, ExitStatusPrefix)
       && |LeadingDigits(errorMsg[|ExitStatusPrefix|..])| > 0
    then DigitsValue(LeadingDigits(errorMsg[|ExitStatusPrefix|..]))
    else 0
  }

  lemma {:induction false} LeadingDigitsOf(digits: string, rest: string)
    requires forall k :: 0 <= k < |digits| ==> IsDigit(digits[k])
    requires rest == "" || !IsDigit(rest[0])
    ensures LeadingDigits(digits + rest) == digits
  {
    if |digits| > 0 {
      assert (digits + rest)[1..] == digits[1..] + rest;
      LeadingDigitsOf(digits[1..], rest);
    } else {
      assert digits + rest == rest;
    }
  }

  /** The code a process reports as `exit status <n>` is read back as n, whatever
      follows the number. */
  lemma ExitCodeRoundTrip(n: nat, rest: string)
    requires rest == "" || !IsDigit(rest[0])
    ensures ExitCode(ExitStatusPrefix + NatToString(n) + rest) == n
  {
    var digits := NatToString(n);
    var msg := ExitStatusPrefix + digits + rest;
    assert msg[..|ExitStatusPrefix|] == ExitStatusPrefix;
    assert msg[..11] == "exit status";
    ContainsAt(msg, "exit status", 0);
    assert msg[|ExitStatusPrefix|..] == digits + rest;
    LeadingDigitsOf(digits, rest);
    NatToStringRoundTrip(n);
  }

  // ---------------------------------------------------------------------------
  // Classification

  /** Which explanation an encoder failure gets. */
  datatype Failure =
    | GeneralError          // exit code 1
    | ParameterError        // exit code 8
    | FileNotFound
    | PermissionDenied
    | CorruptedInput
    | DecoderMissing
    | EncoderMissing
    | ConversionFailed      // any other failure

  const NoSuchFile := "No such file or directory"
  const PermissionPhrase := "Permission denied"
  const InvalidData := "Invalid data found"
  const NoDecoder := "Decoder not found"
  const NoEncoder := "Encoder not found"

  /** Code 1 and code 8 first; otherwise the first known phrase, in a fixed order. */
  function Classify(errorMsg: string, exitCode: int): Failure {
    if exitCode == 1 then GeneralError
    else if exitCode == 8 then ParameterError
    else if Contains(errorMsg, NoSuchFile) then FileNotFound
    else if Contains(errorMsg, PermissionPhrase) then PermissionDenied
    else if Contains(errorMsg, InvalidData) then CorruptedInput
    else if Contains(errorMsg, NoDecoder) then DecoderMissing
    else if Contains(errorMsg, NoEncoder) then EncoderMissing
    else ConversionFailed
  }

  function CommandLine(args: seq<string>): string {
    "Command: ffmpeg " + Join(args, " ")
  }

  /** The message the run's error is replaced with. */
  function EnhanceFFmpegError(errorMsg: string, inputPath: string, outputPath: string,
                              args: seq<string>, inputAccessible: bool,
                              outputWritable: bool): (r: string)
    ensures ExitCode(errorMsg) == 8 ==>
      r == ExitCode8Message(errorMsg, inputPath, outputPath, args, inputAccessible,
                            outputWritable)
    ensures ExitCode(errorMsg) == 1 ==>
      HasPrefix(r, "FFmpeg general error (exit code 1): " + errorMsg)
  {
    var code := ExitCode(errorMsg);
    match Classify(errorMsg, code)
    case GeneralError =>
      "FFmpeg general error (exit code 1): " + errorMsg
      + ". This usually indicates invalid parameters or unsupported codec. " + CommandLine(args)
    case ParameterError =>
      ExitCode8Message(errorMsg, inputPath, outputPath, args, inputAccessible, outputWritable)
    case FileNotFound =>
      "file not found error: input file '" + inputPath
      + "' may have been moved or deleted during processing"
    case PermissionDenied =>
      "permission error: insufficient permissions to read '" + inputPath + "' or write to '"
      + outputPath + "'"
    case CorruptedInput =>
      "corrupted file: the input file '" + inputPath
      + "' appears to be corrupted or in an unsupported format"
    case DecoderMissing =>
      "codec not supported: FFmpeg cannot decode the input file format. "
      + "Please try a different input file"
    case EncoderMissing =>
      "output format not supported: FFmpeg cannot encode to the requested output format"
    case ConversionFailed =>
      "FFmpeg conversion failed (exit code " + IntToString(code) + "): " + errorMsg + ". "
      + CommandLine(args)
  }

  // ---------------------------------------------------------------------------
  // The exit-code-8 diagnosis

  const InputInaccessible := "Input file is not accessible"
  const OutputUnwritable := "Output directory is not writable"
  const BadScale := "Invalid scale dimensions (width or height is 0)"
  const BadBlur := "Invalid blur sigma value"
  const SameFormat := "Input and output formats are the same - consider changing output format"

  /** The heuristic checks on one argument: a scale filter with a zero next to a colon,
      and a blur with a zero sigma. */
  function ArgSuggestions(arg: string): seq<string> {
    (if ZeroScale(arg) then [BadScale] else []) + (if ZeroSigma(arg) then [BadBlur] else [])
  }

  predicate ZeroScale(arg: string) {
    Contains(arg, "scale=") && (Contains(arg, ":0") || Contains(arg, "0:"))
  }

  predicate ZeroSigma(arg: string) {
    Contains(arg, "gblur") && Contains(arg, "sigma=0")
  }

  /** The checks over all the arguments, in order. */
  function AllArgSuggestions(args: seq<string>): seq<string> {
    if |args| == 0 then []
    else AllArgSuggestions(args[..|args| - 1]) + ArgSuggestions(args[|args| - 1])
  }

  /** The likely causes, in the order they are checked. */
  function Suggestions(inputPath: string, outputPath: string, args: seq<string>,
                       inputAccessible: bool, outputWritable: bool): seq<string>
  {
    ProbeSuggestions(inputAccessible, outputWritable) + AllArgSuggestions(args)
    + FormatSuggestion(inputPath, outputPath)
  }

  /** The causes found by the two file-system probes. */
  function ProbeSuggestions(inputAccessible: bool, outputWritable: bool): seq<string> {
    (if inputAccessible then [] else [InputInaccessible])
    + (if outputWritable then [] else [OutputUnwritable])
  }

  /** The cause found by comparing the extensions, ignoring case. */
  function FormatSuggestion(inputPath: string, outputPath: string): seq<string> {
    if ToLower(Ext(inputPath)) == ToLower(Ext(outputPath)) then [SameFormat] else []
  }

  function ExitCode8Base(errorMsg: string): string {
    "FFmpeg parameter/data error (exit code 8): " + errorMsg
  }

  const NoSuggestionText := ". This usually indicates invalid filter parameters, corrupted "
    + "input data, or incompatible format conversion. "

  function ExitCode8Message(errorMsg: string, inputPath: string, outputPath: string,
                            args: seq<string>, inputAccessible: bool, outputWritable: bool)
    : string
  {
    var suggestions := Suggestions(inputPath, outputPath, args, inputAccessible, outputWritable);
    if |suggestions| > 0 then
      ExitCode8Base(errorMsg) + ". Possible issues: " + Join(suggestions, "; ") + ". "
      + CommandLine(args)
    else ExitCode8Base(errorMsg) + NoSuggestionText + CommandLine(args)
  }

  /** The argument checks, appending to the causes found so far. */
  method AppendArgChecks(found: seq<string>, args: seq<string>) returns (suggestions: seq<string>)
    ensures suggestions == found + AllArgSuggestions(args)
  {
    suggestions := found;
    var i := 0;
    assert args[..0] == [];
    while i < |args|
      invariant 0 <= i <= |args|
      invariant suggestions == found + AllArgSuggestions(args[..i])
    {
      var arg := args[i];
      assert args[..i + 1][..i] == args[..i];
      ghost var before := suggestions;
      if ZeroScale(arg) {
        suggestions := suggestions + [BadScale];
      }
      if ZeroSigma(arg) {
        suggestions := suggestions + [BadBlur];
      }
      assert suggestions == before + ArgSuggestions(arg);
      i := i + 1;
    }
    assert args[..|args|] == args;
  }

  /** The checks, step by step: the two probes, one pass over the arguments, then the
      extension comparison. */
  method CollectSuggestions(inputPath: string, outputPath: string, args: seq<string>,
                            inputAccessible: bool, outputWritable: bool)
    returns (suggestions: seq<string>)
    ensures suggestions == Suggestions(inputPath, outputPath, args, inputAccessible, outputWritable)
  {
    suggestions := [];
    if !inputAccessible {
      suggestions := suggestions + [InputInaccessible];
    }
    if !outputWritable {
      suggestions := suggestions + [OutputUnwritable];
    }
    assert suggestions == ProbeSuggestions(inputAccessible, outputWritable);
    suggestions := AppendArgChecks(suggestions, args);
    ghost var checked := suggestions;
    var inputExt := ToLower(Ext(inputPath));
    var outputExt := ToLower(Ext(outputPath));
    if inputExt == outputExt {
      suggestions := suggestions + [SameFormat];
    }
    assert suggestions == checked + FormatSuggestion(inputPath, outputPath);
  }

  /** The diagnosis: the causes found, joined, or the generic explanation. */
  method DiagnoseExitCode8Error(errorMsg: string, inputPath: string, outputPath: string,
                                args: seq<string>, inputAccessible: bool, outputWritable: bool)
    returns (msg: string)
    ensures msg == ExitCode8Message(errorMsg, inputPath, outputPath, args, inputAccessible,
                                    outputWritable)
  {
    var baseMsg := ExitCode8Base(errorMsg);
    var suggestions := CollectSuggestions(inputPath, outputPath, args, inputAccessible,
                                          outputWritable);
    if |suggestions| > 0 {
      msg := baseMsg + ". Possible issues: " + Join(suggestions, "; ") + ". " + CommandLine(args);
    } else {
      msg := baseMsg + NoSuggestionText + CommandLine(args);
    }
  }

  // ---------------------------------------------------------------------------
  // Properties

  /** For any code other than 1 and 8, the explanation is the first of the known
      phrases, in order, that the error text contains. */
  lemma FirstPhraseWins(errorMsg: string, code: int)
    requires code != 1 && code != 8
    ensures Classify(errorMsg, code) == FileNotFound <==> Contains(errorMsg, NoSuchFile)
    ensures Classify(errorMsg, code) == PermissionDenied <==>
      !Contains(errorMsg, NoSuchFile) && Contains(errorMsg, PermissionPhrase)
    ensures Classify(errorMsg, code) == CorruptedInput <==>
      !Contains(errorMsg, NoSuchFile) && !Contains(errorMsg, PermissionPhrase)
      && Contains(errorMsg, InvalidData)
    ensures Classify(errorMsg, code) == DecoderMissing <==>
      !Contains(errorMsg, NoSuchFile) && !Contains(errorMsg, PermissionPhrase)
      && !Contains(errorMsg, InvalidData) && Contains(errorMsg, NoDecoder)
    ensures Classify(errorMsg, code) == EncoderMissing <==>
      !Contains(errorMsg, NoSuchFile) && !Contains(errorMsg, PermissionPhrase)
      && !Contains(errorMsg, InvalidData) && !Contains(errorMsg, NoDecoder)
      && Contains(errorMsg, NoEncoder)
    ensures Classify(errorMsg, code) == ConversionFailed <==>
      !Contains(errorMsg, NoSuchFile) && !Contains(errorMsg, PermissionPhrase)
      && !Contains(errorMsg, InvalidData) && !Contains(errorMsg, NoDecoder)
      && !Contains(errorMsg, NoEncoder)
  {
  }

  /** Codes 1 and 8 win over every phrase. */
  lemma ExitCodeFirst(errorMsg: string, code: int)
    ensures Classify(errorMsg, code) == GeneralError <==> code == 1
    ensures Classify(errorMsg, code) == ParameterError <==> code == 8
  {
  }

  /** An `exit status 8` failure gets the diagnosis, whatever phrases its text holds. */
  lemma ExitEightDiagnosed(rest: string, inputPath: string, outputPath: string,
                           args: seq<string>, inputAccessible: bool, outputWritable: bool)
    requires rest == "" || !IsDigit(rest[0])
    ensures var msg := ExitStatusPrefix + "8" + rest;
      EnhanceFFmpegError(msg, inputPath, outputPath, args, inputAccessible, outputWritable)
      == ExitCode8Message(msg, inputPath, outputPath, args, inputAccessible, outputWritable)
  {
    assert NatToString(8) == "8";
    ExitCodeRoundTrip(8, rest);
  }

  /** The general, the diagnosed and the generic messages end with the command line. */
  lemma CommandEchoed(errorMsg: string, inputPath: string, outputPath: string,
                      args: seq<string>, inputAccessible: bool, outputWritable: bool)
    requires Classify(errorMsg, ExitCode(errorMsg)) in {GeneralError, ParameterError, ConversionFailed}
    ensures HasSuffix(EnhanceFFmpegError(errorMsg, inputPath, outputPath, args, inputAccessible,
                                         outputWritable), CommandLine(args))
  {
  }

  /** The causes are listed in the order checked: an unreadable input first, then an
      unwritable output directory. */
  lemma ProbesFirst(inputPath: string, outputPath: string, args: seq<string>,
                    inputAccessible: bool, outputWritable: bool)
    ensures var s := Suggestions(inputPath, outputPath, args, inputAccessible, outputWritable);
      (!inputAccessible ==> |s| > 0 && s[0] == InputInaccessible)
      && (inputAccessible && !outputWritable ==> |s| > 0 && s[0] == OutputUnwritable)
      && (!inputAccessible && !outputWritable ==> |s| > 1 && s[1] == OutputUnwritable)
  {
  }

  /** Each argument adds at most two causes. */
  lemma {:induction false} ArgSuggestionsBound(args: seq<string>)
    ensures |AllArgSuggestions(args)| <= 2 * |args|
  {
    if |args| > 0 {
      ArgSuggestionsBound(args[..|args| - 1]);
    }
  }

  /** Without any cause, the diagnosis falls back to its generic explanation. */
  lemma NoCauseFallback(errorMsg: string, inputPath: string, outputPath: string,
                        args: seq<string>, inputAccessible: bool, outputWritable: bool)
    requires Suggestions(inputPath, outputPath, args, inputAccessible, outputWritable) == []
    ensures ExitCode8Message(errorMsg, inputPath, outputPath, args, inputAccessible,
                             outputWritable)
            == ExitCode8Base(errorMsg) + NoSuggestionText + CommandLine(args)
    ensures inputAccessible && outputWritable
  {
    var s := Suggestions(inputPath, outputPath, args, inputAccessible, outputWritable);
    ProbesFirst(inputPath, outputPath, args, inputAccessible, outputWritable);
  }

  /** A string without the first character of `sub` does not contain `sub`. */
  lemma MissingFirstChar(s: string, sub: string)
    requires |sub| > 0
    requires forall k :: 0 <= k < |s| ==> s[k] != sub[0]
    ensures !Contains(s, sub)
  {
    assert forall i :: OccursAt(s, sub, i) ==> s[i..i + |sub|][0] == sub[0];
  }

  /** The scale check is a text heuristic: an ordinary 1280x720 scale filter has "0:"
      in it and is reported as a zero dimension. */
  lemma ScaleHeuristicFalsePositive()
    ensures ArgSuggestions("scale=1280:720") == [BadScale]
  {
    var a := "scale=1280:720";
    assert OccursAt(a, "scale=", 0);
    ContainsAt(a, "scale=", 0);
    assert OccursAt(a, "0:", 9);
    ContainsAt(a, "0:", 9);
    MissingFirstChar(a, "gblur");
  }

  /** Extensions are compared without regard to case: `in.MP4` to `out.mp4` is
      reported as the same format. */
  lemma SameFormatIgnoresCase(inStem: string, outStem: string, inExt: string, outExt: string,
                              args: seq<string>, inputAccessible: bool, outputWritable: bool)
    requires forall k :: 0 <= k < |inExt| ==> inExt[k] != '.' && inExt[k] != '/'
    requires forall k :: 0 <= k < |outExt| ==> outExt[k] != '.' && outExt[k] != '/'
    requires ToLower(inExt) == ToLower(outExt)
    ensures var s := Suggestions(inStem + "." + inExt, outStem + "." + outExt, args,
                                 inputAccessible, outputWritable);
      |s| > 0 && s[|s| - 1] == SameFormat
  {
    ExtOf(inStem, inExt);
    ExtOf(outStem, outExt);
    assert ToLower("." + inExt) == ToLower("." + outExt);
  }
}
