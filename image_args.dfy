/** The ImageMagick `convert` argument list built for an image job: the input path,
    then crop, resize, filter, JPEG quality and tint options, then the output path. */
module ImageCommand {
  import opened Wrappers
  import opened Strings
  import opened Options

  /** `<w>x<h>+<x>+<y>` */
  function CropGeometry(c: CropArea): string {
    IntToString(c.width) + "x" + IntToString(c.height) + "+" + IntToString(c.x) + "+"
    + IntToString(c.y)
  }

  /** `<w>x<h>!` when both sides are given (aspect ratio ignored), `<w>x` or `x<h>`
      when only one is. */
  function ResizeGeometry(width: Option<int>, height: Option<int>): string
    requires width.Some? || height.Some?
  {
    if width.Some? && height.Some? then
      IntToString(width.value) + "x" + IntToString(height.value) + "!"
    else if width.Some? then IntToString(width.value) + "x"
    else "x" + IntToString(height.value)
  }

  lemma CropGeometryHasX(c: CropArea)
    ensures 'x' in CropGeometry(c)
  {
    var w := IntToString(c.width);
    assert CropGeometry(c)[|w|] == 'x';
  }

  /** The resize geometry always holds an 'x'; it ends with '!' exactly when both
      sides are given, and starts with 'x' exactly when the width is missing. */
  lemma ResizeGeometryShape(width: Option<int>, height: Option<int>)
    requires width.Some? || height.Some?
    ensures var g := ResizeGeometry(width, height);
      'x' in g && (g[|g| - 1] == '!' <==> width.Some? && height.Some?)
      && (g[0] == 'x' <==> width.None?)
  {
    var g := ResizeGeometry(width, height);
    if width.Some? {
      var w := IntToString(width.value);
      IntToStringHead(width.value);
      assert g[|w|] == 'x';
      assert g[0] == w[0];
      if height.None? {
        IntToStringLast(width.value);
        assert g[|g| - 1] == 'x';
      }
    } else {
      IntToStringLast(height.value);
      assert g[0] == 'x';
    }
  }

  /** The options that implement each named filter; a name without an
      implementation adds nothing. */
  function FilterTokens(filter: string): seq<string> {
    match filter
    case "grayscale" => ["-colorspace", "Gray"]
    case "sepia" => ["-sepia-tone", "80%"]
    case "blur" => ["-blur", "0x8"]
    case "sharpen" => ["-sharpen", "0x1"]
    case "swirl" => ["-swirl", "90"]
    case "barrel-distortion" => ["-distort", "Barrel", "0.1 0.0 0.0 1.0"]
    case "oil-painting" => ["-paint", "4"]
    case "vintage" => ["-modulate", "120,50,100", "-colorize", "10,5,15"]
    case "emboss" => ["-emboss", "2"]
    case "charcoal" => ["-charcoal", "2"]
    case "sketch" => ["-sketch", "0x20+120"]
    case "rotate-45º" => ["-rotate", "45"]
    case "rotate-90º" => ["-rotate", "90"]
    case "rotate-180º" => ["-rotate", "180"]
    case "rotate-270º" => ["-rotate", "270"]
    case _ => []
  }

  function CropSegment(crop: Option<CropArea>): seq<string> {
    if crop.Some? then ["-crop", CropGeometry(crop.value)] else []
  }

  function ResizeSegment(width: Option<int>, height: Option<int>): seq<string> {
    if width.Some? || height.Some? then ["-resize", ResizeGeometry(width, height)] else []
  }

  function FilterSegment(filter: string): seq<string> {
    if filter != "" && filter != "none" then FilterTokens(filter) else []
  }

  predicate IsJpeg(format: string) {
    format == "jpg" || format == "jpeg"
  }

  function QualitySegment(format: string, quality: int): seq<string> {
    if IsJpeg(format) then ["-quality", IntToString(quality)] else []
  }

  /** A tint is applied unless it is empty or black. */
  function TintSegment(tint: Option<string>): seq<string> {
    if tint.Some? && tint.value != "" && tint.value != "#000000" then
      ["-fill", tint.value, "-tint", "30"]
    else []
  }

  /** The whole argument list, segment by segment. */
  function ImageArgs(o: ImageOptions, input: string, output: string): seq<string> {
    [input] + CropSegment(o.crop) + ResizeSegment(o.width, o.height)
    + FilterSegment(o.filter) + QualitySegment(o.format, o.quality)
    + TintSegment(o.tint) + [output]
  }

  /** The argument building of the image conversion, appending option by option. */
  method BuildImageArgs(o: ImageOptions, input: string, output: string)
    returns (args: seq<string>)
    ensures args == ImageArgs(o, input, output)
  {
    args := [input];
    if o.crop.Some? {
      args := args + ["-crop", CropGeometry(o.crop.value)];
    }
    if o.width.Some? || o.height.Some? {
      var resize := ResizeGeometry(o.width, o.height);
      args := args + ["-resize", resize];
    }
    assert args == [input] + CropSegment(o.crop) + ResizeSegment(o.width, o.height);
    ghost var before := args;
    if o.filter != "" && o.filter != "none" {
      args := args + FilterTokens(o.filter);
    }
    assert args == before + FilterSegment(o.filter);
    before := args;
    if o.format == "jpg" || o.format == "jpeg" {
      args := args + ["-quality", IntToString(o.quality)];
    }
    assert args == before + QualitySegment(o.format, o.quality);
    before := args;
    if o.tint.Some? && o.tint.value != "" && o.tint.value != "#000000" {
      args := args + ["-fill", o.tint.value, "-tint", "30"];
    }
    assert args == before + TintSegment(o.tint);
    args := args + [output];
  }

  // ---------------------------------------------------------------------------
  // Properties of the argument list

  /** The input path comes first and the output path last. */
  lemma ImageArgsEnds(o: ImageOptions, input: string, output: string)
    ensures |ImageArgs(o, input, output)| >= 2
    ensures ImageArgs(o, input, output)[0] == input
    ensures ImageArgs(o, input, output)[|ImageArgs(o, input, output)| - 1] == output
  {
  }

  /** The options after the resize segment. */
  function ImageTail(o: ImageOptions, output: string): seq<string> {
    FilterSegment(o.filter) + QualitySegment(o.format, o.quality) + TintSegment(o.tint) + [output]
  }

  lemma ImageArgsSplit(o: ImageOptions, input: string, output: string)
    ensures ImageArgs(o, input, output)
            == [input] + CropSegment(o.crop) + ResizeSegment(o.width, o.height) + ImageTail(o, output)
  {
  }

  /** Cropping comes straight after the input and before resizing. */
  lemma CropBeforeResize(o: ImageOptions, input: string, output: string)
    requires o.crop.Some? && (o.width.Some? || o.height.Some?)
    ensures var args := ImageArgs(o, input, output);
      |args| > 4 && args[1] == "-crop" && args[2] == CropGeometry(o.crop.value)
      && args[3] == "-resize" && args[4] == ResizeGeometry(o.width, o.height)
  {
    ImageArgsSplit(o, input, output);
    var pre := [input, "-crop", CropGeometry(o.crop.value), "-resize",
                ResizeGeometry(o.width, o.height)];
    assert [input] + CropSegment(o.crop) + ResizeSegment(o.width, o.height) == pre;
    var tail := ImageTail(o, output);
    assert (pre + tail)[..5] == pre;
  }

  /** No named filter passes "-quality". */
  lemma FilterTokensNoQuality(filter: string)
    ensures "-quality" !in FilterSegment(filter)
  {
  }

  lemma GeometryNoQuality(o: ImageOptions)
    ensures "-quality" !in CropSegment(o.crop) + ResizeSegment(o.width, o.height)
  {
    if o.crop.Some? {
      CropGeometryHasX(o.crop.value);
      assert 'x' !in "-quality";
    }
    if o.width.Some? || o.height.Some? {
      ResizeGeometryShape(o.width, o.height);
      assert 'x' !in "-quality";
    }
  }

  /** Every token the options contribute is different from "-quality" except the one
      the quality segment adds. */
  lemma NoQualityOutsideSegment(o: ImageOptions)
    requires o.tint != Some("-quality")
    ensures "-quality" !in CropSegment(o.crop) + ResizeSegment(o.width, o.height)
                           + FilterSegment(o.filter)
    ensures "-quality" !in TintSegment(o.tint)
  {
    GeometryNoQuality(o);
    FilterTokensNoQuality(o.filter);
  }

  /** `-quality` is passed exactly when the output is JPEG, whatever else is set
      (provided the paths and the tint are not themselves "-quality"). */
  lemma QualityOnlyForJpeg(o: ImageOptions, input: string, output: string)
    requires input != "-quality" && output != "-quality" && o.tint != Some("-quality")
    ensures "-quality" in ImageArgs(o, input, output) <==> IsJpeg(o.format)
  {
    NoQualityOutsideSegment(o);
    var args := ImageArgs(o, input, output);
    var pre := [input] + CropSegment(o.crop) + ResizeSegment(o.width, o.height)
               + FilterSegment(o.filter);
    assert args == pre + QualitySegment(o.format, o.quality) + TintSegment(o.tint) + [output];
    assert "-quality" !in pre;
  }
}
