/** The per-file record: the source image's size and resolution, the output
    size and crop rectangle computed from the requested lengths, and the
    output path. The decoded bitmap is reduced to its width, height and two
    resolutions. */
module FileContexts {
  import opened Wrappers
  import opened Decimals
  import opened Utility
  import opened Paths

  /** What `FromSourceImage` reads from a decoded bitmap. */
  datatype SourceImage = SourceImage(width: int, height: int, horizontalResolution: real, verticalResolution: real)

  /** `System.Drawing.Rectangle`. */
  datatype Rect = Rect(x: int, y: int, width: int, height: int)

  /** The fields `FromSourceImage` sets. */
  datatype Measurements = Measurements(
    srcResX: real,
    srcResY: real,
    srcWidthPx: int,
    srcHeightPx: int,
    outWidthPx: int,
    outHeightPx: int,
    cropRect: Rect)

  /** The description of a crop: prefix, input path and size, output path and
      size, sizes in centimetres. How the numbers are printed is not part of
      this model. */
  datatype CropDescription = CropDescription(
    prefix: string,
    inputPath: string,
    srcWidthCm: real,
    srcHeightCm: real,
    outputPath: string,
    outWidthCm: real,
    outHeightCm: real)

  /** The message `CropImageFile` leaves on the record. */
  datatype FileMessage =
    | BelowMinimumResolution(path: string, resX: real, resY: real)
    | NoChangesRequired(path: string)
    | Cropped(description: CropDescription)

  const WhatIfPrefix: string := "WhatIf: "

  /** The measurements of `item` for the requested lengths: the resolutions
      rounded to two places, each output axis the requested length in pixels
      at that axis's rounded resolution, clamped to the source, and the crop
      anchored at the origin. */
  function Measure(item: SourceImage, requiredWidthCm: Option<real>, requiredHeightCm: Option<real>)
    : (m: Measurements)
    ensures m.srcWidthPx == item.width && m.srcHeightPx == item.height
    ensures m.srcResX == RoundTo2(item.horizontalResolution) && m.srcResY == RoundTo2(item.verticalResolution)
    ensures m.outWidthPx == CalculateDimension(item.width, m.srcResX, requiredWidthCm)
    ensures m.outHeightPx == CalculateDimension(item.height, m.srcResY, requiredHeightCm)
    ensures m.outWidthPx <= m.srcWidthPx && m.outHeightPx <= m.srcHeightPx
    ensures requiredWidthCm.None? ==> m.outWidthPx == m.srcWidthPx
    ensures requiredHeightCm.None? ==> m.outHeightPx == m.srcHeightPx
    ensures m.cropRect == Rect(0, 0, m.outWidthPx, m.outHeightPx)
  {
    var resX := RoundTo2(item.horizontalResolution);
    var resY := RoundTo2(item.verticalResolution);
    var outW := CalculateDimension(item.width, resX, requiredWidthCm);
    var outH := CalculateDimension(item.height, resY, requiredHeightCm);
    Measurements(resX, resY, item.width, item.height, outW, outH, Rect(0, 0, outW, outH))
  }

  /** The path `SetOutputFile` chooses: the input path itself when the suffix
      is null or empty, otherwise the suffixed path. */
  function OutputPathFor(path: string, suffix: Option<string>): (r: string)
    ensures suffix.None? || suffix.value == "" ==> r == path
    ensures suffix.Some? && suffix.value != "" ==> r == SuffixedPath(path, suffix.value)
  {
    if suffix.None? || suffix.value == "" then path else SuffixedPath(path, suffix.value)
  }

  /** With a plain suffix the output lands in the input's directory, with the
      input's extension, and only the stem grows by the suffix. */
  lemma OutputPathKeepsDirectoryAndExtension(path: string, suffix: string)
    requires suffix != "" && Separator !in suffix && '.' !in suffix && !EndsWithPoint(path)
    ensures var out := OutputPathFor(path, Some(suffix));
            && out != path
            && GetDirectoryName(out) == GetDirectoryName(path)
            && GetExtension(out) == GetExtension(path)
            && GetFileNameWithoutExtension(out) == GetFileNameWithoutExtension(path) + suffix
  {
    SuffixedPathKeepsParts(path, suffix);
    var out := OutputPathFor(path, Some(suffix));
    assert |GetFileNameWithoutExtension(out)| > |GetFileNameWithoutExtension(path)|;
  }

  /** The description `ToString` and `GetCropDescription` build from the
      record's fields. */
  function Describe(inputPath: string, outputPath: string, m: Measurements, whatIf: bool): (d: CropDescription)
    requires m.srcResX != 0.0 && m.srcResY != 0.0
    ensures d.prefix == if whatIf then WhatIfPrefix else ""
    ensures d.inputPath == inputPath && d.outputPath == outputPath
    ensures HasTwoDecimals(d.srcWidthCm) && HasTwoDecimals(d.srcHeightCm)
    ensures HasTwoDecimals(d.outWidthCm) && HasTwoDecimals(d.outHeightCm)
  {
    CropDescription(
      if whatIf then WhatIfPrefix else "",
      inputPath,
      ConvertPixelsToCms(m.srcWidthPx, m.srcResX),
      ConvertPixelsToCms(m.srcHeightPx, m.srcResY),
      outputPath,
      ConvertPixelsToCms(m.outWidthPx, m.srcResX),
      ConvertPixelsToCms(m.outHeightPx, m.srcResY))
  }

  /** At a positive resolution the described output is never longer than the
      described source, on either axis. */
  lemma DescribedOutputFits(inputPath: string, outputPath: string, item: SourceImage,
                            w: Option<real>, h: Option<real>, whatIf: bool)
    requires item.horizontalResolution >= 1.0 && item.verticalResolution >= 1.0
    ensures var m := Measure(item, w, h);
            && m.srcResX > 0.0 && m.srcResY > 0.0
            && Describe(inputPath, outputPath, m, whatIf).outWidthCm <= Describe(inputPath, outputPath, m, whatIf).srcWidthCm
            && Describe(inputPath, outputPath, m, whatIf).outHeightCm <= Describe(inputPath, outputPath, m, whatIf).srcHeightCm
  {
    var m := Measure(item, w, h);
    RoundTo2Monotone(1.0, item.horizontalResolution);
    RoundTo2Monotone(1.0, item.verticalResolution);
    RoundTo2Idempotent(1.0);
    PixelsToCmsMonotone(m.outWidthPx, m.srcWidthPx, m.srcResX);
    PixelsToCmsMonotone(m.outHeightPx, m.srcHeightPx, m.srcResY);
  }

  class FileContext {
    var InputPath: string
    var SrcResX: real
    var SrcResY: real
    var SrcWidthPx: int
    var SrcHeightPx: int
    var OutputPath: string
    var OutWidthPx: int
    var OutHeightPx: int
    var CropRect: Rect
    var Message: Option<FileMessage>

    /** The fields `FromSourceImage` sets, as one value. */
    function Measured(): Measurements
      reads this
    {
      Measurements(SrcResX, SrcResY, SrcWidthPx, SrcHeightPx, OutWidthPx, OutHeightPx, CropRect)
    }

    /** `new FileContext { InputPath = path }`: every other field at its default. */
    constructor(path: string)
      ensures InputPath == path && OutputPath == "" && Message == None
      ensures Measured() == Measurements(0.0, 0.0, 0, 0, 0, 0, Rect(0, 0, 0, 0))
    {
      InputPath := path;
      SrcResX, SrcResY := 0.0, 0.0;
      SrcWidthPx, SrcHeightPx := 0, 0;
      OutputPath := "";
      OutWidthPx, OutHeightPx := 0, 0;
      CropRect := Rect(0, 0, 0, 0);
      Message := None;
    }

    method FromSourceImage(item: SourceImage, requiredWidthCm: Option<real>, requiredHeightCm: Option<real>)
      modifies this
      ensures Measured() == Measure(item, requiredWidthCm, requiredHeightCm)
      ensures InputPath == old(InputPath) && OutputPath == old(OutputPath) && Message == old(Message)
    {
      SrcResX := RoundTo2(item.horizontalResolution);
      SrcResY := RoundTo2(item.verticalResolution);
      SrcWidthPx := item.width;
      SrcHeightPx := item.height;
      OutWidthPx := CalculateDimension(item.width, SrcResX, requiredWidthCm);
      OutHeightPx := CalculateDimension(item.height, SrcResY, requiredHeightCm);
      CropRect := Rect(0, 0, OutWidthPx, OutHeightPx);
    }

    /** Sets OutputPath and nothing else. */
    method SetOutputFile(path: string, suffix: Option<string>)
      modifies this
      ensures OutputPath == OutputPathFor(path, suffix)
      ensures InputPath == old(InputPath) && Measured() == old(Measured()) && Message == old(Message)
    {
      var outputPath := path;
      if !(suffix.None? || suffix.value == "") {
        var directory := GetDirectoryName(path);
        var name := GetFileNameWithoutExtension(path);
        var ext := GetExtension(path);
        name := name + suffix.value + ext;
        outputPath := Combine(directory, name);
      }
      OutputPath := outputPath;
    }

    /** `ToString(whatIf)`: the description of the record as it stands. */
    function ToDescription(whatIf: bool): CropDescription
      reads this
      requires SrcResX != 0.0 && SrcResY != 0.0
    {
      Describe(InputPath, OutputPath, Measured(), whatIf)
    }
  }
}
