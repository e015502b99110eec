/** The tool's entry point: parse, validate when parsing found no fault, then
    show help, show the faults, or crop every file the search pattern names.

    Reading and decoding a file, enumerating the files a search pattern
    matches, and saving an image are outside this model: a file arrives as its
    path with the decoded image's size and resolution, the enumeration is the
    parameter `glob`, and a save is reported as a `SaveRequest` instead of
    being performed. */
module Program {
  import opened Wrappers
  import opened AsciiText
  import opened Decimals
  import opened Constants
  import opened AppContexts
  import opened ArgProcessor
  import opened FileContexts
  import opened Paths
  import opened Utility
  import ArgProcessorTests

  /** A file the enumeration produced, with its decoded image. */
  datatype SourceFile = SourceFile(path: string, image: SourceImage)

  /** `sourceImage.Clone(region).Save(outputPath)`. */
  datatype SaveRequest = SaveRequest(region: Rect, outputPath: string)

  /** What `CropImageFile` does with one file: the message it prints and the
      save it performs, if any. */
  datatype FileReport = FileReport(message: FileMessage, save: Option<SaveRequest>)

  /** What a run does: help alone, help followed by the faults, or one report
      per file, in the enumeration's order. */
  datatype RunOutcome =
    | HelpShown
    | FaultsShown(faults: seq<string>)
    | FilesProcessed(reports: seq<FileReport>)

  /** The decision tree of `CropImageFile` for a configuration that passed
      validation (its minimum resolutions are positive). */
  function PlanCrop(cfg: Config, file: SourceFile): (r: FileReport)
    requires cfg.defaultMinResX > 0.0 && cfg.defaultMinResY > 0.0
    ensures r.save.Some? ==> !cfg.whatIf
  {
    var m := Measure(file.image, cfg.widthCm, cfg.heightCm);
    var outputPath := OutputPathFor(file.path, cfg.fileNameSuffix);
    if m.srcResX < cfg.defaultMinResX || m.srcResY < cfg.defaultMinResY then
      FileReport(BelowMinimumResolution(file.path, m.srcResX, m.srcResY), None)
    else if m.srcWidthPx == m.outWidthPx && m.srcHeightPx == m.outHeightPx then
      FileReport(NoChangesRequired(file.path), None)
    else
      FileReport(Cropped(Describe(file.path, outputPath, m, cfg.whatIf)),
                 if cfg.whatIf then None else Some(SaveRequest(m.cropRect, outputPath)))
  }

  /** `CropImageFile`: builds the file's record step by step and decides. */
  method CropImageFile(ctx: AppContext, file: SourceFile) returns (report: FileReport)
    requires ctx.DefaultMinResX > 0.0 && ctx.DefaultMinResY > 0.0
    ensures report == PlanCrop(ctx.Value(), file)
  {
    var fileContext := new FileContext(file.path);
    fileContext.FromSourceImage(file.image, ctx.WidthCm, ctx.HeightCm);
    fileContext.SetOutputFile(fileContext.InputPath, ctx.FileNameSuffix);
    var save: Option<SaveRequest> := None;
    if fileContext.SrcResX < ctx.DefaultMinResX || fileContext.SrcResY < ctx.DefaultMinResY {
      fileContext.Message := Some(BelowMinimumResolution(fileContext.InputPath, fileContext.SrcResX, fileContext.SrcResY));
    } else if fileContext.SrcWidthPx == fileContext.OutWidthPx && fileContext.SrcHeightPx == fileContext.OutHeightPx {
      fileContext.Message := Some(NoChangesRequired(fileContext.InputPath));
    } else {
      if !ctx.WhatIf {
        save := Some(SaveRequest(fileContext.CropRect, fileContext.OutputPath));
      }
      fileContext.Message := Some(Cropped(fileContext.ToDescription(ctx.WhatIf)));
    }
    report := FileReport(fileContext.Message.value, save);
  }

  /** The configuration `Main` acts on: parsed from a fresh context, then
      validated only when parsing recorded no fault. */
  function ValidatedConfig(args: seq<Option<string>>): Config {
    var parsed := ParseInto(Fresh(), args);
    if parsed.faulted then parsed else parsed.AddFaults(VerifyFaults(parsed))
  }

  /** Faults come from one phase only: either parsing recorded some and they
      are all there is, or parsing recorded none and the faults are exactly
      the validation's. The minimum resolutions stay at 100 dpi, so the
      resolution check never fires, and the configuration is consistent. */
  lemma FaultsFromOnePhase(args: seq<Option<string>>)
    ensures var parsed, c := ParseInto(Fresh(), args), ValidatedConfig(args);
            && (parsed.faulted ==> c == parsed && |c.faults| > 0)
            && (!parsed.faulted ==> c.faults == VerifyFaults(parsed) && c == parsed.AddFaults(c.faults))
            && (!parsed.faulted ==> MinResolutionFault !in c.faults)
            && c.defaultMinResX == DefaultMinResolution && c.defaultMinResY == DefaultMinResolution
            && c.Consistent()
  {
    ParseOnlyAppendsFaults(Fresh(), args);
    var parsed := ParseInto(Fresh(), args);
    if !parsed.faulted {
      assert parsed.faults == [];
    }
  }

  /** The decision for each file, in order. */
  function PlanFiles(cfg: Config, files: seq<SourceFile>): (r: seq<FileReport>)
    requires cfg.defaultMinResX > 0.0 && cfg.defaultMinResY > 0.0
  {
    seq(|files|, j requires 0 <= j < |files| => PlanCrop(cfg, files[j]))
  }

  /** The callback `Main` hands to the file enumeration: `CropImageFile` on
      each file in turn. */
  method CropFiles(ctx: AppContext, files: seq<SourceFile>) returns (reports: seq<FileReport>)
    requires ctx.DefaultMinResX > 0.0 && ctx.DefaultMinResY > 0.0
    ensures reports == PlanFiles(ctx.Value(), files)
  {
    reports := [];
    for i := 0 to |files|
      invariant reports == PlanFiles(ctx.Value(), files[..i])
    {
      var report := CropImageFile(ctx, files[i]);
      assert files[..i + 1] == files[..i] + [files[i]];
      reports := reports + [report];
    }
    assert files[..|files|] == files;
  }

  /** `Main`, with the enumeration of the files a search pattern matches as
      the parameter `glob`. */
  method RunTool(args: seq<Option<string>>, glob: Option<string> -> seq<SourceFile>) returns (outcome: RunOutcome)
    ensures outcome == Outcome(args, glob)
  {
    var ctx := Parse(args);
    FaultsFromOnePhase(args);
    if !ctx.Faulted {
      ctx.Verify();
    }
    assert ctx.Value() == ValidatedConfig(args);
    if ctx.ShowHelp {
      outcome := HelpShown;
    } else if ctx.Faulted {
      outcome := FaultsShown(ctx.Faults);
    } else {
      var files := glob(ctx.SearchPatterns);
      var reports := CropFiles(ctx, files);
      outcome := FilesProcessed(reports);
    }
  }

  /** What `Main` does for `args`. */
  function Outcome(args: seq<Option<string>>, glob: Option<string> -> seq<SourceFile>): RunOutcome {
    var c := ValidatedConfig(args);
    FaultsFromOnePhase(args);
    if c.showHelp then HelpShown
    else if c.faulted then FaultsShown(c.faults)
    else
      FilesProcessed(PlanFiles(c, glob(c.searchPatterns)))
  }

  // ---------------------------------------------------------------------------
  // Properties of one file

  /** A file below the minimum resolution is rejected; one whose output size
      is its source size needs no change; any other is cropped. A file is
      saved exactly when it is cropped outside WhatIf mode; the description
      carries the WhatIf prefix exactly in WhatIf mode; a save writes the
      measured crop rectangle, the top-left region of the output size, which
      is strictly smaller than the source on some axis, to the output path;
      with no target length nothing is saved. */
  lemma PlanCropCases(cfg: Config, file: SourceFile)
    requires cfg.defaultMinResX > 0.0 && cfg.defaultMinResY > 0.0
    ensures var r, m := PlanCrop(cfg, file), Measure(file.image, cfg.widthCm, cfg.heightCm);
            var below := m.srcResX < cfg.defaultMinResX || m.srcResY < cfg.defaultMinResY;
            && (r.message.BelowMinimumResolution? <==> below)
            && (r.message.NoChangesRequired? <==>
                  !below && m.outWidthPx == m.srcWidthPx && m.outHeightPx == m.srcHeightPx)
            && (r.message.Cropped? <==>
                  !below && (m.outWidthPx != m.srcWidthPx || m.outHeightPx != m.srcHeightPx))
            && (r.save.Some? <==> r.message.Cropped? && !cfg.whatIf)
            && (r.message.Cropped? ==>
                  && r.message.description.prefix == (if cfg.whatIf then WhatIfPrefix else "")
                  && r.message.description.inputPath == file.path
                  && r.message.description.outputPath == OutputPathFor(file.path, cfg.fileNameSuffix))
            && (r.save.Some? ==>
                  && r.save.value.region == m.cropRect
                  && r.save.value.outputPath == OutputPathFor(file.path, cfg.fileNameSuffix)
                  && r.save.value.region.x == 0 && r.save.value.region.y == 0
                  && r.save.value.region.width <= file.image.width
                  && r.save.value.region.height <= file.image.height
                  && (r.save.value.region.width < file.image.width
                      || r.save.value.region.height < file.image.height))
            && (cfg.widthCm.None? && cfg.heightCm.None? ==> r.save.None?)
  {
  }

  /** Which files are cropped, and to what: a file that passes the resolution
      check is cropped exactly when a requested length, in pixels at the
      file's rounded resolution, is below the source size on its axis; the
      saved region then has, on each axis, the requested pixel count when
      one was requested and is below the source size, and the source size
      otherwise. */
  lemma TargetDecidesCrop(cfg: Config, file: SourceFile)
    requires cfg.defaultMinResX > 0.0 && cfg.defaultMinResY > 0.0
    requires RoundTo2(file.image.horizontalResolution) >= cfg.defaultMinResX
    requires RoundTo2(file.image.verticalResolution) >= cfg.defaultMinResY
    ensures var r := PlanCrop(cfg, file);
            var resX, resY := RoundTo2(file.image.horizontalResolution), RoundTo2(file.image.verticalResolution);
            var narrower := cfg.widthCm.Some? && ConvertCmsToPixels(cfg.widthCm.value, resX) < file.image.width;
            var shorter := cfg.heightCm.Some? && ConvertCmsToPixels(cfg.heightCm.value, resY) < file.image.height;
            && (r.message.Cropped? <==> narrower || shorter)
            && (r.message.NoChangesRequired? <==> !narrower && !shorter)
            && (r.save.Some? ==>
                  && r.save.value.region.width
                       == (if narrower then ConvertCmsToPixels(cfg.widthCm.value, resX) else file.image.width)
                  && r.save.value.region.height
                       == (if shorter then ConvertCmsToPixels(cfg.heightCm.value, resY) else file.image.height))
  {
    PlanCropCases(cfg, file);
  }

  /** Without a suffix the cropped image overwrites its source file. */
  lemma NoSuffixOverwritesSource(cfg: Config, file: SourceFile)
    requires cfg.defaultMinResX > 0.0 && cfg.defaultMinResY > 0.0
    requires cfg.fileNameSuffix.None? || cfg.fileNameSuffix == Some("")
    ensures PlanCrop(cfg, file).save.Some? ==> PlanCrop(cfg, file).save.value.outputPath == file.path
  {
  }

  /** With a plain suffix the cropped image is written next to its source,
      with the same extension, never over it. */
  lemma SuffixKeepsSource(cfg: Config, file: SourceFile)
    requires cfg.defaultMinResX > 0.0 && cfg.defaultMinResY > 0.0
    requires cfg.fileNameSuffix.Some? && cfg.fileNameSuffix.value != ""
    requires Separator !in cfg.fileNameSuffix.value && '.' !in cfg.fileNameSuffix.value
    requires !EndsWithPoint(file.path)
    ensures var r := PlanCrop(cfg, file);
            r.save.Some? ==>
              && r.save.value.outputPath != file.path
              && GetDirectoryName(r.save.value.outputPath) == GetDirectoryName(file.path)
              && GetExtension(r.save.value.outputPath) == GetExtension(file.path)
  {
    OutputPathKeepsDirectoryAndExtension(file.path, cfg.fileNameSuffix.value);
  }

  // ---------------------------------------------------------------------------
  // Properties of a run

  /** Help wins over faults; faults are shown exactly when there are some and
      no help was asked for, and they are either the parser's or the single
      missing-dimension fault; files are processed exactly when parsing was
      clean, no help was asked for and a target length was given, one report
      per file. */
  lemma {:induction false} OutcomeCases(args: seq<Option<string>>, glob: Option<string> -> seq<SourceFile>)
    ensures var parsed, o := ParseInto(Fresh(), args), Outcome(args, glob);
            && (parsed.showHelp ==> o == HelpShown)
            && (o.FaultsShown? <==> !parsed.showHelp && (parsed.faulted || (parsed.widthCm.None? && parsed.heightCm.None?)))
            && (o.FaultsShown? ==> |o.faults| > 0)
            && (o.FaultsShown? && parsed.faulted ==> o.faults == parsed.faults)
            && (o.FaultsShown? && !parsed.faulted ==> o.faults == [NoDimensionFault])
            && (o.FilesProcessed? <==>
                  !parsed.showHelp && !parsed.faulted && (parsed.widthCm.Some? || parsed.heightCm.Some?))
            && (o.FilesProcessed? ==> |o.reports| == |glob(parsed.searchPatterns)|)
  {
    FaultsFromOnePhase(args);
    var parsed := ParseInto(Fresh(), args);
    if !parsed.faulted {
      assert VerifyFaults(parsed) == if parsed.widthCm.None? && parsed.heightCm.None? then [NoDimensionFault] else [];
    }
  }

  /** An unknown option is reported on its own, whatever follows it. */
  lemma UnknownOptionIsShown()
    ensures Outcome([Some("-r"), Some("0")], _ => []) == FaultsShown([InvalidOptionFault("-r")])
  {
    var c := Fresh().AddFault(InvalidOptionFault("-r"));
    ArgProcessorTests.ShortOption(Fresh(), "-r", "r");
    UnknownOptionIsOneFault(Fresh(), "-r");
    var args := [Some("-r"), Some("0")];
    assert args[1..] == [Some("0")];
    assert "0"[..1] == "0";
    assert Step(Machine(c, ExpectOption), Some("0")) == Running(Machine(c.(searchPatterns := Some("0")), ExpectOption));
    assert Run(Machine(Fresh(), ExpectOption), args) == Run(Machine(c, ExpectOption), [Some("0")]);
    assert ParseInto(Fresh(), args) == c.(searchPatterns := Some("0"));
  }

  /** Asking for help shows help, even when an unknown option faulted. */
  lemma HelpWinsOverFaults()
    ensures Outcome([Some("-x"), Some("-?")], _ => []) == HelpShown
  {
    var c := Fresh().AddFault(InvalidOptionFault("-x"));
    ArgProcessorTests.ShortOption(Fresh(), "-x", "x");
    UnknownOptionIsOneFault(Fresh(), "-x");
    var args := [Some("-x"), Some("-?")];
    assert args[1..] == [Some("-?")];
    ArgProcessorTests.ShortOption(c, "-?", "?");
    assert Step(Machine(c, ExpectOption), Some("-?")) == Running(Machine(c.(showHelp := true), ExpectOption));
    assert Run(Machine(Fresh(), ExpectOption), args) == Run(Machine(c, ExpectOption), [Some("-?")]);
    OutcomeCases(args, _ => []);
  }

  /** A clean command line with no target length is rejected with the single
      missing-dimension fault. */
  lemma MissingDimensionIsShown()
    ensures Outcome([Some("-s"), Some("-cropped"), Some("*.jpg")], _ => []) == FaultsShown([NoDimensionFault])
  {
    var args := [Some("-s"), Some("-cropped"), Some("*.jpg")];
    ArgProcessorTests.ShortOption(Fresh(), "-s", "s");
    var c := Fresh().(fileNameSuffix := Some("-cropped"));
    assert Step(Machine(Fresh(), ExpectSuffix), Some("-cropped")) == Running(Machine(c, ExpectOption));
    assert "*.jpg"[..1] == "*";
    assert Step(Machine(c, ExpectOption), Some("*.jpg"))
             == Running(Machine(c.(searchPatterns := Some("*.jpg")), ExpectOption));
    assert args[1..] == [Some("-cropped"), Some("*.jpg")] && args[1..][1..] == [Some("*.jpg")];
    assert Run(Machine(Fresh(), ExpectOption), args) == Run(Machine(Fresh(), ExpectSuffix), args[1..]);
    assert Run(Machine(Fresh(), ExpectSuffix), args[1..]) == Run(Machine(c, ExpectOption), [Some("*.jpg")]);
    assert ParseInto(Fresh(), args) == c.(searchPatterns := Some("*.jpg"));
    OutcomeCases(args, _ => []);
  }
}
