# CropScan in Dafny

CropScan is a command-line tool that crops scanned images to a physical size. A run looks like this:

- The user gives a width and/or a height in centimetres or inches (`-w 14.85cm`, `--height 4.5 in`), an optional file-name suffix (`-s -cropped`), a dry-run switch (`-wi`) and a search pattern (`*.jpg;*.png`).
- For every matching image, the tool computes how many pixels those lengths are at the image's resolution.
- It keeps the top-left region of that size, never enlarging the image.
- It saves the result over the source file or, when a suffix is given, next to it.

This project models the tool's core and proves what it promises. The core is:

- the argument parser: a four-state machine that collects faults instead of throwing;
- the length grammar and its conversion to centimetres;
- the configuration record with its fault list and post-parse validation;
- the pixel/length arithmetic;
- the per-file record;
- the decision logic of the entry point.

All lengths are C# `decimal` in the source, which is exact base-10 arithmetic. They are modelled as Dafny `real`. `Math.Round` uses banker's rounding, which `Decimals.RoundToEven` and `Decimals.RoundTo2` model exactly.

Layout, one module per file:

- `wrappers.dfy`: `Option` and `Result`.
- `text.dfy`: the string operations the source uses (`StartsWith`, `ToLowerInvariant`, `LastIndexOf`), on ASCII text.
- `decimals.dfy`: rounding and the decimal and Int32 ranges.
- `constants.dfy`: the constants, and the two anchored regular expressions of a length.
  - The expressions are stated both as a regex-shaped reference (`RegexMatches`) and as a hand-written recogniser (`Matches`).
  - The two are proved equal.
- `app_context.dfy`: the `AppContext` class, with the pure `Config` value it holds.
- `arg_processor.dfy`: `TryConvertLength`, the pure machine `Step`/`Run`/`ParseInto`, and the imperative `UseArgs`, `Parse`, `ProcessShortOption` and `ProcessLongOption`.
  - The imperative methods are proved to follow the machine.
  - The lemmas state what the machine promises.
- `arg_processor_tests.dfy`: the parser's unit tests as lemmas.
- `utility.dfy`: pixel/centimetre conversion and clamping.
- `paths.dfy`: the `System.IO.Path` operations `SetOutputFile` uses.
- `file_context.dfy`: the `FileContext` class.
- `program.dfy`: `Main` (as `RunTool`) and `CropImageFile`, with image decoding, file enumeration and saving abstracted.

Behaviours of the code that the model keeps as written:

- There is no resolution option. `-r` is an invalid option like any other.
- A file whose resolution is below the configured minimum (100 dpi by default, and no option changes it) is reported and skipped.
- `Verify` refers to a constant `MinResolution` that the constants file does not declare. The declared `MinAllowedResolution` (72) is used.
- `AppContext.cs` declares `FileSuffix` and `SearchPaths` (a list), while every use reads `FileNameSuffix` and a single `SearchPatterns` string. The model has the latter.
- `ConvertCmsToPixels` multiplies by the resolution and divides by 2.54 only, as written.
- The extra conditions on `src/Program.cs:66` compare each resolution with itself. They are always true, so only the size comparison decides "no changes are required".
- A flag that needs a value but is the last token leaves the parser waiting, with no fault.
- `ArgProcessor.Parse` and `AppContextExtensions.UseArgs` have the same body. The model has one loop, `UseArgs`, and `Parse` is `UseArgs` on a new context.
- `FileContext.ToString(bool)` and `Program.GetCropDescription` build the same text from the same fields. Both are `FileContexts.Describe`.

## Model

| member | source | states |
|---|---|---|
| `Decimals.RoundToEven` | src/Utility.cs:32 | the result is within one half of the input, and a tie goes to the even integer |
| `Decimals.RoundToEvenIsUnique` | src/Utility.cs:32 | any integer within one half of the input, and even on a tie, is the rounded value |
| `Decimals.RoundToEvenMonotone` | src/Utility.cs:32 | rounding never reverses the order of two values |
| `Decimals.RoundTo2` | src/Utility.cs:25 | the result has at most two decimals, is within 0.005 of the input, and a tie goes to an even number of hundredths |
| `Decimals.RoundTo2Monotone` | src/Utility.cs:25 | rounding to two places never reverses the order of two values |
| `Decimals.RoundTo2Idempotent` | src/ArgProcessor.cs:197 | a value that already has two decimals is unchanged |
| `Decimals.RoundTo2NonNegative` | src/ArgProcessor.cs:197 | rounding keeps a non-negative value non-negative |
| `AsciiText.ToLowerInvariant` | src/ArgProcessor.cs:85 | same length; each upper-case ASCII letter becomes its lower-case letter and every other character is kept |
| `AsciiText.LastIndexOf` | src/FileContext.cs:39-41 | None exactly when the character is absent; otherwise a position holding it with none after it |
| `AsciiText.LastIndexOfIs` | src/FileContext.cs:39-41 | the last occurrence is unique: any position holding the character with none after it is the one found |
| `Constants.Tokenize` | src/Constants.cs:12-13 | the token is cut into a run of number characters, a run of whitespace and the rest, which concatenate back to the token |
| `Constants.MatchesIsRegexMatch` | src/Constants.cs:10-18 | the recogniser accepts a token exactly when the anchored expression matches it |
| `Constants.RegexSplitIsTokenize` | src/Constants.cs:12-17 | whichever split the expression uses, the captured number is the recogniser's, so group 1 is unique |
| `Constants.BareNumberIsCm` | src/Constants.cs:14 | a number with no unit matches the centimetre expression, and group 1 is the whole token |
| `Constants.SpelledLength` | src/Constants.cs:13 | a number, any whitespace (none included) and a unit of the pattern match, with the parts as given |
| `Constants.InchUnitIsExact` | src/Constants.cs:15 | an inch match always ends in in, inch or inches, in any case |
| `Constants.PatternsAreDisjoint` | src/Constants.cs:14-18 | no token matches both expressions |
| `Constants.MatchIsAnchored` | src/Constants.cs:10-11 | a matching token starts with a digit or a point and holds nothing but digits, points, whitespace and letters |
| `AppContexts.VerifyFaults` | src/AppContext.cs:30-40 | one fault per failed check and no other: the dimension fault exactly when neither length is set, first when present; the resolution fault exactly when either minimum is below 72 |
| `AppContexts.AppContext.constructor` | src/AppContext.cs:21-28 | a new context has no faults, is not faulted, and has both minimum resolutions at 100 |
| `AppContexts.AppContext.AddFault` | src/AppContext.cs:52-56 | sets Faulted and appends exactly the message; the context is consistent afterwards |
| `AppContexts.AppContext.AddInvalidArgFault` | src/AppContext.cs:42-45 | appends one invalid-option fault, which quotes the token |
| `AppContexts.AppContext.AddExceptionFault` | src/AppContext.cs:47-50 | appends the exception's message as one fault |
| `AppContexts.AppContext.Verify` | src/AppContext.cs:30-40 | appends exactly the validation faults to the old state and keeps the Faulted/Faults invariant |
| `AppContexts.AddFaultKeepsEarlierFaults` | src/AppContext.cs:52-56 | adding a fault keeps every earlier fault in place, puts the new one last, and leaves the record consistent |
| `AppContexts.FreshVerifiesToOneFault` | src/AppContext.cs:26-27 | a fresh context is consistent and validation reports only the missing dimension |
| `ArgProcessor.DecimalParse` | src/ArgProcessor.cs:195 | a parsed length is never negative |
| `ArgProcessor.FractionParse` | src/ArgProcessor.cs:195 | `a.b` parses to a plus b over ten to the number of digits of b, even with a empty |
| `ArgProcessor.IntegerParse` | src/ArgProcessor.cs:195 | a run of digits parses to its integer value |
| `ArgProcessor.ConvertLength` | src/ArgProcessor.cs:188-200 | no value exactly when the expression does not match; an overflow fails with the decimal overflow message; a value has two decimals and is not negative |
| `ArgProcessor.ConvertMatched` | src/ArgProcessor.cs:192-197 | on a match, the result is group 1 times the factor rounded to two places, or the decimal overflow failure when the number or the product exceeds the decimal range |
| `ArgProcessor.TryConvertLength` | src/ArgProcessor.cs:175-186 | no value exactly when neither recogniser accepts the token; any value is non-negative with two decimals; failure only by decimal overflow |
| `ArgProcessor.NoLengthIsNoMatch` | src/ArgProcessor.cs:175-186 | no value exactly when neither anchored expression matches the token |
| `ArgProcessor.InchPatternDecides` | src/ArgProcessor.cs:180-184 | an inch token is converted by the inch expression alone, the centimetre one never matching it |
| `ArgProcessor.InchMatch` | src/ArgProcessor.cs:180-197 | an inch match converts to 2.54 times group 1 rounded to two places, or overflows |
| `ArgProcessor.CmLength` | src/ArgProcessor.cs:180 | a centimetre spelling converts to its number rounded to two places, or overflows |
| `ArgProcessor.InchLength` | src/ArgProcessor.cs:181-184 | an inch spelling converts to 2.54 times its number rounded to two places, or overflows |
| `ArgProcessor.SignedNumberIsRejected` | src/Constants.cs:12 | "-5" is not a length |
| `ArgProcessor.TrailingPointIsRejected` | src/Constants.cs:12 | "14." is not a length |
| `ArgProcessor.LeadingPointIsAccepted` | src/Constants.cs:12 | ".5" is 0.5 cm |
| `ArgProcessor.ProcessShortOption` | src/ArgProcessor.cs:79-114 | the context and state after a single-prefix option are those of the option table: -?, -wi, -h, -w, -s, anything else one invalid-option fault |
| `ArgProcessor.ProcessLongOption` | src/ArgProcessor.cs:116-151 | the same for the double-dash names help, whatif, height, width, suffix |
| `ArgProcessor.SetLength` | src/AppContextExtensions.cs:31-46 | without an exception the dimension holds the conversion and an unparsable token adds its one fault, exactly as the machine's step; an exception is handed back with the context unchanged |
| `ArgProcessor.UseArgs` | src/AppContextExtensions.cs:17-75 | the context after the loop is the machine's run over all tokens from the context's old value |
| `ArgProcessor.Parse` | src/ArgProcessor.cs:17-77 | a new context holding the machine's run from the fresh configuration |
| `ArgProcessor.RunAppend` | src/ArgProcessor.cs:25-70 | running over two lists is running over the first and then the second |
| `ArgProcessor.NullTokensAreSkipped` | src/ArgProcessor.cs:27-30 | a null token changes neither state nor configuration |
| `ArgProcessor.StepAppendsFaults` | src/ArgProcessor.cs:31-69 | one token adds at most one fault and never changes earlier ones; a throw happens only on a length token, with the decimal overflow message |
| `ArgProcessor.RunAppendsFaults` | src/ArgProcessor.cs:25-70 | the loop only appends faults, at most one per token |
| `ArgProcessor.ParseOnlyAppendsFaults` | src/AppContextExtensions.cs:17-75 | parsing into a context keeps its faults and appends at most one per token, and keeps the minimum resolutions and the Faulted/Faults invariant |
| `ArgProcessor.ExceptionEndsParsing` | src/ArgProcessor.cs:21-75 | after an exception the remaining tokens are ignored and exactly one fault with its message is added |
| `ArgProcessor.TrailingFlagAddsNoFault` | src/ArgProcessor.cs:53-61 | a value-taking option as the last token adds no fault |
| `ArgProcessor.ValueTokenReturnsToExpectOption` | src/ArgProcessor.cs:39-51 | after a width, height or suffix value the machine expects an option, whatever the token |
| `ArgProcessor.UnparsableLengthIsOneFault` | src/ArgProcessor.cs:33-48 | an unparsable length clears that dimension and adds exactly one fault that quotes the token |
| `ArgProcessor.UnknownOptionIsOneFault` | src/ArgProcessor.cs:104-111 | an unknown or bare option adds exactly one invalid-option fault quoting it, and the state stays ExpectOption |
| `ArgProcessor.LastSearchPatternWins` | src/ArgProcessor.cs:62-65 | tokens without a leading dash or slash add no fault, and the last one is the search pattern |
| `ArgProcessor.OptionsIgnoreCase` | src/ArgProcessor.cs:85 | two option tokens that differ only in letter case have the same effect when one of them is a recognised option |
| `ArgProcessorTests.EmptyArgsNoFault` | tests/ArgProcessorTests.cs:10-35 | no tokens, a null token and an empty token give no fault |
| `ArgProcessorTests.WidthInCentimetres` | tests/ArgProcessorTests.cs:38-45 | every centimetre spelling of 14.85 after -w sets the width to 14.85 |
| `ArgProcessorTests.WidthInInches` | tests/ArgProcessorTests.cs:46-49 | 4.5 in, 1.0 inch, 5 inches and 2.85in (after --width) give 11.43, 2.54, 12.7 and 7.24 |
| `ArgProcessorTests.HeightInCentimetres` | tests/ArgProcessorTests.cs:61-68 | every centimetre spelling of 14.85 after -h sets the height to 14.85 |
| `ArgProcessorTests.HeightInInches` | tests/ArgProcessorTests.cs:69-72 | 4.5 in, 1.0 inch, 5 inches and 2.6in (after --height) give 11.43, 2.54, 12.7 and 6.6 |
| `ArgProcessorTests.SearchPatternsArg` | tests/ArgProcessorTests.cs:82-91 | a bare token becomes the search pattern verbatim |
| `ArgProcessorTests.SuffixArg` | tests/ArgProcessorTests.cs:93-104 | -s and --suffix take the next token verbatim, even "" or "-cropped" |
| `ArgProcessorTests.WhatIfArg` | tests/ArgProcessorTests.cs:106-118 | -wi, -WI, --whatif and --WhatIf set WhatIf with no fault |
| `ArgProcessorTests.UpperCaseOptions` | src/ArgProcessor.cs:85-130 | "-WI" and "--WhatIf" each set WhatIf and record no fault: option names are lower-cased before they are compared |
| `ArgProcessorTests.MultipleArgs` | tests/ArgProcessorTests.cs:120-137 | the seven-token command line gives suffix -cropped, width 11.58, height 14.85, pattern *.jpg and no fault |
| `Utility.ConvertPixelsToCms` | src/Utility.cs:21-26 | the result has two decimals, is within 0.005 of the exact length, and on a tie is the even number of hundredths |
| `Utility.ConvertCmsToPixels` | src/Utility.cs:28-33 | the nearest integer to the exact pixel count, a tie going to the even one |
| `Utility.CalculateDimension` | src/Utility.cs:8-19 | never more than the source; the source with no target; otherwise the converted target, or the source when the target is larger |
| `Utility.CmsToPixelsMonotone` | src/Utility.cs:28-33 | at a positive resolution a longer length never gives fewer pixels |
| `Utility.PixelsToCmsMonotone` | src/Utility.cs:21-26 | at a positive resolution more pixels never give fewer centimetres |
| `Utility.CmsToPixelsNonNegative` | src/Utility.cs:28-33 | a non-negative length gives a non-negative pixel count |
| `Utility.CalculateDimensionMonotone` | src/Utility.cs:8-19 | a longer target never gives a smaller output |
| `Utility.CmsPixelsRoundTrip` | src/Utility.cs:21-33 | centimetres to pixels and back is off by at most 1.27 over the resolution plus 0.005 |
| `Utility.PixelsCmsRoundTrip` | src/Utility.cs:21-33 | pixels to centimetres and back is within one pixel at resolutions up to 254 dpi |
| `Utility.TwoCentimetresAt300Dpi` | src/Utility.cs:28-33 | 2 cm at 300 dpi is 236 pixels |
| `Utility.ToInt32` | src/Utility.cs:32 | succeeds exactly inside the 32-bit range, with the value unchanged, and otherwise fails with the Int32 overflow message |
| `Utility.CalculateDimensionAsWritten` | src/Utility.cs:8-33 | with no target, the source size; a failure only with a target: the decimal overflow message exactly when target × resolution leaves the `decimal` range, otherwise a failure exactly when the rounded pixel count leaves the 32-bit range, with the Int32 overflow message |
| `Utility.AsWrittenAgreesWithoutOverflow` | src/Utility.cs:8-33 | when the cast cannot throw, the code as written equals the clamped definition |
| `Utility.HugeTargetOverflows` | src/Utility.cs:32 | a 1,000,000,000 cm width on a 1000-pixel image at 100 dpi throws the Int32 overflow as written; the clamped definition gives 1000 |
| `Utility.HugeProductOverflowsDecimal` | src/Utility.cs:30 | a 10^27 cm width, within the `decimal` range, at 100 dpi throws the decimal overflow at the product, before the cast |
| `Paths.GetDirectoryName` | src/FileContext.cs:39 | None exactly when there is no separator; otherwise the part before the last one |
| `Paths.NameOfCombine` | src/FileContext.cs:44 | combining a directory and a name without separators gives back that directory and that name |
| `Paths.SplitJoin` | src/FileContext.cs:39-44 | directory, name without extension and extension join back into the path |
| `Paths.SuffixedName` | src/FileContext.cs:43 | the suffixed name's stem is the old stem plus the suffix, and its extension is unchanged |
| `Paths.SuffixedPathKeepsParts` | src/FileContext.cs:39-44 | the suffixed path keeps the directory and the extension and grows only the stem |
| `Paths.TrailingPointIsDropped` | src/FileContext.cs:40-43 | "file." with suffix "-x" becomes "file-x": a point at the end is not an extension |
| `FileContexts.Measure` | src/FileContext.cs:23-30 | source sizes copied; each resolution is `RoundTo2` of the image's; each output axis is `CalculateDimension` of the source size at that rounded resolution, so never larger than the source and equal without a target; crop anchored at the origin |
| `FileContexts.OutputPathFor` | src/FileContext.cs:35-47 | the input path with a null or empty suffix, the suffixed path otherwise |
| `FileContexts.OutputPathKeepsDirectoryAndExtension` | src/FileContext.cs:39-44 | with a plain suffix the output differs from the input but has its directory and extension, and the stem grows by the suffix |
| `FileContexts.Describe` | src/FileContext.cs:50-63 | the prefix is "WhatIf: " exactly in WhatIf mode; the paths are the record's; the lengths have two decimals |
| `FileContexts.DescribedOutputFits` | src/FileContext.cs:54-60 | the described output is never longer than the described source on either axis |
| `FileContexts.FileContext.constructor` | src/Program.cs:54 | only the input path is set |
| `FileContexts.FileContext.FromSourceImage` | src/FileContext.cs:21-31 | the record's measurements are those of `Measure`, and nothing else changes |
| `FileContexts.FileContext.SetOutputFile` | src/FileContext.cs:33-48 | the output path is `OutputPathFor`, and nothing else changes |
| `Program.PlanCrop` | src/Program.cs:59-79 | nothing is saved in WhatIf mode |
| `Program.CropImageFile` | src/Program.cs:48-88 | the message and save are the decision tree's for the context's configuration |
| `Program.PlanCropCases` | src/Program.cs:59-81 | rejected exactly when a resolution is below the minimum; otherwise no change exactly when the output size is the source size, and cropped exactly when it differs on some axis; saved exactly when cropped outside WhatIf; the description's prefix follows WhatIf; a save writes the measured crop rectangle, strictly smaller on some axis, to the output path; nothing is saved without a target |
| `Program.TargetDecidesCrop` | src/Program.cs:56-81 | a file passing the resolution check is cropped exactly when a requested length, in pixels at its rounded resolution, is below the source size on its axis; the saved region has the requested pixel count on such an axis and the source size on the other |
| `Program.NoSuffixOverwritesSource` | src/Program.cs:57 | with no suffix the crop is saved over its source file |
| `Program.SuffixKeepsSource` | src/Program.cs:57 | with a plain suffix the crop goes next to the source, with its extension, never over it |
| `Program.FaultsFromOnePhase` | src/Program.cs:12-16 | validation runs only when parsing was clean, so faults come from one phase; the resolution fault never arises |
| `Program.CropFiles` | src/Program.cs:28-32 | one report per enumerated file, in order, each the decision tree's for the configuration |
| `Program.RunTool` | src/Program.cs:10-34 | the run's outcome is `Outcome`: help, faults, or one report per enumerated file in order |
| `Program.OutcomeCases` | src/Program.cs:17-33 | help wins; faults are shown exactly when no help was asked and there are some, either the parser's or the single missing-dimension fault; files are processed exactly otherwise, one report each |
| `Program.UnknownOptionIsShown` | src/ArgProcessor.cs:104-106 | "-r 0" shows exactly the invalid-option fault for "-r" |
| `Program.HelpWinsOverFaults` | src/Program.cs:17-20 | "-x -?" shows help although "-x" faulted |
| `Program.MissingDimensionIsShown` | src/AppContext.cs:32-35 | "-s -cropped *.jpg" shows exactly the missing-dimension fault |

## Left out

- Console output is not modelled: `ShowHelp`, `ShowFaults` and the `Console.WriteLine` of a file's message. A run's outcome names what is shown, not the text.
- Reading and decoding an image, `Bitmap.Clone` and `Save` are not modelled. A file is its path plus width, height and two resolutions, and a save is a `SaveRequest`.
- The `(decimal)float` conversion of a bitmap's resolution is not modelled. The resolution arrives as an exact value.
- `ForEachFile` and the file-system globbing are not modelled. `RunTool` takes the enumeration as the function `glob` from the search pattern to files, and it is called once.
- `CropContext` is not modelled, because it has no behaviour and no uses.
- `Utility.GetDirectorySearchRequest` and the unused `Files` and `SearchPaths` collections are not modelled. The function's source is not part of this model, and its tests depend on the working and system directories.
- `AsciiText.StartsWith`: the source calls the culture-sensitive `String.StartsWith(string)` (src/ArgProcessor.cs:54 and 58). The model compares prefixes character by character, so characters a culture ignores, such as a leading '\0' under ICU, are not modelled.
- .NET text handling is not modelled:
  - text is ASCII;
  - `ToLowerInvariant` lower-cases ASCII letters only;
  - `\d` and `\s` are their ASCII classes;
  - `$` matches only at the very end;
  - `Decimal.Parse` reads ASCII digits with '.' as the separator.
- `decimal` is exact and unbounded below its maximum. Its 28–29 significant digits are not modelled. Exceeding the maximum is the only exception in the parse loop, reported with .NET's overflow message.
- `System.IO.Path` is reduced to one separator (`\`). Drive roots, '/' as a separator and invalid-character checks are not modelled. `GetDirectoryName` gives None where .NET gives an empty string.
- `FileContexts.Describe`: describes the values and the prefix of the text, but not how `decimal` values are printed or the quoting and spacing around them.
- `FileContexts.FileContext.constructor`: every field other than the input path starts at its .NET default (0, an empty rectangle, no message), except `OutputPath`, which starts as "" where .NET has null. `SetOutputFile` sets it before anything reads it.
- `Program.PlanCrop`: its own contract says only that WhatIf never saves. The rest of the decision tree is stated by `Program.PlanCropCases` and the lemmas beside it.
- `Program.CropImageFile`: the message is the structured `FileMessage`, not the formatted string.
- `Utility.ConvertCmsToPixels` and `Utility.ConvertPixelsToCms`: their products and quotients are exact reals, so the `decimal` overflow that src/Utility.cs:23 and :30 can throw is not part of these two functions. `Utility.CalculateDimensionAsWritten` models the overflow at :30, which a parsed target length can reach.
- `ArgProcessor.Parse` and `ArgProcessor.UseArgs`: the arguments are a sequence, which always exists. A null `args` array, for which the `foreach` at src/ArgProcessor.cs:25 throws and the `catch` at :72-75 records one exception fault, is not modelled. `Main` never passes null.
- `Program.RunTool` and `Utility.CalculateDimension` are stated with the clamped, unbounded pixel count. The 32-bit overflow that the source throws is modelled separately under Findings, and a thrown exception is not propagated out of `RunTool`.

## Findings

| source | as written | input that shows it | evidently intended | confidence | as-written member | corrected member |
|---|---|---|---|---|---|---|
| src/Utility.cs:32 | `(int)Math.Round(result)` converts the target's pixel count to a 32-bit integer before `CalculateDimension` clamps it to the source size. For a large enough target the conversion throws an `OverflowException` (a still larger one throws at the `decimal` product on line 30), which nothing in `Main` or `CropImageFile` catches. | `-w 1000000000` on a 1000-pixel-wide image at 100 dpi: 39,370,078,740 pixels | a target longer than the image leaves that axis at its source size | not executed | `Utility.CalculateDimensionAsWritten`, `Utility.HugeTargetOverflows` | `Utility.CalculateDimension` |
