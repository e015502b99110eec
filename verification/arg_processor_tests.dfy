/** The parser's unit tests, restated as lemmas about `ParseInto` on a fresh
    context: each proves the configuration the test asserts. */
module ArgProcessorTests {
  import opened Wrappers
  import opened AsciiText
  import opened Decimals
  import opened Constants
  import opened AppContexts
  import opened ArgProcessor

  // ---------------------------------------------------------------------------
  // Helpers: single tokens

  /** An option token with a single-character prefix naming `name`. */
  lemma ShortOption(c: Config, flag: string, name: string)
    requires |flag| == |name| + 1 && flag[0] == '-' && flag[1..] == name && |name| > 0 && name[0] != '-'
    requires forall i | 0 <= i < |name| :: !IsUpper(name[i])
    ensures Step(Machine(c, ExpectOption), Some(flag))
              == Running(ProcessOption(c, flag, ExpectOption, 1, ShortOptions))
    ensures OptionName(flag, 1) == Some(name)
  {
    assert flag[..1] == "-";
    assert flag[..2] != "--" by { assert flag[1] == name[0]; }
    LowerCaseIsUnchanged(name);
  }

  /** An option token with the two-character prefix naming `name`. */
  lemma LongOption(c: Config, flag: string, name: string)
    requires |flag| == |name| + 2 && flag[..2] == "--" && flag[2..] == name && |name| > 0
    ensures Step(Machine(c, ExpectOption), Some(flag))
              == Running(ProcessOption(c, flag, ExpectOption, 2, LongOptions))
    ensures OptionName(flag, 2) == Some(ToLowerInvariant(name))
  {
  }

  /** An option followed by a value it awaits, from a fresh context: the
      value's step decides the outcome. */
  lemma OptionThenValue(flag: string, state: State, value: string, next: Machine)
    requires Step(Machine(Fresh(), ExpectOption), Some(flag)) == Running(Machine(Fresh(), state))
    requires Step(Machine(Fresh(), state), Some(value)) == Running(next)
    ensures ParseInto(Fresh(), [Some(flag), Some(value)]) == next.config
  {
    var args := [Some(flag), Some(value)];
    assert args[1..] == [Some(value)] && args[1..][1..] == [];
    assert Run(Machine(Fresh(), ExpectOption), args) == Run(Machine(Fresh(), state), [Some(value)]);
    assert Run(Machine(Fresh(), state), [Some(value)]) == Run(next, []);
  }

  // ---------------------------------------------------------------------------
  // The tests

  /** No token, a null token and an empty token leave the context unfaulted. */
  lemma EmptyArgsNoFault()
    ensures ParseInto(Fresh(), []) == Fresh()
    ensures ParseInto(Fresh(), [None]) == Fresh()
    ensures ParseInto(Fresh(), [Some("")]) == Fresh().(searchPatterns := Some(""))
    ensures !ParseInto(Fresh(), [Some("")]).faulted
  {
    assert !StartsWith("", "-") && !StartsWith("", "/");
  }

  /** A length option and its value, from a fresh context, set that one
      dimension and record no fault. */
  lemma LengthOptionSets(flag: string, state: State, token: string, expected: real)
    requires state == ExpectWidth || state == ExpectHeight
    requires Step(Machine(Fresh(), ExpectOption), Some(flag)) == Running(Machine(Fresh(), state))
    requires TryConvertLength(token) == Success(Some(expected))
    ensures state == ExpectWidth ==>
              ParseInto(Fresh(), [Some(flag), Some(token)]) == Fresh().(widthCm := Some(expected))
    ensures state == ExpectHeight ==>
              ParseInto(Fresh(), [Some(flag), Some(token)]) == Fresh().(heightCm := Some(expected))
  {
    if state == ExpectWidth {
      OptionThenValue(flag, state, token, Machine(Fresh().(widthCm := Some(expected)), ExpectOption));
    } else {
      OptionThenValue(flag, state, token, Machine(Fresh().(heightCm := Some(expected)), ExpectOption));
    }
  }

  // ---------------------------------------------------------------------------
  // Helpers: the numbers and options the tests use

  lemma Digits()
    ensures DigitsValue("1") == 1 && DigitsValue("2") == 2 && DigitsValue("4") == 4
    ensures DigitsValue("5") == 5 && DigitsValue("6") == 6 && DigitsValue("0") == 0
    ensures DigitsValue("14") == 14 && DigitsValue("85") == 85 && DigitsValue("56") == 56
  {
    assert "14"[..1] == "1" && "85"[..1] == "8" && "56"[..1] == "5";
    assert "1"[..0] == "" && "8"[..0] == "" && "5"[..0] == "";
    assert "2"[..0] == "" && "4"[..0] == "" && "6"[..0] == "" && "0"[..0] == "";
  }

  /** How the test tokens are spelled. */
  lemma Spellings()
    ensures "14.85" + "" + "" == "14.85"
    ensures "14.85" + "" + "cm" == "14.85cm"
    ensures "14.85" + " " + "cm" == "14.85 cm"
    ensures "14.85" + "  " + "cm" == "14.85  cm"
    ensures "14.85" + " " + "centimetre" == "14.85 centimetre"
    ensures "14.85" + " " + "centimeter" == "14.85 centimeter"
    ensures "14.85" + " " + "centimetres" == "14.85 centimetres"
    ensures "14.85" + " " + "centimeters" == "14.85 centimeters"
    ensures "4.5" + " " + "in" == "4.5 in"
    ensures "1.0" + " " + "inch" == "1.0 inch"
    ensures "5" + " " + "inches" == "5 inches"
    ensures "2.85" + "" + "in" == "2.85in"
    ensures "2.6" + "" + "in" == "2.6in"
    ensures "4.56" + "" + "in" == "4.56in"
  {
  }

  /** `a.b` read as the number whose parts are `ia` and `ib`, with `p` the
      power of ten of `b`'s length. */
  lemma FractionIs(a: string, b: string, t: string, ia: nat, ib: nat, p: nat, value: real)
    requires AllDigits(a) && AllDigits(b) && |b| > 0 && t == a + "." + b
    requires DigitsValue(a) == ia && DigitsValue(b) == ib && Pow10(|b|) == p
    requires value == ia as real + ib as real / p as real
    ensures IsDecimalDigits(t) && DecimalParse(t) == value
  {
    FractionParse(a, b);
  }

  lemma Number1485()
    ensures IsDecimalDigits("14.85") && DecimalParse("14.85") == 14.85
  {
    Digits();
    FractionIs("14", "85", "14.85", 14, 85, 100, 14.85);
  }

  lemma Number45()
    ensures IsDecimalDigits("4.5") && DecimalParse("4.5") == 4.5
  {
    Digits();
    FractionIs("4", "5", "4.5", 4, 5, 10, 4.5);
  }

  lemma Number10()
    ensures IsDecimalDigits("1.0") && DecimalParse("1.0") == 1.0
  {
    Digits();
    FractionIs("1", "0", "1.0", 1, 0, 10, 1.0);
  }

  lemma Number285()
    ensures IsDecimalDigits("2.85") && DecimalParse("2.85") == 2.85
  {
    Digits();
    FractionIs("2", "85", "2.85", 2, 85, 100, 2.85);
  }

  lemma Number26()
    ensures IsDecimalDigits("2.6") && DecimalParse("2.6") == 2.6
  {
    Digits();
    FractionIs("2", "6", "2.6", 2, 6, 10, 2.6);
  }

  lemma Number456()
    ensures IsDecimalDigits("4.56") && DecimalParse("4.56") == 4.56
  {
    Digits();
    FractionIs("4", "56", "4.56", 4, 56, 100, 4.56);
  }

  lemma Numbers()
    ensures IsDecimalDigits("4.5") && DecimalParse("4.5") == 4.5
    ensures IsDecimalDigits("1.0") && DecimalParse("1.0") == 1.0
    ensures IsDecimalDigits("5") && DecimalParse("5") == 5.0
    ensures IsDecimalDigits("2.85") && DecimalParse("2.85") == 2.85
    ensures IsDecimalDigits("2.6") && DecimalParse("2.6") == 2.6
    ensures IsDecimalDigits("4.56") && DecimalParse("4.56") == 4.56
  {
    Number45();
    Number10();
    Digits();
    IntegerParse("5");
    Number285();
    Number26();
    Number456();
  }

  /** The roundings the expected values come from; 7.239, 6.604 and 11.5824
      are not ties, so they round to the nearest hundredth. */
  lemma Roundings()
    ensures RoundTo2(4.5 * CmsPerInch) == 11.43
    ensures RoundTo2(1.0 * CmsPerInch) == 2.54 && RoundTo2(5.0 * CmsPerInch) == 12.7
    ensures RoundTo2(2.85 * CmsPerInch) == 7.24 && RoundTo2(2.6 * CmsPerInch) == 6.6
    ensures RoundTo2(4.56 * CmsPerInch) == 11.58
  {
    RoundTo2Idempotent(11.43);
    RoundTo2Idempotent(2.54);
    RoundTo2Idempotent(12.7);
    RoundToEvenIsUnique(723.9, 724);
    RoundToEvenIsUnique(660.4, 660);
    RoundToEvenIsUnique(1158.24, 1158);
  }

  /** The options that await a value, in both spellings. */
  lemma Options(c: Config)
    ensures Step(Machine(c, ExpectOption), Some("-w")) == Running(Machine(c, ExpectWidth))
    ensures Step(Machine(c, ExpectOption), Some("-h")) == Running(Machine(c, ExpectHeight))
    ensures Step(Machine(c, ExpectOption), Some("-s")) == Running(Machine(c, ExpectSuffix))
    ensures Step(Machine(c, ExpectOption), Some("--width")) == Running(Machine(c, ExpectWidth))
    ensures Step(Machine(c, ExpectOption), Some("--height")) == Running(Machine(c, ExpectHeight))
    ensures Step(Machine(c, ExpectOption), Some("--suffix")) == Running(Machine(c, ExpectSuffix))
  {
    ShortValueOptions(c);
    LongValueOptions(c);
  }

  lemma ShortValueOptions(c: Config)
    ensures Step(Machine(c, ExpectOption), Some("-w")) == Running(Machine(c, ExpectWidth))
    ensures Step(Machine(c, ExpectOption), Some("-h")) == Running(Machine(c, ExpectHeight))
    ensures Step(Machine(c, ExpectOption), Some("-s")) == Running(Machine(c, ExpectSuffix))
  {
    ShortOption(c, "-w", "w");
    ShortOption(c, "-h", "h");
    ShortOption(c, "-s", "s");
  }

  lemma LongValueOptions(c: Config)
    ensures Step(Machine(c, ExpectOption), Some("--width")) == Running(Machine(c, ExpectWidth))
    ensures Step(Machine(c, ExpectOption), Some("--height")) == Running(Machine(c, ExpectHeight))
    ensures Step(Machine(c, ExpectOption), Some("--suffix")) == Running(Machine(c, ExpectSuffix))
  {
    LongOption(c, "--width", "width");
    LowerCaseIsUnchanged("width");
    LongOption(c, "--height", "height");
    LowerCaseIsUnchanged("height");
    LongOption(c, "--suffix", "suffix");
    LowerCaseIsUnchanged("suffix");
  }

  lemma Units()
    ensures IsUnit(CmPattern, "") && IsUnit(CmPattern, "cm")
    ensures IsUnit(CmPattern, "centimetre") && IsUnit(CmPattern, "centimeter")
    ensures IsUnit(CmPattern, "centimetres") && IsUnit(CmPattern, "centimeters")
    ensures IsUnit(InPattern, "in") && IsUnit(InPattern, "inch") && IsUnit(InPattern, "inches")
    ensures AllWhitespace("") && AllWhitespace(" ") && AllWhitespace("  ")
  {
    LowerCaseIsUnchanged("cm");
    LowerCaseIsUnchanged("centimetre");
    LowerCaseIsUnchanged("centimeter");
    LowerCaseIsUnchanged("centimetres");
    LowerCaseIsUnchanged("centimeters");
    LowerCaseIsUnchanged("in");
    LowerCaseIsUnchanged("inch");
    LowerCaseIsUnchanged("inches");
  }

  /** 14.85 spelled with any whitespace and centimetre unit. */
  lemma CmToken1485(w: string, u: string)
    requires AllWhitespace(w) && IsUnit(CmPattern, u)
    ensures TryConvertLength("14.85" + w + u) == Success(Some(14.85))
  {
    Number1485();
    RoundTo2Idempotent(14.85);
    CmLength("14.85", w, u);
  }

  /** The value tokens of the width and height tests in centimetres. */
  lemma CmTokens()
    ensures TryConvertLength("14.85") == Success(Some(14.85))
    ensures TryConvertLength("14.85cm") == Success(Some(14.85))
    ensures TryConvertLength("14.85 cm") == Success(Some(14.85))
    ensures TryConvertLength("14.85  cm") == Success(Some(14.85))
    ensures TryConvertLength("14.85 centimetre") == Success(Some(14.85))
    ensures TryConvertLength("14.85 centimeter") == Success(Some(14.85))
    ensures TryConvertLength("14.85 centimetres") == Success(Some(14.85))
    ensures TryConvertLength("14.85 centimeters") == Success(Some(14.85))
  {
    Units();
    Spellings();
    CmToken1485("", "");
    CmToken1485("", "cm");
    CmToken1485(" ", "cm");
    CmToken1485("  ", "cm");
    CmToken1485(" ", "centimetre");
    CmToken1485(" ", "centimeter");
    CmToken1485(" ", "centimetres");
    CmToken1485(" ", "centimeters");
  }

  /** A number in inches, spelled with any whitespace and inch unit. */
  lemma InchToken(n: string, w: string, u: string, expected: real)
    requires IsDecimalDigits(n) && AllWhitespace(w) && IsUnit(InPattern, u)
    requires DecimalParse(n) <= 5.0 && RoundTo2(DecimalParse(n) * CmsPerInch) == expected
    ensures TryConvertLength(n + w + u) == Success(Some(expected))
  {
    InchLength(n, w, u);
  }

  /** The value tokens of the width and height tests in inches. */
  lemma InchTokens()
    ensures TryConvertLength("4.5 in") == Success(Some(11.43))
    ensures TryConvertLength("1.0 inch") == Success(Some(2.54))
    ensures TryConvertLength("5 inches") == Success(Some(12.7))
    ensures TryConvertLength("2.85in") == Success(Some(7.24))
    ensures TryConvertLength("2.6in") == Success(Some(6.6))
    ensures TryConvertLength("4.56in") == Success(Some(11.58))
  {
    Numbers();
    Roundings();
    Units();
    Spellings();
    InchToken("4.5", " ", "in", 11.43);
    InchToken("1.0", " ", "inch", 2.54);
    InchToken("5", " ", "inches", 12.7);
    InchToken("2.85", "", "in", 7.24);
    InchToken("2.6", "", "in", 6.6);
    InchToken("4.56", "", "in", 11.58);
  }

  /** One step at the head of the list. */
  lemma RunCons(m: Machine, arg: Option<string>, rest: seq<Option<string>>, next: Machine)
    requires Step(m, arg) == Running(next)
    ensures Run(m, [arg] + rest) == Run(next, rest)
  {
    assert ([arg] + rest)[0] == arg && ([arg] + rest)[1..] == rest;
  }

  lemma LowerCasedNames()
    ensures ToLowerInvariant("WI") == "wi" && ToLowerInvariant("WhatIf") == "whatif"
    ensures ToLowerInvariant("wi") == "wi" && ToLowerInvariant("whatif") == "whatif"
  {
    LowerCaseIsUnchanged("wi");
    LowerCaseIsUnchanged("whatif");
    var a, b := ToLowerInvariant("WI"), ToLowerInvariant("WhatIf");
    assert a[0] == 'w' && a[1] == 'i';
    assert b[0] == 'w' && b[1] == 'h' && b[2] == 'a' && b[3] == 't' && b[4] == 'i' && b[5] == 'f';
  }

  // ---------------------------------------------------------------------------
  // The tests

  /** `UseArgs_WidthArgTest`, the centimetre rows. */
  lemma WidthInCentimetres()
    ensures ParseInto(Fresh(), [Some("-w"), Some("14.85")]) == Fresh().(widthCm := Some(14.85))
    ensures ParseInto(Fresh(), [Some("-w"), Some("14.85cm")]) == Fresh().(widthCm := Some(14.85))
    ensures ParseInto(Fresh(), [Some("-w"), Some("14.85 cm")]) == Fresh().(widthCm := Some(14.85))
    ensures ParseInto(Fresh(), [Some("-w"), Some("14.85  cm")]) == Fresh().(widthCm := Some(14.85))
    ensures ParseInto(Fresh(), [Some("-w"), Some("14.85 centimetre")]) == Fresh().(widthCm := Some(14.85))
    ensures ParseInto(Fresh(), [Some("-w"), Some("14.85 centimeter")]) == Fresh().(widthCm := Some(14.85))
    ensures ParseInto(Fresh(), [Some("-w"), Some("14.85 centimetres")]) == Fresh().(widthCm := Some(14.85))
    ensures ParseInto(Fresh(), [Some("-w"), Some("14.85 centimeters")]) == Fresh().(widthCm := Some(14.85))
  {
    Options(Fresh());
    CmTokens();
    LengthOptionSets("-w", ExpectWidth, "14.85", 14.85);
    LengthOptionSets("-w", ExpectWidth, "14.85cm", 14.85);
    LengthOptionSets("-w", ExpectWidth, "14.85 cm", 14.85);
    LengthOptionSets("-w", ExpectWidth, "14.85  cm", 14.85);
    LengthOptionSets("-w", ExpectWidth, "14.85 centimetre", 14.85);
    LengthOptionSets("-w", ExpectWidth, "14.85 centimeter", 14.85);
    LengthOptionSets("-w", ExpectWidth, "14.85 centimetres", 14.85);
    LengthOptionSets("-w", ExpectWidth, "14.85 centimeters", 14.85);
  }

  /** `UseArgs_WidthArgTest`, the inch rows. */
  lemma WidthInInches()
    ensures ParseInto(Fresh(), [Some("-w"), Some("4.5 in")]) == Fresh().(widthCm := Some(11.43))
    ensures ParseInto(Fresh(), [Some("-w"), Some("1.0 inch")]) == Fresh().(widthCm := Some(2.54))
    ensures ParseInto(Fresh(), [Some("-w"), Some("5 inches")]) == Fresh().(widthCm := Some(12.7))
    ensures ParseInto(Fresh(), [Some("--width"), Some("2.85in")]) == Fresh().(widthCm := Some(7.24))
  {
    Options(Fresh());
    InchTokens();
    LengthOptionSets("-w", ExpectWidth, "4.5 in", 11.43);
    LengthOptionSets("-w", ExpectWidth, "1.0 inch", 2.54);
    LengthOptionSets("-w", ExpectWidth, "5 inches", 12.7);
    LengthOptionSets("--width", ExpectWidth, "2.85in", 7.24);
  }

  /** `UseArgs_HeightArgTest`, the centimetre rows. */
  lemma HeightInCentimetres()
    ensures ParseInto(Fresh(), [Some("-h"), Some("14.85")]) == Fresh().(heightCm := Some(14.85))
    ensures ParseInto(Fresh(), [Some("-h"), Some("14.85cm")]) == Fresh().(heightCm := Some(14.85))
    ensures ParseInto(Fresh(), [Some("-h"), Some("14.85 cm")]) == Fresh().(heightCm := Some(14.85))
    ensures ParseInto(Fresh(), [Some("-h"), Some("14.85  cm")]) == Fresh().(heightCm := Some(14.85))
    ensures ParseInto(Fresh(), [Some("-h"), Some("14.85 centimetre")]) == Fresh().(heightCm := Some(14.85))
    ensures ParseInto(Fresh(), [Some("-h"), Some("14.85 centimeter")]) == Fresh().(heightCm := Some(14.85))
    ensures ParseInto(Fresh(), [Some("-h"), Some("14.85 centimetres")]) == Fresh().(heightCm := Some(14.85))
    ensures ParseInto(Fresh(), [Some("-h"), Some("14.85 centimeters")]) == Fresh().(heightCm := Some(14.85))
  {
    Options(Fresh());
    CmTokens();
    LengthOptionSets("-h", ExpectHeight, "14.85", 14.85);
    LengthOptionSets("-h", ExpectHeight, "14.85cm", 14.85);
    LengthOptionSets("-h", ExpectHeight, "14.85 cm", 14.85);
    LengthOptionSets("-h", ExpectHeight, "14.85  cm", 14.85);
    LengthOptionSets("-h", ExpectHeight, "14.85 centimetre", 14.85);
    LengthOptionSets("-h", ExpectHeight, "14.85 centimeter", 14.85);
    LengthOptionSets("-h", ExpectHeight, "14.85 centimetres", 14.85);
    LengthOptionSets("-h", ExpectHeight, "14.85 centimeters", 14.85);
  }

  /** `UseArgs_HeightArgTest`, the inch rows. */
  lemma HeightInInches()
    ensures ParseInto(Fresh(), [Some("-h"), Some("4.5 in")]) == Fresh().(heightCm := Some(11.43))
    ensures ParseInto(Fresh(), [Some("-h"), Some("1.0 inch")]) == Fresh().(heightCm := Some(2.54))
    ensures ParseInto(Fresh(), [Some("-h"), Some("5 inches")]) == Fresh().(heightCm := Some(12.7))
    ensures ParseInto(Fresh(), [Some("--height"), Some("2.6in")]) == Fresh().(heightCm := Some(6.6))
  {
    Options(Fresh());
    InchTokens();
    LengthOptionSets("-h", ExpectHeight, "4.5 in", 11.43);
    LengthOptionSets("-h", ExpectHeight, "1.0 inch", 2.54);
    LengthOptionSets("-h", ExpectHeight, "5 inches", 12.7);
    LengthOptionSets("--height", ExpectHeight, "2.6in", 6.6);
  }

  /** `UseArgs_SearchPatternsArgTests`. */
  lemma SearchPatternsArg()
    ensures ParseInto(Fresh(), [Some("*.jpg;*.png")]) == Fresh().(searchPatterns := Some("*.jpg;*.png"))
  {
    assert "*.jpg;*.png"[..1] == "*";
    LastSearchPatternWins(Fresh(), [Some("*.jpg;*.png")]);
  }

  /** `UseArgs_SuffixArgTests`: the value is taken verbatim, even when it is
      empty or starts with '-'. */
  lemma SuffixArg()
    ensures ParseInto(Fresh(), [Some("-s"), Some("")]) == Fresh().(fileNameSuffix := Some(""))
    ensures ParseInto(Fresh(), [Some("-s"), Some("-cropped")]) == Fresh().(fileNameSuffix := Some("-cropped"))
    ensures ParseInto(Fresh(), [Some("--suffix"), Some("-cropped")]) == Fresh().(fileNameSuffix := Some("-cropped"))
  {
    Options(Fresh());
    SuffixValueStep(Fresh(), "");
    SuffixValueStep(Fresh(), "-cropped");
    OptionThenValue("-s", ExpectSuffix, "", Machine(Fresh().(fileNameSuffix := Some("")), ExpectOption));
    OptionThenValue("-s", ExpectSuffix, "-cropped", Machine(Fresh().(fileNameSuffix := Some("-cropped")), ExpectOption));
    OptionThenValue("--suffix", ExpectSuffix, "-cropped", Machine(Fresh().(fileNameSuffix := Some("-cropped")), ExpectOption));
  }

  /** `UseArgs_WhatIfArgTests`: the option is recognised in any case. */
  lemma WhatIfArg()
    ensures ParseInto(Fresh(), [Some("-wi")]) == Fresh().(whatIf := true)
    ensures ParseInto(Fresh(), [Some("-WI")]) == Fresh().(whatIf := true)
    ensures ParseInto(Fresh(), [Some("--whatif")]) == Fresh().(whatIf := true)
    ensures ParseInto(Fresh(), [Some("--WhatIf")]) == Fresh().(whatIf := true)
  {
    LowerCasedNames();
    var m := Machine(Fresh().(whatIf := true), ExpectOption);
    ShortOption(Fresh(), "-wi", "wi");
    RunCons(Machine(Fresh(), ExpectOption), Some("-wi"), [], m);
    assert "-WI"[..1] == "-" && "-WI"[..2] != "--" && "-WI"[1..] == "WI";
    RunCons(Machine(Fresh(), ExpectOption), Some("-WI"), [], m);
    LongOption(Fresh(), "--whatif", "whatif");
    RunCons(Machine(Fresh(), ExpectOption), Some("--whatif"), [], m);
    LongOption(Fresh(), "--WhatIf", "WhatIf");
    RunCons(Machine(Fresh(), ExpectOption), Some("--WhatIf"), [], m);
    assert [Some("-wi")] == [Some("-wi")] + [];
    assert [Some("-WI")] == [Some("-WI")] + [];
    assert [Some("--whatif")] == [Some("--whatif")] + [];
    assert [Some("--WhatIf")] == [Some("--WhatIf")] + [];
  }

  /** Option names are recognised in upper case: "-WI" and "--WhatIf" set
      WhatIf and record no fault. */
  lemma UpperCaseOptions()
    ensures ParseInto(Fresh(), [Some("-WI")]).whatIf && !ParseInto(Fresh(), [Some("-WI")]).faulted
    ensures ParseInto(Fresh(), [Some("--WhatIf")]).whatIf && !ParseInto(Fresh(), [Some("--WhatIf")]).faulted
  {
    WhatIfArg();
  }

  /** A width or height value that converts sets that field. */
  lemma LengthValueStep(c: Config, token: string, v: real)
    requires TryConvertLength(token) == Success(Some(v))
    ensures Step(Machine(c, ExpectWidth), Some(token)) == Running(Machine(c.(widthCm := Some(v)), ExpectOption))
    ensures Step(Machine(c, ExpectHeight), Some(token)) == Running(Machine(c.(heightCm := Some(v)), ExpectOption))
  {
  }

  /** A suffix value is taken verbatim. */
  lemma SuffixValueStep(c: Config, token: string)
    ensures Step(Machine(c, ExpectSuffix), Some(token)) == Running(Machine(c.(fileNameSuffix := Some(token)), ExpectOption))
  {
  }

  lemma MultipleArgsShape()
    ensures [Some("-s"), Some("-cropped"), Some("-w"), Some("4.56in"), Some("-h"), Some("14.85 cm"), Some("*.jpg")]
            == [Some("-s")] + ([Some("-cropped")] + ([Some("-w")] + ([Some("4.56in")]
               + ([Some("-h")] + ([Some("14.85 cm")] + [Some("*.jpg")])))))
  {
  }

  lemma MultipleArgsFirstHalf(rest: seq<Option<string>>)
    ensures Run(Machine(Fresh(), ExpectOption), [Some("-s")] + ([Some("-cropped")] + ([Some("-w")] + ([Some("4.56in")] + rest))))
            == Run(Machine(Fresh().(fileNameSuffix := Some("-cropped"), widthCm := Some(11.58)), ExpectOption), rest)
  {
    var c1 := Fresh().(fileNameSuffix := Some("-cropped"));
    Options(Fresh());
    Options(c1);
    InchTokens();
    LengthValueStep(c1, "4.56in", 11.58);
    SuffixValueStep(Fresh(), "-cropped");
    var tail3 := [Some("4.56in")] + rest;
    var tail2 := [Some("-w")] + tail3;
    var tail1 := [Some("-cropped")] + tail2;
    RunCons(Machine(Fresh(), ExpectOption), Some("-s"), tail1, Machine(Fresh(), ExpectSuffix));
    RunCons(Machine(Fresh(), ExpectSuffix), Some("-cropped"), tail2, Machine(c1, ExpectOption));
    RunCons(Machine(c1, ExpectOption), Some("-w"), tail3, Machine(c1, ExpectWidth));
    RunCons(Machine(c1, ExpectWidth), Some("4.56in"), rest, Machine(c1.(widthCm := Some(11.58)), ExpectOption));
  }

  lemma MultipleArgsHeight(c: Config, rest: seq<Option<string>>)
    ensures Run(Machine(c, ExpectOption), [Some("-h")] + ([Some("14.85 cm")] + rest))
            == Run(Machine(c.(heightCm := Some(14.85)), ExpectOption), rest)
  {
    Options(c);
    CmTokens();
    LengthValueStep(c, "14.85 cm", 14.85);
    RunCons(Machine(c, ExpectOption), Some("-h"), [Some("14.85 cm")] + rest, Machine(c, ExpectHeight));
    RunCons(Machine(c, ExpectHeight), Some("14.85 cm"), rest, Machine(c.(heightCm := Some(14.85)), ExpectOption));
  }

  lemma MultipleArgsSecondHalf(c: Config)
    ensures Run(Machine(c, ExpectOption), [Some("-h")] + ([Some("14.85 cm")] + [Some("*.jpg")]))
            == Running(Machine(c.(heightCm := Some(14.85), searchPatterns := Some("*.jpg")), ExpectOption))
  {
    MultipleArgsHeight(c, [Some("*.jpg")]);
    assert "*.jpg"[..1] == "*";
    LastSearchPatternWins(c.(heightCm := Some(14.85)), [Some("*.jpg")]);
  }

  /** `UseArgs_MultipleArgsTests`: every option lands in its own field. */
  lemma MultipleArgs()
    ensures ParseInto(Fresh(), [Some("-s"), Some("-cropped"), Some("-w"), Some("4.56in"),
                                Some("-h"), Some("14.85 cm"), Some("*.jpg")])
            == Fresh().(fileNameSuffix := Some("-cropped"), widthCm := Some(11.58),
                        heightCm := Some(14.85), searchPatterns := Some("*.jpg"))
  {
    MultipleArgsShape();
    MultipleArgsFirstHalf([Some("-h")] + ([Some("14.85 cm")] + [Some("*.jpg")]));
    MultipleArgsSecondHalf(Fresh().(fileNameSuffix := Some("-cropped"), widthCm := Some(11.58)));
  }
}
