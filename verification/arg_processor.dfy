/** The command-line parser: a four-state machine that reads the argument list
    left to right, fills in an AppContext and records faults instead of
    throwing.

    `ArgProcessor.Parse` and `AppContextExtensions.UseArgs` have the same loop,
    the same option handlers and the same length converter, character for
    character; `Parse` runs it on a new context and `UseArgs` on a context it
    is given. Both are modelled here: one loop (`UseArgs`), with `Parse` as
    `UseArgs` on a fresh context.

    The specification is the pure machine `Step`/`Run`/`ParseInto`; the methods
    are proved to follow it, and the lemmas state what the machine promises. */
module ArgProcessor {
  import opened Wrappers
  import opened AsciiText
  import opened Decimals
  import opened Constants
  import opened AppContexts

  // ---------------------------------------------------------------------------
  // Decimal.Parse of a captured number

  function DigitValue(c: char): nat
    requires IsDigit(c)
  {
    c as int - '0' as int
  }

  function DigitsValue(s: string): nat
    requires AllDigits(s)
  {
    if s == [] then 0 else DigitsValue(s[..|s| - 1]) * 10 + DigitValue(s[|s| - 1])
  }

  function Pow10(n: nat): (r: nat)
    ensures r >= 1
  {
    if n == 0 then 1 else 10 * Pow10(n - 1)
  }

  function IndexOfPoint(t: string): (k: nat)
    ensures k <= |t| && '.' !in t[..k]
    ensures forall i | 0 <= i < k :: t[i] != '.'
    ensures k < |t| ==> t[k] == '.'
  {
    if t == [] || t[0] == '.' then 0
    else
      var k := 1 + IndexOfPoint(t[1..]);
      assert t[..k] == [t[0]] + t[1..][..k - 1];
      k
  }

  /** The decimal point of a number, when it has one, splits it into two runs
      of digits, the second one non-empty. */
  lemma PointSplit(t: string)
    requires IsDecimalDigits(t)
    ensures var k := IndexOfPoint(t);
            || (k == |t| && AllDigits(t))
            || (k < |t| - 1 && AllDigits(t[..k]) && AllDigits(t[k + 1..]))
  {
    var k := IndexOfPoint(t);
    if !(|t| > 0 && AllDigits(t)) {
      var p :| 0 <= p < |t| - 1 && t[p] == '.' && AllDigits(t[..p]) && AllDigits(t[p + 1..]);
      assert forall i | 0 <= i < p :: IsDigit(t[i]) by {
        forall i | 0 <= i < p ensures IsDigit(t[i]) { assert t[i] == t[..p][i]; }
      }
      assert k == p;
    } else {
      assert k == |t|;
    }
  }

  /** `Decimal.Parse` of group 1: the integer part plus the fraction digits
      over the matching power of ten. */
  function DecimalParse(t: string): (v: real)
    requires IsDecimalDigits(t)
    ensures v >= 0.0
  {
    PointSplit(t);
    var k := IndexOfPoint(t);
    if k == |t| then DigitsValue(t) as real
    else DigitsValue(t[..k]) as real + DigitsValue(t[k + 1..]) as real / Pow10(|t| - k - 1) as real
  }

  /** A run of digits without a point parses to its integer value. */
  lemma IntegerParse(a: string)
    requires |a| > 0 && AllDigits(a)
    ensures IsDecimalDigits(a) && DecimalParse(a) == DigitsValue(a) as real
  {

  }

  /** `a.b` parses to the integer `a` plus `b` over ten to the number of
      digits of `b`; the integer part may be empty (".5"). */
  lemma FractionParse(a: string, b: string)
    requires AllDigits(a) && AllDigits(b) && |b| > 0
    ensures IsDecimalDigits(a + "." + b)
    ensures DecimalParse(a + "." + b) == DigitsValue(a) as real + DigitsValue(b) as real / Pow10(|b|) as real
  {
    var t := a + "." + b;
    assert t[..|a|] == a && t[|a|] == '.' && t[|a| + 1..] == b;
    assert IsDecimalDigits(t);
  }

  // ---------------------------------------------------------------------------
  // TryConvertLength

  /** The two-argument `TryConvertLength(Regex, string, decimal)`: on a match,
      group 1 parsed and multiplied by the factor, rounded to two places.
      Decimal overflow, in the parse or in the product, is an exception. */
  function ConvertLength(p: Pattern, input: string, conversionFactor: real): (r: Result<Option<real>, string>)
    requires conversionFactor > 0.0
    ensures r == Success(None) <==> !Matches(p, input)
    ensures r.Failure? ==> r.error == DecimalOverflowMessage
    ensures r.Success? && r.value.Some? ==> HasTwoDecimals(r.value.value) && r.value.value >= 0.0
  {
    if Matches(p, input) then
      var value := DecimalParse(Tokenize(input).number);
      var product := value * conversionFactor;
      if value > DecimalMaxValue || product > DecimalMaxValue then
        Failure(DecimalOverflowMessage)
      else
        assert product >= 0.0 by { assert value >= 0.0; }
        RoundTo2NonNegative(product);
        Success(Some(RoundTo2(product)))
    else
      Success(None)
  }

  /** The one-argument `TryConvertLength`: the centimetre pattern first, then
      the inch pattern with the factor 2.54. "None" means neither matched. */
  function TryConvertLength(input: string): (r: Result<Option<real>, string>)
    ensures r == Success(None) <==> !Matches(CmPattern, input) && !Matches(InPattern, input)
    ensures r.Failure? ==> r.error == DecimalOverflowMessage
    ensures r.Success? && r.value.Some? ==> r.value.value >= 0.0 && HasTwoDecimals(r.value.value)
  {
    var cm := ConvertLength(CmPattern, input, 1.0);
    if cm == Success(None) then ConvertLength(InPattern, input, CmsPerInch) else cm
  }

  /** A token is no length exactly when neither anchored expression matches it. */
  lemma NoLengthIsNoMatch(input: string)
    ensures TryConvertLength(input) == Success(None) <==>
              !RegexMatches(CmPattern, input) && !RegexMatches(InPattern, input)
  {
    MatchesIsRegexMatch(CmPattern, input);
    MatchesIsRegexMatch(InPattern, input);
  }

  /** On a match, the conversion is group 1 times the factor, rounded to two
      places, unless the number or the product exceeds the decimal range. */
  lemma ConvertMatched(p: Pattern, s: string, factor: real)
    requires factor > 0.0 && Matches(p, s)
    ensures var v := DecimalParse(Tokenize(s).number);
            && (v > DecimalMaxValue || v * factor > DecimalMaxValue ==>
                  ConvertLength(p, s, factor) == Failure(DecimalOverflowMessage))
            && (v <= DecimalMaxValue && v * factor <= DecimalMaxValue ==>
                  ConvertLength(p, s, factor) == Success(Some(RoundTo2(v * factor))))
  {
  }

  /** Equal numbers scale equally. */
  lemma ScaleEqual(x: real, y: real, factor: real)
    requires x == y
    ensures x * factor == y * factor
  {
  }

  /** A token the centimetre expression matches, spelled as the number `n`,
      the whitespace `w` and the unit `u`, converts to that number rounded to
      two places, or overflows. */
  lemma {:induction false} CmLength(n: string, w: string, u: string)
    requires IsDecimalDigits(n) && AllWhitespace(w) && IsUnit(CmPattern, u)
    ensures var v := DecimalParse(n);
            TryConvertLength(n + w + u) ==
              if v > DecimalMaxValue then Failure(DecimalOverflowMessage) else Success(Some(RoundTo2(v)))
  {
    SpelledLength(CmPattern, n, w, u);
    var v := DecimalParse(n);
    assert v * 1.0 == v;
  }

  /** A token the inch expression matches converts to 2.54 times its number,
      rounded to two places, or overflows. */
  lemma {:induction false} InchLength(n: string, w: string, u: string)
    requires IsDecimalDigits(n) && AllWhitespace(w) && IsUnit(InPattern, u)
    ensures DecimalParse(n) > DecimalMaxValue || DecimalParse(n) * CmsPerInch > DecimalMaxValue ==>
              TryConvertLength(n + w + u) == Failure(DecimalOverflowMessage)
    ensures DecimalParse(n) <= DecimalMaxValue && DecimalParse(n) * CmsPerInch <= DecimalMaxValue ==>
              TryConvertLength(n + w + u) == Success(Some(RoundTo2(DecimalParse(n) * CmsPerInch)))
  {
    SpelledLength(InPattern, n, w, u);
    InchMatch(n + w + u, n);
  }

  /** A token the inch expression matches is converted by it alone. */
  lemma InchMatch(s: string, n: string)
    requires Matches(InPattern, s) && Tokenize(s).number == n
    ensures var v := DecimalParse(n);
            && (v > DecimalMaxValue || v * CmsPerInch > DecimalMaxValue ==>
                  TryConvertLength(s) == Failure(DecimalOverflowMessage))
            && (v <= DecimalMaxValue && v * CmsPerInch <= DecimalMaxValue ==>
                  TryConvertLength(s) == Success(Some(RoundTo2(v * CmsPerInch))))
  {
    InchPatternDecides(s);
    ConvertMatched(InPattern, s, CmsPerInch);
    ScaleEqual(DecimalParse(Tokenize(s).number), DecimalParse(n), CmsPerInch);
  }

  /** The centimetre expression never matches an inch token, so the inch
      expression alone converts it. */
  lemma InchPatternDecides(s: string)
    requires Matches(InPattern, s)
    ensures TryConvertLength(s) == ConvertLength(InPattern, s, CmsPerInch)
  {
    PatternsAreDisjoint(s);
    assert ConvertLength(CmPattern, s, 1.0) == Success(None);
  }

  /** A signed number is not a length: a match starts with a digit or a point. */
  lemma SignedNumberIsRejected()
    ensures TryConvertLength("-5") == Success(None)
  {
    var t := "-5";
    assert !IsNumberChar(t[0]);
    if Matches(CmPattern, t) { MatchIsAnchored(CmPattern, t); }
    if Matches(InPattern, t) { MatchIsAnchored(InPattern, t); }
  }

  /** A point must be followed by a digit. */
  lemma TrailingPointIsRejected()
    ensures TryConvertLength("14.") == Success(None)
  {
    var t := "14.";
    SpanEndIs(t, 0, IsNumberChar, 3);
    SpanEndIs(t, 3, IsWhitespace, 3);
    assert Tokenize(t).number == t;
    assert !IsDecimalDigits(t) by { assert !IsDigit(t[2]); }
  }

  /** The integer part may be left out: ".5" is half a centimetre. */
  lemma LeadingPointIsAccepted()
    ensures TryConvertLength(".5") == Success(Some(0.5))
  {
    var n := ".5";
    assert n == "" + "." + "5";
    FractionParse("", "5");
    assert DecimalParse(n) == 0.5 by {
      assert DigitsValue("5") == 5;
    }
    assert HasTwoDecimals(0.5) by { assert (0.5 * 100.0).Floor == 50; }
    RoundTo2Idempotent(0.5);
    assert n + "" + "" == n;
    CmLength(n, "", "");
  }

  // ---------------------------------------------------------------------------
  // The machine

  datatype State = ExpectOption | ExpectWidth | ExpectHeight | ExpectSuffix

  /** What a recognised option does: set a flag, or wait for a value. */
  datatype OptionEffect = SetShowHelp | SetWhatIf | Await(next: State)

  /** The option names after the prefix is cut off and the rest lower-cased. */
  const ShortOptions: map<string, OptionEffect> :=
    map["?" := SetShowHelp, "wi" := SetWhatIf,
        "h" := Await(ExpectHeight), "w" := Await(ExpectWidth), "s" := Await(ExpectSuffix)]
  const LongOptions: map<string, OptionEffect> :=
    map["help" := SetShowHelp, "whatif" := SetWhatIf,
        "height" := Await(ExpectHeight), "width" := Await(ExpectWidth), "suffix" := Await(ExpectSuffix)]

  datatype Machine = Machine(config: Config, state: State)

  /** The result of one token: the machine goes on, or an exception ends the
      loop, leaving the configuration as it was when it was thrown. */
  datatype Progress = Running(machine: Machine) | Threw(config: Config, message: string)

  function WidthFormatFault(arg: string): string {
    "Width parameter is not in the correct format - \"" + arg + "\""
  }

  function HeightFormatFault(arg: string): string {
    "Height parameter is not in the correct format - \"" + arg + "\""
  }

  /** The lower-cased name of an option token whose prefix is `prefixLength`
      characters long, when anything follows the prefix. */
  function OptionName(arg: string, prefixLength: nat): Option<string> {
    if |arg| > prefixLength then Some(ToLowerInvariant(arg[prefixLength..])) else None
  }

  /** ProcessShortOption (prefix length 1, ShortOptions) and ProcessLongOption
      (prefix length 2, LongOptions): a recognised name takes effect, anything
      else is one invalid-option fault and the state stays as it was. */
  function ProcessOption(c: Config, arg: string, current: State, prefixLength: nat,
                         options: map<string, OptionEffect>): Machine
  {
    var name := OptionName(arg, prefixLength);
    if name.Some? && name.value in options then
      match options[name.value]
      case SetShowHelp => Machine(c.(showHelp := true), current)
      case SetWhatIf => Machine(c.(whatIf := true), current)
      case Await(next) => Machine(c, next)
    else
      Machine(c.AddFault(InvalidOptionFault(arg)), current)
  }

  /** A width (or height) value after its conversion: an exception ends the
      loop; otherwise the dimension is set, to "none" with one fault quoting
      the token when the token is not a length. */
  function LengthStep(c: Config, a: string, converted: Result<Option<real>, string>, width: bool): Progress {
    match converted
    case Failure(message) => Threw(c, message)
    case Success(length) =>
      var c' := if width then c.(widthCm := length) else c.(heightCm := length);
      var fault := if width then WidthFormatFault(a) else HeightFormatFault(a);
      Running(Machine(if length.None? then c'.AddFault(fault) else c', ExpectOption))
  }

  /** One pass of the loop body; a null token changes nothing. */
  function Step(m: Machine, arg: Option<string>): Progress {
    if arg.None? then Running(m)
    else
      var a, c := arg.value, m.config;
      match m.state
      case ExpectWidth => LengthStep(c, a, TryConvertLength(a), true)
      case ExpectHeight => LengthStep(c, a, TryConvertLength(a), false)
      case ExpectSuffix =>
        Running(Machine(c.(fileNameSuffix := Some(a)), ExpectOption))
      case ExpectOption =>
        if StartsWith(a, "--") then Running(ProcessOption(c, a, ExpectOption, 2, LongOptions))
        else if StartsWith(a, "-") || StartsWith(a, "/") then Running(ProcessOption(c, a, ExpectOption, 1, ShortOptions))
        else Running(Machine(c.(searchPatterns := Some(a)), ExpectOption))
  }

  /** The loop over the whole list. */
  function Run(m: Machine, args: seq<Option<string>>): Progress
    decreases |args|
  {
    if args == [] then Running(m)
    else
      match Step(m, args[0])
      case Running(next) => Run(next, args[1..])
      case Threw(c, message) => Threw(c, message)
  }

  /** The configuration after the loop: an escaped exception is caught once and
      becomes one last fault carrying its message. */
  function ParseInto(c: Config, args: seq<Option<string>>): Config {
    match Run(Machine(c, ExpectOption), args)
    case Running(m) => m.config
    case Threw(c', message) => c'.AddFault(message)
  }

  // ---------------------------------------------------------------------------
  // The methods

  method ProcessShortOption(ctx: AppContext, arg: string, currentState: State) returns (result: State)
    modifies ctx
    ensures Machine(ctx.Value(), result) == ProcessOption(old(ctx.Value()), arg, currentState, 1, ShortOptions)
  {
    result := currentState;
    if |arg| > 1 {
      var option := ToLowerInvariant(arg[1..]);
      if option == "?" {
        ctx.ShowHelp := true;
      } else if option == "wi" {
        ctx.WhatIf := true;
      } else if option == "h" {
        result := ExpectHeight;
      } else if option == "w" {
        result := ExpectWidth;
      } else if option == "s" {
        result := ExpectSuffix;
      } else {
        ctx.AddInvalidArgFault(arg);
      }
    } else {
      ctx.AddInvalidArgFault(arg);
    }
  }

  method ProcessLongOption(ctx: AppContext, arg: string, currentState: State) returns (result: State)
    modifies ctx
    ensures Machine(ctx.Value(), result) == ProcessOption(old(ctx.Value()), arg, currentState, 2, LongOptions)
  {
    result := currentState;
    if |arg| > 2 {
      var option := ToLowerInvariant(arg[2..]);
      if option == "help" {
        ctx.ShowHelp := true;
      } else if option == "whatif" {
        ctx.WhatIf := true;
      } else if option == "height" {
        result := ExpectHeight;
      } else if option == "width" {
        result := ExpectWidth;
      } else if option == "suffix" {
        result := ExpectSuffix;
      } else {
        ctx.AddInvalidArgFault(arg);
      }
    } else {
      ctx.AddInvalidArgFault(arg);
    }
  }

  /** The width (`width`) or height branch of the loop body: the token's
      conversion is stored, and an unparsable token adds its fault. An
      exception leaves the context as it was and is handed back. */
  method SetLength(result: AppContext, a: string, width: bool) returns (error: Option<string>)
    modifies result
    ensures var step := LengthStep(old(result.Value()), a, TryConvertLength(a), width);
            && (error.None? ==> step == Running(Machine(result.Value(), ExpectOption)))
            && (error.Some? ==> step == Threw(result.Value(), error.value))
  {
    ghost var c := result.Value();
    var length := TryConvertLength(a);
    if length.Failure? {
      return Some(length.error);
    }
    if width {
      result.WidthCm := length.value;
      assert result.Value() == c.(widthCm := length.value);
      if length.value.None? {
        result.AddFault(WidthFormatFault(a));
      }
    } else {
      result.HeightCm := length.value;
      assert result.Value() == c.(heightCm := length.value);
      if length.value.None? {
        result.AddFault(HeightFormatFault(a));
      }
    }
    return None;
  }

  /** `AppContextExtensions.UseArgs`: parses `args` into the given context,
      keeping whatever it already holds. */
  method UseArgs(result: AppContext, args: seq<Option<string>>)
    modifies result
    ensures result.Value() == ParseInto(old(result.Value()), args)
  {
    ghost var start := Machine(result.Value(), ExpectOption);
    var state := ExpectOption;
    var i := 0;
    while i < |args|
      invariant 0 <= i <= |args|
      invariant Run(start, args) == Run(Machine(result.Value(), state), args[i..])
    {
      ghost var before := Machine(result.Value(), state);
      assert args[i..][0] == args[i] && args[i..][1..] == args[i + 1..];
      var arg := args[i];
      if arg.Some? {
        var a := arg.value;
        match state {
          case ExpectWidth =>
            var error := SetLength(result, a, true);
            if error.Some? {
              result.AddExceptionFault(error.value);
              return;
            }
            state := ExpectOption;
          case ExpectHeight =>
            var error := SetLength(result, a, false);
            if error.Some? {
              result.AddExceptionFault(error.value);
              return;
            }
            state := ExpectOption;
          case ExpectSuffix =>
            result.FileNameSuffix := Some(a);
            state := ExpectOption;
          case ExpectOption =>
            if StartsWith(a, "--") {
              state := ProcessLongOption(result, a, state);
            } else if StartsWith(a, "-") || StartsWith(a, "/") {
              state := ProcessShortOption(result, a, state);
            } else {
              result.SearchPatterns := Some(a);
            }
        }
      }
      assert Step(before, arg) == Running(Machine(result.Value(), state));
      i := i + 1;
    }
  }

  /** `ArgProcessor.Parse`: the same loop on a new context. */
  method Parse(args: seq<Option<string>>) returns (result: AppContext)
    ensures fresh(result)
    ensures result.Value() == ParseInto(Fresh(), args)
  {
    result := new AppContext();
    UseArgs(result, args);
  }

  // ---------------------------------------------------------------------------
  // What the machine promises

  /** The configuration a Progress carries. */
  function ConfigOf(p: Progress): Config {
    match p
    case Running(m) => m.config
    case Threw(c, _) => c
  }

  /** `after` keeps every fault of `before` in place and appends at most `n`;
      a faulted configuration stays faulted, a consistent one consistent, and
      the minimum resolutions are untouched (no option sets them). */
  ghost predicate AppendsFaults(before: Config, after: Config, n: nat) {
    && |before.faults| <= |after.faults| <= |before.faults| + n
    && after.faults[..|before.faults|] == before.faults
    && (before.faulted ==> after.faulted)
    && (before.Consistent() ==> after.Consistent())
    && after.defaultMinResX == before.defaultMinResX
    && after.defaultMinResY == before.defaultMinResY
  }

  /** The loop over `a + b` is the loop over `a`, then over `b` from wherever
      `a` left the machine, unless `a` already threw. */
  function Then(p: Progress, b: seq<Option<string>>): Progress {
    match p
    case Running(m) => Run(m, b)
    case Threw(_, _) => p
  }

  lemma {:induction false} RunAppend(m: Machine, a: seq<Option<string>>, b: seq<Option<string>>)
    ensures Run(m, a + b) == Then(Run(m, a), b)
    decreases |a|
  {
    if a == [] {
      assert a + b == b;
    } else {
      assert (a + b)[0] == a[0] && (a + b)[1..] == a[1..] + b;
      match Step(m, a[0])
      case Running(next) => RunAppend(next, a[1..], b);
      case Threw(_, _) =>
    }
  }

  /** A null token may be dropped from anywhere in the list. */
  lemma {:induction false} NullTokensAreSkipped(m: Machine, a: seq<Option<string>>, b: seq<Option<string>>)
    ensures Run(m, a + [None] + b) == Run(m, a + b)
  {
    assert a + [None] + b == a + ([None] + b);
    RunAppend(m, a, [None] + b);
    RunAppend(m, a, b);
    if Run(m, a).Running? {
      assert ([None] + b)[0] == None && ([None] + b)[1..] == b;
    }
  }

  /** One token appends at most one fault; an exception changes nothing before
      it is caught, and only a width or height value can throw one. */
  lemma AddFaultAppends(c: Config, message: string)
    ensures AppendsFaults(c, c.AddFault(message), 1)
  {
    assert (c.faults + [message])[..|c.faults|] == c.faults;
  }

  lemma StepAppendsFaults(m: Machine, arg: Option<string>)
    ensures match Step(m, arg)
            case Running(next) => AppendsFaults(m.config, next.config, 1)
            case Threw(c, message) =>
              && c == m.config && message == DecimalOverflowMessage
              && (m.state == ExpectWidth || m.state == ExpectHeight)
  {
    var c := m.config;
    assert c.faults[..|c.faults|] == c.faults;
    if arg.Some? {
      var a := arg.value;
      match m.state
      case ExpectWidth =>
        LengthStepAppendsFaults(c, a, TryConvertLength(a), true);
      case ExpectHeight =>
        LengthStepAppendsFaults(c, a, TryConvertLength(a), false);
      case ExpectSuffix =>
      case ExpectOption =>
        if StartsWith(a, "--") {
          ProcessOptionAppendsFaults(c, a, 2, LongOptions);
        } else if StartsWith(a, "-") || StartsWith(a, "/") {
          ProcessOptionAppendsFaults(c, a, 1, ShortOptions);
        }
    }
  }

  lemma LengthStepAppendsFaults(c: Config, a: string, converted: Result<Option<real>, string>, width: bool)
    requires converted.Failure? ==> converted.error == DecimalOverflowMessage
    ensures match LengthStep(c, a, converted, width)
            case Running(next) => AppendsFaults(c, next.config, 1)
            case Threw(c', message) => c' == c && message == DecimalOverflowMessage
  {
    if converted.Success? {
      var length := converted.value;
      var c' := if width then c.(widthCm := length) else c.(heightCm := length);
      var fault := if width then WidthFormatFault(a) else HeightFormatFault(a);
      assert c'.faults == c.faults && c'.faulted == c.faulted;
      assert c.faults[..|c.faults|] == c.faults;
      AddFaultAppends(c', fault);
      assert LengthStep(c, a, converted, width)
               == Running(Machine(if length.None? then c'.AddFault(fault) else c', ExpectOption));
    }
  }

  lemma ProcessOptionAppendsFaults(c: Config, a: string, prefixLength: nat, options: map<string, OptionEffect>)
    ensures AppendsFaults(c, ProcessOption(c, a, ExpectOption, prefixLength, options).config, 1)
  {
    assert c.faults[..|c.faults|] == c.faults;
    AddFaultAppends(c, InvalidOptionFault(a));
  }

  lemma {:induction false} RunAppendsFaults(m: Machine, args: seq<Option<string>>)
    ensures Run(m, args).Running? ==> AppendsFaults(m.config, ConfigOf(Run(m, args)), |args|)
    ensures Run(m, args).Threw? ==> |args| > 0 && AppendsFaults(m.config, ConfigOf(Run(m, args)), |args| - 1)
    decreases |args|
  {
    if args != [] {
      StepAppendsFaults(m, args[0]);
      match Step(m, args[0])
      case Running(next) =>
        RunAppendsFaults(next, args[1..]);
        var final := ConfigOf(Run(next, args[1..]));
        assert final.faults[..|m.config.faults|] == final.faults[..|next.config.faults|][..|m.config.faults|];
      case Threw(_, _) =>
        assert ConfigOf(Run(m, args)) == m.config;
    }
  }

  /** Parsing never throws and never removes a fault: the faults already in the
      context come first, each token adds at most one more, and Faulted stays
      true exactly when the list is non-empty. No token changes the minimum
      resolutions: there is no resolution option. */
  lemma ParseOnlyAppendsFaults(c: Config, args: seq<Option<string>>)
    ensures AppendsFaults(c, ParseInto(c, args), |args|)
  {
    var m := Machine(c, ExpectOption);
    RunAppendsFaults(m, args);
    if Run(m, args).Threw? {
      var c' := ConfigOf(Run(m, args));
      assert c'.AddFault(DecimalOverflowMessage).faults[..|c.faults|] == c'.faults[..|c.faults|];
    }
  }

  /** An exception stops the loop: the tokens after it are never looked at,
      and exactly one fault, the exception's message, is added to the
      configuration as it stood. */
  lemma {:induction false} ExceptionEndsParsing(c: Config, before: seq<Option<string>>, a: string,
                                                rest: seq<Option<string>>)
    requires Run(Machine(c, ExpectOption), before).Running?
    requires Step(Run(Machine(c, ExpectOption), before).machine, Some(a)).Threw?
    ensures var m := Run(Machine(c, ExpectOption), before).machine;
            ParseInto(c, before + [Some(a)] + rest) == m.config.AddFault(DecimalOverflowMessage)
  {
    var m := Run(Machine(c, ExpectOption), before).machine;
    StepAppendsFaults(m, Some(a));
    assert before + [Some(a)] + rest == before + ([Some(a)] + rest);
    RunAppend(Machine(c, ExpectOption), before, [Some(a)] + rest);
    assert ([Some(a)] + rest)[0] == Some(a);
  }

  /** A flag that needs a value, given last, leaves the machine waiting: no
      fault is recorded for the missing value. */
  lemma {:induction false} TrailingFlagAddsNoFault(c: Config, before: seq<Option<string>>, c': Config, flag: string)
    requires Run(Machine(c, ExpectOption), before) == Running(Machine(c', ExpectOption))
    requires StartsWith(flag, "-") || StartsWith(flag, "/")
    requires var name := if StartsWith(flag, "--") then OptionName(flag, 2) else OptionName(flag, 1);
             var options := if StartsWith(flag, "--") then LongOptions else ShortOptions;
             name.Some? && name.value in options && options[name.value].Await?
    ensures ParseInto(c, before + [Some(flag)]) == c'
  {
    RunAppend(Machine(c, ExpectOption), before, [Some(flag)]);
    assert [Some(flag)][1..] == [];
    var next := if StartsWith(flag, "--") then ProcessOption(c', flag, ExpectOption, 2, LongOptions)
                else ProcessOption(c', flag, ExpectOption, 1, ShortOptions);
    assert next.config == c';
    assert Step(Machine(c', ExpectOption), Some(flag)) == Running(next);
    assert Run(Machine(c', ExpectOption), [Some(flag)]) == Run(next, []);
  }

  /** After a width, height or suffix value the machine always expects an
      option again, whatever the token was. */
  lemma ValueTokenReturnsToExpectOption(m: Machine, a: string)
    requires m.state != ExpectOption
    ensures Step(m, Some(a)).Running? ==> Step(m, Some(a)).machine.state == ExpectOption
  {
  }

  /** A width or height token that is not a length clears that dimension and
      adds exactly one fault quoting the token; nothing else changes. */
  lemma UnparsableLengthIsOneFault(c: Config, a: string)
    requires !RegexMatches(CmPattern, a) && !RegexMatches(InPattern, a)
    ensures Step(Machine(c, ExpectWidth), Some(a))
              == Running(Machine(c.(widthCm := None).AddFault(WidthFormatFault(a)), ExpectOption))
    ensures Step(Machine(c, ExpectHeight), Some(a))
              == Running(Machine(c.(heightCm := None).AddFault(HeightFormatFault(a)), ExpectOption))
    ensures Quotes(WidthFormatFault(a), a) && Quotes(HeightFormatFault(a), a)
  {
    NoLengthIsNoMatch(a);
    var r := TryConvertLength(a);
    assert r == Success(None);
    assert Step(Machine(c, ExpectWidth), Some(a)) == LengthStep(c, a, r, true);
    assert Step(Machine(c, ExpectHeight), Some(a)) == LengthStep(c, a, r, false);
    FormatFaultsQuote(a);
  }

  lemma FormatFaultsQuote(a: string)
    ensures Quotes(WidthFormatFault(a), a) && Quotes(HeightFormatFault(a), a)
  {
  }

  /** A token that starts with '-' or '/' but names no option is one fault
      quoting it, and the machine keeps expecting an option. */
  lemma UnknownOptionIsOneFault(c: Config, a: string)
    requires StartsWith(a, "-") || StartsWith(a, "/")
    requires StartsWith(a, "--") ==> OptionName(a, 2).None? || OptionName(a, 2).value !in LongOptions
    requires !StartsWith(a, "--") ==> OptionName(a, 1).None? || OptionName(a, 1).value !in ShortOptions
    ensures Step(Machine(c, ExpectOption), Some(a))
              == Running(Machine(c.AddFault(InvalidOptionFault(a)), ExpectOption))
    ensures Quotes(InvalidOptionFault(a), a)
  {
  }

  predicate IsBareToken(arg: Option<string>) {
    arg.Some? && !StartsWith(arg.value, "-") && !StartsWith(arg.value, "/")
  }

  /** Tokens without a leading '-' or '/', the empty one included, are search
      patterns: each replaces the one before, the last one wins, and none is a
      fault. */
  lemma {:induction false} LastSearchPatternWins(c: Config, args: seq<Option<string>>)
    requires |args| > 0 && forall i | 0 <= i < |args| :: IsBareToken(args[i])
    ensures Run(Machine(c, ExpectOption), args)
              == Running(Machine(c.(searchPatterns := args[|args| - 1]), ExpectOption))
    decreases |args|
  {
    assert IsBareToken(args[0]);
    assert !StartsWith(args[0].value, "--");
    var next := Machine(c.(searchPatterns := args[0]), ExpectOption);
    assert Step(Machine(c, ExpectOption), args[0]) == Running(next);
    if |args| > 1 {
      LastSearchPatternWins(next.config, args[1..]);
    }
  }

  lemma ToLowerInvariantSuffix(s: string, k: nat)
    requires k <= |s|
    ensures ToLowerInvariant(s[k..]) == ToLowerInvariant(s)[k..]
  {
  }

  /** Options are recognised whatever their case: two tokens that differ only
      in the case of letters have the same effect when one is recognised. */
  lemma {:induction false} OptionsIgnoreCase(c: Config, a: string, b: string)
    requires ToLowerInvariant(a) == ToLowerInvariant(b)
    requires StartsWith(a, "-") || StartsWith(a, "/")
    requires StartsWith(a, "--") ==> OptionName(a, 2).Some? && OptionName(a, 2).value in LongOptions
    requires !StartsWith(a, "--") ==> OptionName(a, 1).Some? && OptionName(a, 1).value in ShortOptions
    ensures Step(Machine(c, ExpectOption), Some(a)) == Step(Machine(c, ExpectOption), Some(b))
  {
    var la := ToLowerInvariant(a);
    assert |a| == |b|;
    forall i | 0 <= i < |a| && (a[i] == '-' || a[i] == '/' || b[i] == '-' || b[i] == '/')
      ensures a[i] == b[i]
    {
      assert la[i] == ToLowerChar(a[i]) == ToLowerChar(b[i]);
    }
    assert StartsWith(a, "-") == StartsWith(b, "-");
    assert StartsWith(a, "/") == StartsWith(b, "/");
    assert StartsWith(a, "--") == StartsWith(b, "--");
    if |a| > 1 {
      ToLowerInvariantSuffix(a, 1);
      ToLowerInvariantSuffix(b, 1);
      assert OptionName(a, 1) == OptionName(b, 1);
    }
    if |a| > 2 {
      ToLowerInvariantSuffix(a, 2);
      ToLowerInvariantSuffix(b, 2);
      assert OptionName(a, 2) == OptionName(b, 2);
    }
  }
}
