/** The tool's constants and the grammar of a length token.

    `CmPattern` is `^((?:\d*\.)?\d+)\s*(cm|centimetre|centimetres|centimeter|centimeters)?$`
    and `InPattern` is the same with the mandatory unit group `(in|inch|inches)`;
    both are matched ignoring case. `RegexMatches` states that shape directly
    (a decimal, whitespace, a unit, with nothing before or after), and
    `Tokenize`/`Matches` is the hand-written recogniser the rest of the model
    uses; `MatchesIsRegexMatch` proves the two agree. ASCII text is assumed. */
module Constants {
  import opened AsciiText

  const CmsPerInch: real := 2.54
  const DefaultMinResolution: real := 100.0
  const MinAllowedResolution: real := 72.0

  datatype Pattern = CmPattern | InPattern

  const CmUnits: set<string> := {"cm", "centimetre", "centimetres", "centimeter", "centimeters"}
  const InUnits: set<string> := {"in", "inch", "inches"}

  predicate AllDigits(s: string) {
    forall i | 0 <= i < |s| :: IsDigit(s[i])
  }

  predicate AllWhitespace(s: string) {
    forall i | 0 <= i < |s| :: IsWhitespace(s[i])
  }

  /** `(?:\d*\.)?\d+`: digits, or digits, a point and at least one digit. */
  predicate IsDecimalDigits(t: string) {
    || (|t| > 0 && AllDigits(t))
    || exists k | 0 <= k < |t| - 1 :: t[k] == '.' && AllDigits(t[..k]) && AllDigits(t[k + 1..])
  }

  /** The unit group of each pattern, compared ignoring case; the centimetre
      unit may be left out. */
  predicate IsUnit(p: Pattern, u: string) {
    match p
    case CmPattern => u == "" || ToLowerInvariant(u) in CmUnits
    case InPattern => ToLowerInvariant(u) in InUnits
  }

  /** The pattern as an anchored regular expression: the whole token splits
      into a decimal, whitespace and a unit. */
  ghost predicate RegexMatches(p: Pattern, s: string) {
    exists i, j | 0 <= i <= j <= |s| ::
      IsDecimalDigits(s[..i]) && AllWhitespace(s[i..j]) && IsUnit(p, s[j..])
  }

  predicate IsNumberChar(c: char) { IsDigit(c) || c == '.' }

  /** The end of the longest run of characters of one class starting at `from`. */
  function SpanEnd(s: string, from: nat, inClass: char -> bool): (k: nat)
    requires from <= |s|
    ensures from <= k <= |s|
    ensures forall m | from <= m < k :: inClass(s[m])
    ensures k < |s| ==> !inClass(s[k])
    decreases |s| - from
  {
    if from < |s| && inClass(s[from]) then SpanEnd(s, from + 1, inClass) else from
  }

  /** A token cut into its number, whitespace and unit parts. */
  datatype LengthToken = LengthToken(number: string, space: string, unit: string)

  function Tokenize(s: string): (t: LengthToken)
    ensures t.number + t.space + t.unit == s
    ensures forall m | 0 <= m < |t.number| :: IsNumberChar(t.number[m])
    ensures AllWhitespace(t.space)
  {
    var i := SpanEnd(s, 0, IsNumberChar);
    var j := SpanEnd(s, i, IsWhitespace);
    var number, space := s[..i], s[i..j];
    assert number + space + s[j..] == s;
    assert forall m | 0 <= m < |number| :: number[m] == s[m];
    assert forall m | 0 <= m < |space| :: space[m] == s[i + m];
    LengthToken(number, space, s[j..])
  }

  /** The recogniser: does `s` match the pattern `p`? Group 1 of the match is
      `Tokenize(s).number`. */
  predicate Matches(p: Pattern, s: string) {
    var t := Tokenize(s);
    IsDecimalDigits(t.number) && IsUnit(p, t.unit)
  }

  // ---------------------------------------------------------------------------
  // The recogniser agrees with the regular expression

  lemma DecimalDigitsAreNumberChars(t: string)
    requires IsDecimalDigits(t)
    ensures forall m | 0 <= m < |t| :: IsNumberChar(t[m])
  {
    if !(|t| > 0 && AllDigits(t)) {
      var k :| 0 <= k < |t| - 1 && t[k] == '.' && AllDigits(t[..k]) && AllDigits(t[k + 1..]);
      forall m | 0 <= m < |t| ensures IsNumberChar(t[m]) {
        if m < k { assert t[m] == t[..k][m]; }
        else if m > k { assert t[m] == t[k + 1..][m - k - 1]; }
      }
    }
  }

  /** A unit is made of letters only, so it cannot extend the number or the
      whitespace before it. */
  lemma UnitIsLetters(p: Pattern, u: string)
    requires IsUnit(p, u)
    ensures forall k | 0 <= k < |u| :: IsLetter(u[k])
  {
    var lower := ToLowerInvariant(u);
    assert forall w | w in CmUnits + InUnits :: forall k | 0 <= k < |w| :: IsLower(w[k]);
    forall k | 0 <= k < |u| ensures IsLetter(u[k]) {
      assert lower[k] == ToLowerChar(u[k]);
    }
  }

  lemma SpanEndIs(s: string, from: nat, inClass: char -> bool, k: nat)
    requires from <= k <= |s|
    requires forall m | from <= m < k :: inClass(s[m])
    requires k < |s| ==> !inClass(s[k])
    ensures SpanEnd(s, from, inClass) == k
  {
  }

  /** Any split the regular expression can use is the recogniser's split: the
      captured number is unique. */
  lemma {:induction false} RegexSplitIsTokenize(p: Pattern, s: string, i: nat, j: nat)
    requires i <= j <= |s|
    requires IsDecimalDigits(s[..i]) && AllWhitespace(s[i..j]) && IsUnit(p, s[j..])
    ensures Tokenize(s) == LengthToken(s[..i], s[i..j], s[j..])
  {
    DecimalDigitsAreNumberChars(s[..i]);
    if j < |s| {
      UnitIsLetters(p, s[j..]);
      assert s[j] == s[j..][0];
    }
    assert forall m | 0 <= m < i :: IsNumberChar(s[m]) by {
      forall m | 0 <= m < i ensures IsNumberChar(s[m]) { assert s[m] == s[..i][m]; }
    }
    if i < |s| {
      if i < j { assert s[i] == s[i..j][0]; }
    }
    SpanEndIs(s, 0, IsNumberChar, i);
    assert forall m | i <= m < j :: IsWhitespace(s[m]) by {
      forall m | i <= m < j ensures IsWhitespace(s[m]) { assert s[m] == s[i..j][m - i]; }
    }
    SpanEndIs(s, i, IsWhitespace, j);
  }

  lemma {:induction false} MatchesIsRegexMatch(p: Pattern, s: string)
    ensures Matches(p, s) <==> RegexMatches(p, s)
  {
    var t := Tokenize(s);
    var i, j := |t.number|, |t.number| + |t.space|;
    assert s[..i] == t.number && s[i..j] == t.space && s[j..] == t.unit;
    if RegexMatches(p, s) {
      var i', j' :| 0 <= i' <= j' <= |s| &&
        IsDecimalDigits(s[..i']) && AllWhitespace(s[i'..j']) && IsUnit(p, s[j'..]);
      RegexSplitIsTokenize(p, s, i', j');
    }
  }

  // ---------------------------------------------------------------------------
  // Properties of the grammar

  /** A bare number is a centimetre length: the unit group is optional. */
  lemma {:induction false} BareNumberIsCm(t: string)
    requires IsDecimalDigits(t)
    ensures Matches(CmPattern, t) && Tokenize(t).number == t
  {
    assert t[..|t|] == t && t[|t|..|t|] == "" && t[|t|..] == "";
    RegexSplitIsTokenize(CmPattern, t, |t|, |t|);
  }

  /** Any amount of whitespace, none included, may separate number and unit. */
  lemma {:induction false} SpelledLength(p: Pattern, n: string, w: string, u: string)
    requires IsDecimalDigits(n) && AllWhitespace(w) && IsUnit(p, u)
    ensures Matches(p, n + w + u) && Tokenize(n + w + u) == LengthToken(n, w, u)
  {
    var s := n + w + u;
    assert s[..|n|] == n && s[|n|..|n| + |w|] == w && s[|n| + |w|..] == u;
    RegexSplitIsTokenize(p, s, |n|, |n| + |w|);
  }

  /** The inch unit is mandatory and is one of in/inch/inches, in any case. */
  lemma InchUnitIsExact(s: string)
    requires Matches(InPattern, s)
    ensures ToLowerInvariant(Tokenize(s).unit) in InUnits
  {
  }

  /** No token matches both patterns. */
  lemma {:induction false} PatternsAreDisjoint(s: string)
    ensures !(Matches(CmPattern, s) && Matches(InPattern, s))
  {
  }

  /** Both patterns are anchored: a matching token starts with a digit or a
      point, and holds nothing but digits, points, whitespace and letters, so a
      sign or any other punctuation anywhere rules a match out. */
  lemma {:induction false} MatchIsAnchored(p: Pattern, s: string)
    requires Matches(p, s)
    ensures |s| > 0 && IsNumberChar(s[0])
    ensures forall m | 0 <= m < |s| :: IsNumberChar(s[m]) || IsWhitespace(s[m]) || IsLetter(s[m])
  {
    var t := Tokenize(s);
    DecimalDigitsAreNumberChars(t.number);
    assert |t.number| > 0;
    assert s[0] == t.number[0];
    forall m | 0 <= m < |s|
      ensures IsNumberChar(s[m]) || IsWhitespace(s[m]) || IsLetter(s[m])
    {
      if m < |t.number| {
        assert s[m] == t.number[m];
      } else if m < |t.number| + |t.space| {
        assert s[m] == t.space[m - |t.number|];
      } else {
        UnitIsLetters(p, t.unit);
        assert s[m] == t.unit[m - |t.number| - |t.space|];
      }
    }
  }
}
