/** WCAG 2.1 colour contrast: hex colour parsing, relative luminance,
    contrast ratio and the AA/AAA verdicts of Success Criteria 1.4.3
    (Contrast Minimum) and 1.4.6 (Contrast Enhanced). */
module WcagContrast {
  import opened Wrappers

  // ---------------------------------------------------------------------
  // Colours
  // ---------------------------------------------------------------------

  /** An 8-bit colour channel. */
  type Channel = x: int | 0 <= x < 256

  datatype Rgb = Rgb(r: Channel, g: Channel, b: Channel)

  /** A colour argument: a hex string or an (r, g, b) tuple. */
  datatype Color = HexColor(hex: string) | RgbColor(rgb: Rgb)

  /** `ValueError("Invalid hex color: ...")`, carrying the string after the
      leading `#` characters were stripped. */
  datatype ColorError = InvalidHexColor(stripped: string)

  /** `str.lstrip("#")`: every leading `#` goes, not only the first. */
  function LStripHash(s: string): (t: string)
    ensures |t| <= |s| && t == s[|s| - |t|..]
    ensures forall i :: 0 <= i < |s| - |t| ==> s[i] == '#'
    ensures t == [] || t[0] != '#'
    decreases |s|
  {
    if s != [] && s[0] == '#' then LStripHash(s[1..]) else s
  }

  predicate IsHexDigit(c: char)
  {
    '0' <= c <= '9' || 'a' <= c <= 'f' || 'A' <= c <= 'F'
  }

  function DigitValue(c: char): (v: nat)
    requires IsHexDigit(c)
    ensures v < 16
  {
    if '0' <= c <= '9' then c as int - '0' as int
    else if 'a' <= c <= 'f' then c as int - 'a' as int + 10
    else c as int - 'A' as int + 10
  }

  /** `int(pair, 16)` for a two-character slice, over ASCII hex digits. */
  function ParsePair(hi: char, lo: char): (v: Option<Channel>)
    ensures v.Some? <==> IsHexDigit(hi) && IsHexDigit(lo)
  {
    if IsHexDigit(hi) && IsHexDigit(lo) then Some(16 * DigitValue(hi) + DigitValue(lo)) else None
  }

  /** Six characters, each an ASCII hex digit. */
  predicate SixHexDigits(h: string)
  {
    |h| == 6 && IsHexDigit(h[0]) && IsHexDigit(h[1]) && IsHexDigit(h[2]) &&
    IsHexDigit(h[3]) && IsHexDigit(h[4]) && IsHexDigit(h[5])
  }

  /** `hex_to_rgb`: strip the leading `#`s, demand six characters, and read
      the pairs at offsets 0, 2 and 4 as base-16 channels; the first pair
      that is not a number aborts with no partial result. */
  function HexToRgb(hexColor: string): (r: Result<Rgb, ColorError>)
    ensures r.Failure? ==> r.error == InvalidHexColor(LStripHash(hexColor))
    ensures r.Success? <==> SixHexDigits(LStripHash(hexColor))
  {
    var h := LStripHash(hexColor);
    if |h| != 6 then Failure(InvalidHexColor(h))
    else
      match ParsePair(h[0], h[1])
      case None => Failure(InvalidHexColor(h))
      case Some(r) =>
        match ParsePair(h[2], h[3])
        case None => Failure(InvalidHexColor(h))
        case Some(g) =>
          match ParsePair(h[4], h[5])
          case None => Failure(InvalidHexColor(h))
          case Some(b) => Success(Rgb(r, g, b))
  }

  // ---------------------------------------------------------------------
  // A reference encoding, the partner of HexToRgb
  // ---------------------------------------------------------------------

  function HexChar(v: nat): (c: char)
    requires v < 16
    ensures IsHexDigit(c) && DigitValue(c) == v
  {
    if v < 10 then ('0' as int + v) as char else ('a' as int + v - 10) as char
  }

  function LowerChar(c: char): char
  {
    if 'A' <= c <= 'Z' then (c as int + 32) as char else c
  }

  function LowerAscii(s: string): (t: string)
    ensures |t| == |s| && forall i :: 0 <= i < |s| ==> t[i] == LowerChar(s[i])
  {
    seq(|s|, i requires 0 <= i < |s| => LowerChar(s[i]))
  }

  /** `#rrggbb` in lower case. */
  function FormatHex(c: Rgb): string
  {
    ['#', HexChar(c.r / 16), HexChar(c.r % 16), HexChar(c.g / 16), HexChar(c.g % 16),
     HexChar(c.b / 16), HexChar(c.b % 16)]
  }

  lemma PairOfHexChars(v: Channel)
    ensures ParsePair(HexChar(v / 16), HexChar(v % 16)) == Some(v)
  {
  }

  /** Every colour survives formatting and parsing. */
  lemma HexToRgbFormatHex(c: Rgb)
    ensures HexToRgb(FormatHex(c)) == Success(c)
  {
    var f := FormatHex(c);
    assert LStripHash(f[1..]) == f[1..];
    assert LStripHash(f) == f[1..];
    PairOfHexChars(c.r);
    PairOfHexChars(c.g);
    PairOfHexChars(c.b);
  }

  lemma HexCharOfDigitValue(c: char)
    requires IsHexDigit(c)
    ensures HexChar(DigitValue(c)) == LowerChar(c)
  {
  }

  /** Formatting a parsed pair gives its two digits back in lower case. */
  lemma FormatParsedPair(hi: char, lo: char)
    requires IsHexDigit(hi) && IsHexDigit(lo)
    ensures HexChar(ParsePair(hi, lo).value / 16) == LowerChar(hi)
    ensures HexChar(ParsePair(hi, lo).value % 16) == LowerChar(lo)
  {
    var dh, dl := DigitValue(hi), DigitValue(lo);
    assert (16 * dh + dl) / 16 == dh && (16 * dh + dl) % 16 == dl;
    HexCharOfDigitValue(hi);
    HexCharOfDigitValue(lo);
  }

  /** The channels read from six hex digits. */
  function SixDigitChannels(h: string): Rgb
    requires SixHexDigits(h)
  {
    Rgb(ParsePair(h[0], h[1]).value, ParsePair(h[2], h[3]).value, ParsePair(h[4], h[5]).value)
  }

  lemma FormatSixDigitChannels(h: string)
    requires SixHexDigits(h)
    ensures FormatHex(SixDigitChannels(h)) == "#" + LowerAscii(h)
  {
    FormatParsedPair(h[0], h[1]);
    FormatParsedPair(h[2], h[3]);
    FormatParsedPair(h[4], h[5]);
    var l := LowerAscii(h);
    assert FormatHex(SixDigitChannels(h)) == ['#', l[0], l[1], l[2], l[3], l[4], l[5]];
    assert "#" + l == ['#', l[0], l[1], l[2], l[3], l[4], l[5]];
  }

  /** A successful parse read exactly the six digits after the `#`s, in
      either case: formatting the result gives them back in lower case. */
  lemma HexToRgbDecodes(hexColor: string)
    requires HexToRgb(hexColor).Success?
    ensures FormatHex(HexToRgb(hexColor).value) == "#" + LowerAscii(LStripHash(hexColor))
  {
    var h := LStripHash(hexColor);
    assert HexToRgb(hexColor).value == SixDigitChannels(h);
    FormatSixDigitChannels(h);
  }

  lemma {:induction false} LStripHashLower(s: string)
    ensures LStripHash(LowerAscii(s)) == LowerAscii(LStripHash(s))
    decreases |s|
  {
    if s != [] {
      assert LowerAscii(s)[1..] == LowerAscii(s[1..]);
      LStripHashLower(s[1..]);
    }
  }

  lemma LowerDigit(c: char)
    ensures IsHexDigit(LowerChar(c)) == IsHexDigit(c)
    ensures IsHexDigit(c) ==> DigitValue(LowerChar(c)) == DigitValue(c)
  {
  }

  lemma HexToRgbValue(hexColor: string)
    requires HexToRgb(hexColor).Success?
    ensures HexToRgb(hexColor).value == SixDigitChannels(LStripHash(hexColor))
  {
  }

  lemma SixHexDigitsLower(h: string)
    ensures SixHexDigits(LowerAscii(h)) == SixHexDigits(h)
    ensures SixHexDigits(h) ==> SixDigitChannels(LowerAscii(h)) == SixDigitChannels(h)
  {
    if |h| == 6 {
      var l := LowerAscii(h);
      LowerDigit(h[0]); LowerDigit(h[1]); LowerDigit(h[2]);
      LowerDigit(h[3]); LowerDigit(h[4]); LowerDigit(h[5]);
      assert l[0] == LowerChar(h[0]) && l[1] == LowerChar(h[1]) && l[2] == LowerChar(h[2]);
      assert l[3] == LowerChar(h[3]) && l[4] == LowerChar(h[4]) && l[5] == LowerChar(h[5]);
    }
  }

  /** Hex digits are read case-insensitively. */
  lemma HexToRgbIgnoresCase(hexColor: string)
    ensures HexToRgb(LowerAscii(hexColor)).Success? == HexToRgb(hexColor).Success?
    ensures HexToRgb(hexColor).Success? ==> HexToRgb(LowerAscii(hexColor)) == HexToRgb(hexColor)
  {
    LStripHashLower(hexColor);
    SixHexDigitsLower(LStripHash(hexColor));
    if HexToRgb(hexColor).Success? {
      HexToRgbValue(hexColor);
      HexToRgbValue(LowerAscii(hexColor));
    }
  }

  /** Any number of leading `#`s is accepted. */
  lemma HexToRgbLeadingHash(s: string)
    ensures HexToRgb("#" + s) == HexToRgb(s)
  {
    assert ("#" + s)[1..] == s;
  }

  /** Six digits with no `#` in front are read as they stand. */
  lemma HexToRgbOfDigits(s: string)
    requires SixHexDigits(s)
    ensures HexToRgb(s) == Success(SixDigitChannels(s))
  {
    assert LStripHash(s) == s;
  }

  lemma HexToRgbRed()
    ensures HexToRgb("#ff0000") == Success(Rgb(255, 0, 0))
  {
    assert SixHexDigits("ff0000");
    assert SixDigitChannels("ff0000") == Rgb(255, 0, 0);
    HexToRgbOfDigits("ff0000");
    HexToRgbLeadingHash("ff0000");
  }

  lemma HexToRgbRedUpperCase()
    ensures HexToRgb("#FF0000") == Success(Rgb(255, 0, 0))
  {
    assert SixHexDigits("FF0000");
    assert SixDigitChannels("FF0000") == Rgb(255, 0, 0);
    HexToRgbOfDigits("FF0000");
    HexToRgbLeadingHash("FF0000");
  }

  lemma HexToRgbRejectsLetters()
    ensures HexToRgb("ZZZZZZ") == Failure(InvalidHexColor("ZZZZZZ"))
  {
    assert LStripHash("ZZZZZZ") == "ZZZZZZ";
    assert !SixHexDigits("ZZZZZZ");
  }

  lemma HexToRgbRejectsShort()
    ensures HexToRgb("#fff") == Failure(InvalidHexColor("fff"))
  {
    assert LStripHash("fff") == "fff";
    assert "#" + "fff" == "#fff";
    HexToRgbLeadingHash("fff");
  }

  // ---------------------------------------------------------------------
  // Relative luminance
  // ---------------------------------------------------------------------

  /** What the model needs of `x ** 2.4` on (0, 1]: positive, at most x,
      and 1 at 1. */
  ghost predicate GammaCurve(gamma: real -> real)
  {
    gamma(1.0) == 1.0 && forall x :: 0.0 < x <= 1.0 ==> 0.0 < gamma(x) <= x
  }

  /** `linearize_rgb_component`, with the power curve supplied as `gamma`. */
  function Linearize(component: Channel, gamma: real -> real): (v: real)
    requires GammaCurve(gamma)
    ensures 0.0 <= v <= 1.0
    ensures v == 0.0 <==> component == 0
    ensures v == 1.0 <==> component == 255
  {
    var s := component as real / 255.0;
    if s <= 0.04045 then s / 12.92 else gamma((s + 0.055) / 1.055)
  }

  /** `calculate_relative_luminance`: the BT.709 weighting of the three
      linearised channels. */
  function RelativeLuminance(c: Rgb, gamma: real -> real): (l: real)
    requires GammaCurve(gamma)
    ensures 0.0 <= l <= 1.0
    ensures l == 0.0 <==> c == Rgb(0, 0, 0)
    ensures l == 1.0 <==> c == Rgb(255, 255, 255)
  {
    0.2126 * Linearize(c.r, gamma) + 0.7152 * Linearize(c.g, gamma) + 0.0722 * Linearize(c.b, gamma)
  }

  // ---------------------------------------------------------------------
  // Contrast ratio
  // ---------------------------------------------------------------------

  function Max(a: real, b: real): real { if a >= b then a else b }
  function Min(a: real, b: real): real { if a <= b then a else b }

  /** The ratio of the lighter luminance to the darker, both offset by 0.05. */
  function ContrastRatio(lum1: real, lum2: real): (ratio: real)
    requires 0.0 <= lum1 && 0.0 <= lum2
    ensures ratio >= 1.0
  {
    var l1 := Max(lum1, lum2);
    var l2 := Min(lum1, lum2);
    DivAtLeastOne(l1 + 0.05, l2 + 0.05);
    (l1 + 0.05) / (l2 + 0.05)
  }

  lemma DivAtLeastOne(a: real, b: real)
    requires 0.0 < b <= a
    ensures a / b >= 1.0
  {
    assert a / b * b == a;
  }

  lemma ContrastSymmetric(lum1: real, lum2: real)
    requires 0.0 <= lum1 && 0.0 <= lum2
    ensures ContrastRatio(lum1, lum2) == ContrastRatio(lum2, lum1)
  {
  }

  lemma ContrastOfEqual(lum: real)
    requires 0.0 <= lum
    ensures ContrastRatio(lum, lum) == 1.0
  {
  }

  /** For luminances in [0, 1] the ratio lies in [1, 21], and 21 is reached
      only by 1 against 0. */
  lemma ContrastBounds(lum1: real, lum2: real)
    requires 0.0 <= lum1 <= 1.0 && 0.0 <= lum2 <= 1.0
    ensures ContrastRatio(lum1, lum2) <= 21.0
    ensures ContrastRatio(lum1, lum2) == 21.0 <==> Max(lum1, lum2) == 1.0 && Min(lum1, lum2) == 0.0
  {
    var hi, lo := Max(lum1, lum2) + 0.05, Min(lum1, lum2) + 0.05;
    assert ContrastRatio(lum1, lum2) == hi / lo;
    DivAtMost(hi, lo, 21.0);
    if hi / lo == 21.0 {
      assert hi / lo * lo == hi;
      assert hi == 21.0 * lo;
    }
  }

  lemma DivAtMost(a: real, b: real, k: real)
    requires 0.0 < b && a <= k * b
    ensures a / b <= k
  {
    assert a / b * b == a;
  }

  /** The ratio's colour-level form: a hex string is parsed first, and a
      parse error propagates. */
  function ToRgb(c: Color): Result<Rgb, ColorError>
  {
    match c
    case HexColor(h) => HexToRgb(h)
    case RgbColor(rgb) => Success(rgb)
  }

  /** `calculate_contrast_ratio`. */
  function CalculateContrastRatio(color1: Color, color2: Color, gamma: real -> real): (r: Result<real, ColorError>)
    requires GammaCurve(gamma)
    ensures r.Success? <==> ToRgb(color1).Success? && ToRgb(color2).Success?
    ensures r.Failure? ==> r.error == (if ToRgb(color1).Failure? then ToRgb(color1).error else ToRgb(color2).error)
    ensures r.Success? ==> 1.0 <= r.value <= 21.0
  {
    match ToRgb(color1)
    case Failure(e) => Failure(e)
    case Success(rgb1) =>
      match ToRgb(color2)
      case Failure(e) => Failure(e)
      case Success(rgb2) =>
        var lum1 := RelativeLuminance(rgb1, gamma);
        var lum2 := RelativeLuminance(rgb2, gamma);
        ContrastBounds(lum1, lum2);
        Success(ContrastRatio(lum1, lum2))
  }

  /** Swapping the colours does not change the ratio. */
  lemma CalculateContrastRatioSymmetric(color1: Color, color2: Color, gamma: real -> real)
    requires GammaCurve(gamma)
    ensures CalculateContrastRatio(color1, color2, gamma).Success? == CalculateContrastRatio(color2, color1, gamma).Success?
    ensures CalculateContrastRatio(color1, color2, gamma).Success? ==>
      CalculateContrastRatio(color1, color2, gamma).value == CalculateContrastRatio(color2, color1, gamma).value
  {
    if CalculateContrastRatio(color1, color2, gamma).Success? {
      ContrastSymmetric(RelativeLuminance(ToRgb(color1).value, gamma), RelativeLuminance(ToRgb(color2).value, gamma));
    }
  }

  const Black := Rgb(0, 0, 0)
  const White := Rgb(255, 255, 255)

  lemma CalculateContrastRatioOfRgb(c1: Rgb, c2: Rgb, gamma: real -> real)
    requires GammaCurve(gamma)
    ensures CalculateContrastRatio(RgbColor(c1), RgbColor(c2), gamma) ==
      Success(ContrastRatio(RelativeLuminance(c1, gamma), RelativeLuminance(c2, gamma)))
  {
  }

  /** A colour against itself, given as a tuple or as a hex string that
      parses, has ratio 1. */
  lemma CalculateContrastRatioSame(c: Color, gamma: real -> real)
    requires GammaCurve(gamma)
    requires ToRgb(c).Success?
    ensures CalculateContrastRatio(c, c, gamma) == Success(1.0)
  {
    var rgb := ToRgb(c).value;
    assert CalculateContrastRatio(c, c, gamma) == CalculateContrastRatio(RgbColor(rgb), RgbColor(rgb), gamma);
    CalculateContrastRatioOfRgb(rgb, rgb, gamma);
    ContrastOfEqual(RelativeLuminance(rgb, gamma));
  }

  /** The ratio is 21 exactly for white against black, in either order. */
  lemma CalculateContrastRatioMaximal(c1: Rgb, c2: Rgb, gamma: real -> real)
    requires GammaCurve(gamma)
    ensures CalculateContrastRatio(RgbColor(c1), RgbColor(c2), gamma) == Success(21.0) <==>
      (c1 == White && c2 == Black) || (c1 == Black && c2 == White)
  {
    var l1, l2 := RelativeLuminance(c1, gamma), RelativeLuminance(c2, gamma);
    CalculateContrastRatioOfRgb(c1, c2, gamma);
    ContrastBounds(l1, l2);
  }

  lemma BlackOnWhite(gamma: real -> real)
    requires GammaCurve(gamma)
    ensures CalculateContrastRatio(HexColor("#000000"), HexColor("#FFFFFF"), gamma) == Success(21.0)
  {
    assert ("#000000")[1..] == "000000";
    assert LStripHash("000000") == "000000";
    assert ("#FFFFFF")[1..] == "FFFFFF";
    assert LStripHash("FFFFFF") == "FFFFFF";
    assert HexToRgb("#000000") == Success(Rgb(0, 0, 0));
    assert HexToRgb("#FFFFFF") == Success(Rgb(255, 255, 255));
    CalculateContrastRatioMaximal(Black, White, gamma);
  }

  // ---------------------------------------------------------------------
  // Verdicts
  // ---------------------------------------------------------------------

  /** The AA and AAA minimum ratios for a text size. */
  datatype Requirements = Requirements(aa: real, aaa: real)

  function RequirementsFor(largeText: bool): Requirements
  {
    if largeText then Requirements(3.0, 4.5) else Requirements(4.5, 7.0)
  }

  function UpperChar(c: char): char
  {
    if 'a' <= c <= 'z' then (c as int - 32) as char else c
  }

  /** `str.upper()` over ASCII letters. */
  function UpperAscii(s: string): (t: string)
    ensures |t| == |s| && forall i :: 0 <= i < |s| ==> t[i] == UpperChar(s[i])
  {
    seq(|s|, i requires 0 <= i < |s| => UpperChar(s[i]))
  }

  /** The dictionary `check_wcag_contrast` returns; `contrastRatio` is the
      unrounded ratio. */
  datatype ContrastReport = ContrastReport(
    contrastRatio: real,
    passesAa: bool,
    passesAaa: bool,
    requiredRatio: real,
    meetsRequirement: bool,
    levelTested: string,
    textSize: string)

  /** The verdict part of `check_wcag_contrast`, for a ratio already
      computed. */
  function Evaluate(ratio: real, largeText: bool := false, level: string := "AA"): ContrastReport
  {
    var req := RequirementsFor(largeText);
    var passesAa := ratio >= req.aa;
    var passesAaa := ratio >= req.aaa;
    var aaa := UpperAscii(level) == "AAA";
    ContrastReport(
      ratio,
      passesAa,
      passesAaa,
      if aaa then req.aaa else req.aa,
      if aaa then passesAaa else passesAa,
      UpperAscii(level),
      if largeText then "large" else "normal")
  }

  /** `check_wcag_contrast`. */
  function CheckWcagContrast(foreground: Color, background: Color, gamma: real -> real,
                             largeText: bool := false, level: string := "AA"): (r: Result<ContrastReport, ColorError>)
    requires GammaCurve(gamma)
    ensures r.Success? <==> CalculateContrastRatio(foreground, background, gamma).Success?
    ensures r.Failure? ==> r.error == CalculateContrastRatio(foreground, background, gamma).error
    ensures r.Success? ==> 1.0 <= r.value.contrastRatio <= 21.0
    ensures r.Success? ==>
      r.value == Evaluate(CalculateContrastRatio(foreground, background, gamma).value, largeText, level)
  {
    match CalculateContrastRatio(foreground, background, gamma)
    case Failure(e) => Failure(e)
    case Success(ratio) => Success(Evaluate(ratio, largeText, level))
  }

  /** The level is "AAA" after upper-casing exactly when it is three
      letters a, each in either case. */
  lemma UpperIsAaa(level: string)
    ensures UpperAscii(level) == "AAA" <==> |level| == 3 && forall i :: 0 <= i < 3 ==> level[i] in {'a', 'A'}
  {
    var u := UpperAscii(level);
    if |level| == 3 && forall i :: 0 <= i < 3 ==> level[i] in {'a', 'A'} {
      assert u[0] == 'A' && u[1] == 'A' && u[2] == 'A';
    }
    if u == "AAA" {
      assert UpperChar(level[0]) == 'A' && UpperChar(level[1]) == 'A' && UpperChar(level[2]) == 'A';
    }
  }

  /** Thresholds by text size; passing AAA implies passing AA. */
  lemma EvaluateThresholds(ratio: real, largeText: bool, level: string)
    ensures Evaluate(ratio, largeText, level).passesAa <==> ratio >= (if largeText then 3.0 else 4.5)
    ensures Evaluate(ratio, largeText, level).passesAaa <==> ratio >= (if largeText then 4.5 else 7.0)
    ensures Evaluate(ratio, largeText, level).passesAaa ==> Evaluate(ratio, largeText, level).passesAa
    ensures Evaluate(ratio, largeText, level).textSize == (if largeText then "large" else "normal")
  {
  }

  /** A level of "aaa" in any case selects the AAA requirement; every other
      string falls back to AA. */
  lemma EvaluateLevel(ratio: real, largeText: bool, level: string)
    ensures var rep := Evaluate(ratio, largeText, level);
      var isAaa := |level| == 3 && forall i :: 0 <= i < 3 ==> level[i] in {'a', 'A'};
      && rep.levelTested == UpperAscii(level)
      && (isAaa ==> rep.requiredRatio == RequirementsFor(largeText).aaa && rep.meetsRequirement == rep.passesAaa)
      && (!isAaa ==> rep.requiredRatio == RequirementsFor(largeText).aa && rep.meetsRequirement == rep.passesAa)
      && (rep.meetsRequirement <==> ratio >= rep.requiredRatio)
  {
    UpperIsAaa(level);
  }

  /** `get_contrast_grade`. */
  function ContrastGrade(ratio: real, largeText: bool := false): string
  {
    if largeText then
      if ratio >= 4.5 then "AAA" else if ratio >= 3.0 then "AA" else "FAIL"
    else
      if ratio >= 7.0 then "AAA" else if ratio >= 4.5 then "AA" else "FAIL"
  }

  function GradeRank(grade: string): nat
  {
    if grade == "AAA" then 2 else if grade == "AA" then 1 else 0
  }

  /** The grade agrees with the report's verdicts for the same ratio and
      text size, whatever level was requested. */
  lemma GradeAgreesWithReport(ratio: real, largeText: bool, level: string)
    ensures ContrastGrade(ratio, largeText) in {"AAA", "AA", "FAIL"}
    ensures ContrastGrade(ratio, largeText) == "AAA" <==> Evaluate(ratio, largeText, level).passesAaa
    ensures ContrastGrade(ratio, largeText) == "AA" <==>
      Evaluate(ratio, largeText, level).passesAa && !Evaluate(ratio, largeText, level).passesAaa
    ensures ContrastGrade(ratio, largeText) != "FAIL" <==> Evaluate(ratio, largeText, level).passesAa
  {
  }

  /** A higher ratio never gets a lower grade. */
  lemma GradeMonotone(r1: real, r2: real, largeText: bool)
    requires r1 <= r2
    ensures GradeRank(ContrastGrade(r1, largeText)) <= GradeRank(ContrastGrade(r2, largeText))
  {
  }
}
