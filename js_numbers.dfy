// JavaScript numbers as the front-end code uses them: NaN or an exact
// number, `parseFloat`, the string-to-number conversion that `<`, `<=` and
// `>` apply to a string operand, and `x || 0`.
module JsNumbers {
  import opened JsText

  datatype JsNumber = NaN | Num(value: real)

  /** JavaScript truthiness of a number: neither NaN nor zero. */
  predicate Truthy(x: JsNumber)
  {
    x.Num? && x.value != 0.0
  }

  /** `x || 0`. */
  function OrZero(x: JsNumber): real
  {
    if Truthy(x) then x.value else 0.0
  }

  /** A relational comparison with NaN on either side is false. */
  predicate Less(x: JsNumber, y: JsNumber)
  {
    x.Num? && y.Num? && x.value < y.value
  }

  predicate AtMost(x: JsNumber, y: JsNumber)
  {
    x.Num? && y.Num? && x.value <= y.value
  }

  function Pow10(n: nat): (r: real)
    ensures r >= 1.0
  {
    if n == 0 then 1.0 else 10.0 * Pow10(n - 1)
  }

  /** The longest run of digits at the start of `s`. */
  function LeadingDigits(s: string): (r: string)
    ensures AllDigits(r) && StartsWith(s, r)
    ensures |r| < |s| ==> !IsDigit(s[|r|])
    decreases |s|
  {
    if s != [] && IsDigit(s[0]) then [s[0]] + LeadingDigits(s[1..]) else ""
  }

  lemma {:induction false} LeadingDigitsOfDigits(s: string)
    requires AllDigits(s)
    ensures LeadingDigits(s) == s
    decreases |s|
  {
    if s != [] {
      LeadingDigitsOfDigits(s[1..]);
    }
  }

  /** The decimal literal `[+-]? digits (. digits)? ([eE] [+-]? digits)?` found at the start of a string. */
  datatype Literal = Literal(negative: bool, intPart: string, fracPart: string, expNegative: bool, expPart: string, length: nat)

  predicate HasDigits(l: Literal)
  {
    l.intPart != "" || l.fracPart != ""
  }

  predicate IsExponentMark(c: char)
  {
    c == 'e' || c == 'E'
  }

  datatype Exponent = Exponent(negative: bool, digits: string, length: nat)

  /** `[eE] [+-]? digits` at the start of `t`; it counts only when at least one digit follows the mark and its sign. */
  function ScanExponent(t: string): (e: Exponent)
    ensures e.length <= |t| && AllDigits(e.digits)
    ensures e.digits == "" ==> e == Exponent(false, "", 0)
  {
    var markLen :=
      if |t| > 1 && IsExponentMark(t[0]) && (t[1] == '+' || t[1] == '-') then 2
      else if |t| > 0 && IsExponentMark(t[0]) then 1
      else 0;
    var ep := if markLen > 0 then LeadingDigits(t[markLen..]) else "";
    if ep == "" then Exponent(false, "", 0) else Exponent(markLen == 2 && t[1] == '-', ep, markLen + |ep|)
  }

  function ScanLiteral(s: string): (l: Literal)
    ensures l.length <= |s|
    ensures AllDigits(l.intPart) && AllDigits(l.fracPart) && AllDigits(l.expPart)
  {
    var signLen := if |s| > 0 && (s[0] == '-' || s[0] == '+') then 1 else 0;
    var rest := s[signLen..];
    var ip := LeadingDigits(rest);
    var after := rest[|ip|..];
    var hasDot := |after| > 0 && after[0] == '.';
    var fp := if hasDot then LeadingDigits(after[1..]) else "";
    var mantissaLen := signLen + |ip| + (if hasDot then 1 + |fp| else 0);
    var e := ScanExponent(s[mantissaLen..]);
    Literal(signLen == 1 && s[0] == '-', ip, fp, e.negative, e.digits, mantissaLen + e.length)
  }

  function LiteralValue(l: Literal): real
    requires AllDigits(l.intPart) && AllDigits(l.fracPart) && AllDigits(l.expPart)
  {
    var scaled := Scale(Mantissa(l.intPart, l.fracPart), l.expNegative, DigitsValue(l.expPart));
    if l.negative then -scaled else scaled
  }

  /** A mantissa times ten to an exponent, or over it for a negative exponent, one power of ten at a time. */
  function Scale(m: real, negative: bool, e: nat): real
  {
    if e == 0 then m
    else if negative then Scale(m, negative, e - 1) / 10.0
    else Scale(m, negative, e - 1) * 10.0
  }

  /** The digits before and after the point, as one number. */
  function Mantissa(i: string, f: string): (r: real)
    requires AllDigits(i) && AllDigits(f)
    ensures f == "" ==> r == DigitsValue(i) as real
  {
    DigitsValue(i) as real + FractionValue(f)
  }

  /** The digits after the point, as a fraction. */
  function FractionValue(f: string): (r: real)
    requires AllDigits(f)
    ensures f == "" ==> r == 0.0
  {
    Scale(DigitsValue(f) as real, true, |f|)
  }

  /** `parseFloat(s)`: leading white space skipped, the longest literal prefix read, NaN without digits. */
  function ParseFloat(s: string): JsNumber
  {
    var l := ScanLiteral(TrimStart(s));
    if HasDigits(l) then Num(LiteralValue(l)) else NaN
  }

  /** The value of a letter or digit as a digit of a base up to 36; 36 for any other character. */
  function RadixDigit(c: char): (d: nat)
    ensures d <= 36
  {
    if '0' <= c <= '9' then c as int - '0' as int
    else if 'a' <= c <= 'z' then c as int - 'a' as int + 10
    else if 'A' <= c <= 'Z' then c as int - 'A' as int + 10
    else 36
  }

  predicate AllRadix(s: string, base: nat)
  {
    forall i :: 0 <= i < |s| ==> RadixDigit(s[i]) < base
  }

  function RadixValue(s: string, base: nat): nat
    requires AllRadix(s, base)
    decreases |s|
  {
    if s == [] then 0 else Shift(RadixValue(s[..|s| - 1], base), base) + RadixDigit(s[|s| - 1])
  }

  /** `v * base` for the three prefixed bases. */
  function Shift(v: nat, base: nat): nat
  {
    if base == 2 then 2 * v else if base == 8 then 8 * v else 16 * v
  }

  /** The base a `0x`, `0o` or `0b` prefix selects (either letter case), and 0 without one. */
  function PrefixBase(t: string): (b: nat)
    ensures b == 0 || b == 2 || b == 8 || b == 16
  {
    if |t| < 2 || t[0] != '0' then 0
    else if t[1] == 'x' || t[1] == 'X' then 16
    else if t[1] == 'o' || t[1] == 'O' then 8
    else if t[1] == 'b' || t[1] == 'B' then 2
    else 0
  }

  /** `Number(s)`, the conversion a relational operator applies: the whole trimmed text must be a
      decimal literal or an unsigned prefixed integer, and "" is 0. */
  function ToNumber(s: string): JsNumber
  {
    var t := Trim(s);
    var l := ScanLiteral(t);
    var base := PrefixBase(t);
    if t == "" then Num(0.0)
    else if base != 0 then
      (if |t| > 2 && AllRadix(t[2..], base) then Num(RadixValue(t[2..], base) as real) else NaN)
    else if HasDigits(l) && l.length == |t| then Num(LiteralValue(l))
    else NaN
  }

  /** Digits followed by text that continues no mantissa: only an exponent can follow. */
  lemma ScanDigitsThen(d: string, t: string)
    requires d != "" && AllDigits(d)
    requires t == [] || (!IsDigit(t[0]) && t[0] != '.')
    ensures var e := ScanExponent(t);
      ScanLiteral(d + t) == Literal(false, d, "", e.negative, e.digits, |d| + e.length)
  {
    var s := d + t;
    assert s[0] == d[0];
    assert s[0..] == s;
    LeadingDigitsPrefix(d, t);
    assert s[|d|..] == t;
  }

  lemma ScanDigits(d: string)
    requires d != "" && AllDigits(d)
    ensures ScanLiteral(d) == Literal(false, d, "", false, "", |d|)
  {
    ScanDigitsThen(d, "");
    assert d + "" == d;
  }

  lemma {:induction false} LeadingDigitsPrefix(d: string, rest: string)
    requires AllDigits(d) && (rest == [] || !IsDigit(rest[0]))
    ensures LeadingDigits(d + rest) == d
    decreases |d|
  {
    if d == [] {
      assert d + rest == rest;
    } else {
      assert (d + rest)[1..] == d[1..] + rest;
      LeadingDigitsPrefix(d[1..], rest);
    }
  }

  /** Text with no white space at either end is left alone by both trims. */
  lemma TrimPlain(s: string)
    requires s != "" && !IsSpace(s[0]) && !IsSpace(s[|s| - 1])
    ensures TrimStart(s) == s && Trim(s) == s
  {
  }

  lemma TrimDigits(d: string)
    requires d != "" && AllDigits(d)
    ensures TrimStart(d) == d && Trim(d) == d
  {
    assert !IsSpace(d[0]);
    assert !IsSpace(d[|d| - 1]);
    TrimPlain(d);
  }

  lemma DigitsLiteralValue(d: string)
    requires AllDigits(d)
    ensures LiteralValue(Literal(false, d, "", false, "", |d|)) == DigitsValue(d) as real
  {
  }

  lemma NoPrefix(d: string, t: string)
    requires d != "" && AllDigits(d) && (t == [] || !IsDigit(t[0]))
    requires |d| == 1 ==> t == [] || (t[0] != 'x' && t[0] != 'X' && t[0] != 'o' && t[0] != 'O' && t[0] != 'b' && t[0] != 'B')
    ensures PrefixBase(d + t) == 0
  {
    var s := d + t;
    if |s| >= 2 {
      if |d| >= 2 {
        assert s[1] == d[1] && IsDigit(d[1]);
      } else {
        assert s[1] == t[0];
      }
    }
  }

  /** A plain digit string reads as its decimal value under `parseFloat`. */
  lemma ParseFloatDigits(d: string)
    requires d != "" && AllDigits(d)
    ensures ParseFloat(d) == Num(DigitsValue(d) as real)
  {
    TrimDigits(d);
    ScanDigits(d);
    DigitsLiteralValue(d);
  }

  /** A plain digit string reads as its decimal value under both conversions. */
  lemma ParseDigits(d: string)
    requires d != "" && AllDigits(d)
    ensures ParseFloat(d) == Num(DigitsValue(d) as real)
    ensures ToNumber(d) == Num(DigitsValue(d) as real)
  {
    ParseFloatDigits(d);
    TrimDigits(d);
    ScanDigits(d);
    NoPrefix(d, "");
    assert d + "" == d;
    DigitsLiteralValue(d);
  }

  lemma ExponentAfterMark(x: string)
    requires x != "" && AllDigits(x)
    ensures ScanExponent("e" + x) == Exponent(false, x, 1 + |x|)
  {
    var t := "e" + x;
    assert t[1] == x[0] && IsDigit(x[0]);
    assert t[1..] == x;
    LeadingDigitsOfDigits(x);
  }

  lemma ScanExponentText(d: string, x: string)
    requires d != "" && AllDigits(d) && x != "" && AllDigits(x)
    ensures ScanLiteral(d + ("e" + x)) == Literal(false, d, "", false, x, |d| + 1 + |x|)
  {
    ScanDigitsThen(d, "e" + x);
    ExponentAfterMark(x);
  }

  /** Digits, an `e` and exponent digits: both conversions shift the digits' value up by the exponent. */
  lemma ParseExponent(d: string, x: string, s: string)
    requires d != "" && AllDigits(d) && x != "" && AllDigits(x)
    requires s == d + "e" + x
    ensures ParseFloat(s) == Num(Scale(DigitsValue(d) as real, false, DigitsValue(x)))
    ensures ToNumber(s) == Num(Scale(DigitsValue(d) as real, false, DigitsValue(x)))
  {
    assert s == d + ("e" + x);
    assert s[0] == d[0] && s[|s| - 1] == x[|x| - 1];
    TrimPlain(s);
    NoPrefix(d, "e" + x);
    ScanExponentText(d, x);
  }

  /** What a number field holding "1e3" reads as: 1000 under both conversions. */
  lemma ExponentText()
    ensures ParseFloat("1e3") == Num(1000.0) && ToNumber("1e3") == Num(1000.0)
  {
    assert "1e3" == "1" + "e" + "3";
    assert DigitsValue("1") == 1 && DigitsValue("3") == 3;
    ParseExponent("1", "3", "1e3");
    assert Scale(1.0, false, 3) == 1000.0;
  }

  lemma ScanBareMark()
    ensures ScanLiteral("1e") == Literal(false, "1", "", false, "", 1)
  {
    assert "1e" == "1" + "e";
    ScanDigitsThen("1", "e");
    assert "e"[1..] == "";
  }

  /** A mark with no digits after it is no exponent: `parseFloat` stops before it and `Number` refuses the text. */
  lemma BareMark()
    ensures ParseFloat("1e") == Num(1.0) && ToNumber("1e") == NaN
  {
    TrimPlain("1e");
    NoPrefix("1", "e");
    assert "1" + "e" == "1e";
    ScanBareMark();
    DigitsLiteralValue("1");
  }

  lemma {:induction false} ScaleUp(m: real, e: nat)
    ensures Scale(m, false, e) == m * Pow10(e)
  {
    if e > 0 {
      ScaleUp(m, e - 1);
    }
  }

  lemma HexScan(h: string, t: string)
    requires h != "" && AllRadix(h, 16) && t == "0x" + h
    ensures ScanLiteral(t) == Literal(false, "0", "", false, "", 1)
  {
    var u := "x" + h;
    assert t == "0" + u && u[0] == 'x';
    ScanDigitsThen("0", u);
    NoExponent(u);
  }

  /** Text that does not open with `e` or `E` carries no exponent. */
  lemma NoExponent(t: string)
    requires t == [] || !IsExponentMark(t[0])
    ensures ScanExponent(t) == Exponent(false, "", 0)
  {
  }

  /** Hexadecimal text: `Number` reads the digits after `0x` in base 16, `parseFloat` stops at the `x` and reads 0. */
  lemma HexText(h: string, t: string)
    requires h != "" && AllRadix(h, 16) && t == "0x" + h
    ensures ToNumber(t) == Num(RadixValue(h, 16) as real)
    ensures ParseFloat(t) == Num(0.0)
  {
    assert t[0] == '0' && t[1] == 'x' && t[2..] == h;
    assert RadixDigit(t[|t| - 1]) < 16 by {
      assert t[|t| - 1] == h[|h| - 1];
    }
    TrimPlain(t);
    HexScan(h, t);
    DigitsLiteralValue("0");
  }

  /** The empty field: `parseFloat` gives NaN while the comparison conversion gives 0. */
  lemma EmptyText()
    ensures ParseFloat("") == NaN && ToNumber("") == Num(0.0)
  {
  }
}
