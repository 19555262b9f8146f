/// The JavaScript number built-ins the application leans on, over exact reals:
/// `parseFloat` (and the `parseFloat(s) || 0` idiom), `Math.round`,
/// `Number.prototype.toFixed(1)`, the decimal rendering of small non-negative
/// numbers, and the edit gate `/^\d*\.?\d*$/` of the calculator's text fields.
module JsNumber {

  datatype Option<T> = None | Some(value: T)

  // ---------------------------------------------------------------------------
  // Decimal digits
  // ---------------------------------------------------------------------------

  /** `\d` in a JavaScript regular expression without the `u` flag. */
  predicate IsDigit(c: char) {
    '0' <= c <= '9'
  }

  function DigitValue(c: char): (d: nat)
    requires IsDigit(c)
    ensures d < 10
  {
    c as int - '0' as int
  }

  function DigitChar(d: nat): (c: char)
    requires d < 10
    ensures IsDigit(c) && DigitValue(c) == d
  {
    ('0' as int + d) as char
  }

  predicate AllDigits(s: string) {
    forall i :: 0 <= i < |s| ==> IsDigit(s[i])
  }

  /** Length of the longest all-digit prefix of `s`. */
  function LeadingDigits(s: string): (n: nat)
    ensures n <= |s| && AllDigits(s[..n])
    ensures n < |s| ==> !IsDigit(s[n])
  {
    if |s| > 0 && IsDigit(s[0]) then
      var k := LeadingDigits(s[1..]);
      assert s[..k + 1] == [s[0]] + s[1..][..k];
      k + 1
    else 0
  }

  /** The integer a digit string denotes, read most significant digit first. */
  function DigitsValue(ds: string): nat
    requires AllDigits(ds)
  {
    if ds == [] then 0 else 10 * DigitsValue(ds[..|ds| - 1]) + DigitValue(ds[|ds| - 1])
  }

  /** The value of the digits after a decimal point. */
  function FracValue(ds: string): (r: real)
    requires AllDigits(ds)
    ensures 0.0 <= r < 1.0
  {
    if ds == [] then 0.0 else (DigitValue(ds[0]) as real + FracValue(ds[1..])) / 10.0
  }

  function Pow10(n: nat): (p: nat)
    ensures p >= 1
  {
    if n == 0 then 1 else 10 * Pow10(n - 1)
  }

  /** 10 to the power `e`, for a possibly negative exponent. */
  function Scale(e: int): (r: real)
    ensures r > 0.0
  {
    if e >= 0 then Pow10(e) as real else 1.0 / Pow10(-e) as real
  }

  // ---------------------------------------------------------------------------
  // parseFloat
  // ---------------------------------------------------------------------------

  /** The longest prefix of a string that `parseFloat` reads as a decimal literal:
      an optional sign, digits, an optional `.` and digits (at least one digit in
      all), and an optional exponent. */
  datatype Literal = Literal(negative: bool, whole: string, fraction: string, exponent: int)

  /** The exponent part `e`/`E`, optional sign, at least one digit; 0 when absent. */
  function ScanExponent(t: string): int
  {
    if |t| >= 2 && (t[0] == 'e' || t[0] == 'E') then
      var ds := if t[1] == '+' || t[1] == '-' then t[2..] else t[1..];
      var k := LeadingDigits(ds);
      if k == 0 then 0
      else if t[1] == '-' then -(DigitsValue(ds[..k]) as int)
      else DigitsValue(ds[..k])
    else 0
  }

  /** The digits before the point, the digits after it, and what follows. */
  datatype Mantissa = Mantissa(whole: string, fraction: string, tail: string)

  function ScanMantissa(body: string): (m: Mantissa)
    ensures AllDigits(m.whole) && AllDigits(m.fraction)
  {
    var i := LeadingDigits(body);
    if i < |body| && body[i] == '.' then
      var f := LeadingDigits(body[i + 1..]);
      Mantissa(body[..i], body[i + 1..][..f], body[i + 1 + f..])
    else
      Mantissa(body[..i], "", body[i..])
  }

  function ScanLiteral(s: string): (r: Option<Literal>)
    ensures r.Some? ==> AllDigits(r.value.whole) && AllDigits(r.value.fraction)
  {
    var signed := |s| > 0 && (s[0] == '+' || s[0] == '-');
    var m := ScanMantissa(if signed then s[1..] else s);
    if |m.whole| + |m.fraction| == 0 then None
    else Some(Literal(signed && s[0] == '-', m.whole, m.fraction, ScanExponent(m.tail)))
  }

  function LiteralValue(l: Literal): real
    requires AllDigits(l.whole) && AllDigits(l.fraction)
  {
    var magnitude := (DigitsValue(l.whole) as real + FracValue(l.fraction)) * Scale(l.exponent);
    if l.negative then -magnitude else magnitude
  }

  /** `parseFloat(s)`; `None` stands for NaN. */
  function ParseFloat(s: string): Option<real>
  {
    match ScanLiteral(s)
    case None => None
    case Some(l) => Some(LiteralValue(l))
  }

  /** `parseFloat(s) || 0`: NaN (and zero) become 0. */
  function Parse(s: string): real
  {
    match ParseFloat(s)
    case None => 0.0
    case Some(v) => v
  }

  // ---------------------------------------------------------------------------
  // The edit gate /^\d*\.?\d*$/
  // ---------------------------------------------------------------------------

  /** `s` matches `/^\d*\.?\d*$/`: digits, at most one `.`, digits. */
  predicate IsNumericEdit(s: string) {
    var i := LeadingDigits(s);
    i == |s| || (s[i] == '.' && AllDigits(s[i + 1..]))
  }

  /** The empty text passes the gate: a field may be cleared. */
  lemma EmptyPassesGate()
    ensures IsNumericEdit("")
  {
  }

  lemma DotFreeCount(t: string)
    requires AllDigits(t)
    ensures multiset(t)['.'] == 0
  {
    assert '.' !in multiset(t);
  }

  predicate DigitsAndDots(s: string) {
    forall k :: 0 <= k < |s| ==> IsDigit(s[k]) || s[k] == '.'
  }

  /** The gate, read as a character class: every character is a digit or a dot,
      and there is at most one dot. */
  lemma NumericEditIff(s: string)
    ensures IsNumericEdit(s) <==> DigitsAndDots(s) && multiset(s)['.'] <= 1
  {
    if IsNumericEdit(s) {
      NumericEditIsDigitsAndOneDot(s);
    } else {
      NotNumericEdit(s);
    }
  }

  lemma NumericEditIsDigitsAndOneDot(s: string)
    requires IsNumericEdit(s)
    ensures DigitsAndDots(s) && multiset(s)['.'] <= 1
  {
    var i := LeadingDigits(s);
    assert s == s[..i] + s[i..];
    DotFreeCount(s[..i]);
    if i < |s| {
      var rest := s[i + 1..];
      assert s[i..] == [s[i]] + rest;
      DotFreeCount(rest);
      assert multiset(s) == multiset(s[..i]) + multiset([s[i]]) + multiset(rest);
      forall k | 0 <= k < |s| ensures IsDigit(s[k]) || s[k] == '.' {
        if k > i { assert s[k] == rest[k - i - 1]; }
      }
    }
  }

  lemma NotNumericEdit(s: string)
    requires !IsNumericEdit(s)
    ensures !(DigitsAndDots(s) && multiset(s)['.'] <= 1)
  {
    var i := LeadingDigits(s);
    var rest := s[i + 1..];
    if s[i] == '.' {
      var j :| 0 <= j < |rest| && !IsDigit(rest[j]);
      if rest[j] == '.' {
        assert s == s[..i] + [s[i]] + rest[..j] + [rest[j]] + rest[j + 1..];
        assert multiset(s)['.'] >= 2;
      } else {
        assert s[i + 1 + j] == rest[j];
      }
    }
  }

  // ---------------------------------------------------------------------------
  // Reading plain decimal strings back
  // ---------------------------------------------------------------------------

  lemma {:induction false} LeadingDigitsOf(whole: string, rest: string)
    requires AllDigits(whole)
    requires rest == [] || !IsDigit(rest[0])
    ensures LeadingDigits(whole + rest) == |whole|
  {
    if whole != [] {
      assert (whole + rest)[1..] == whole[1..] + rest;
      LeadingDigitsOf(whole[1..], rest);
    }
  }

  lemma {:induction false} DigitsValueSnoc(ds: string, c: char)
    requires AllDigits(ds) && IsDigit(c)
    ensures AllDigits(ds + [c])
    ensures DigitsValue(ds + [c]) == 10 * DigitsValue(ds) + DigitValue(c)
  {
    assert (ds + [c])[..|ds|] == ds;
  }

  lemma PlainLiteralValue(whole: string, fraction: string)
    requires AllDigits(whole) && AllDigits(fraction)
    ensures LiteralValue(Literal(false, whole, fraction, 0)) == DigitsValue(whole) as real + FracValue(fraction)
  {
    assert Scale(0) == 1.0;
  }

  lemma ScanWhole(whole: string)
    requires AllDigits(whole) && |whole| > 0
    ensures ScanLiteral(whole) == Some(Literal(false, whole, "", 0))
  {
    LeadingDigitsOf(whole, []);
    assert whole + [] == whole;
    assert ScanMantissa(whole) == Mantissa(whole, "", []) by {
      assert whole[..|whole|] == whole;
    }
  }

  lemma ScanDecimalMantissa(whole: string, fraction: string)
    requires AllDigits(whole) && AllDigits(fraction)
    ensures ScanMantissa(whole + "." + fraction) == Mantissa(whole, fraction, [])
  {
    var s := whole + "." + fraction;
    assert s == whole + ("." + fraction);
    LeadingDigitsOf(whole, "." + fraction);
    LeadingDigitsOf(fraction, []);
    assert fraction + [] == fraction;
    assert s[..|whole|] == whole;
    assert s[|whole| + 1..] == fraction;
    assert fraction[..|fraction|] == fraction;
    assert s[|whole| + 1 + |fraction|..] == [];
  }

  lemma ScanDecimal(whole: string, fraction: string)
    requires AllDigits(whole) && AllDigits(fraction) && |whole| > 0
    ensures ScanLiteral(whole + "." + fraction) == Some(Literal(false, whole, fraction, 0))
  {
    hide ScanMantissa, LeadingDigits;
    ScanDecimalMantissa(whole, fraction);
    assert IsDigit((whole + "." + fraction)[0]);
  }

  /** A digit string with no sign and no exponent reads back as its value. */
  lemma ParseWhole(whole: string)
    requires AllDigits(whole) && |whole| > 0
    ensures ParseFloat(whole) == Some(DigitsValue(whole) as real)
    ensures Parse(whole) == DigitsValue(whole) as real
  {
    ScanWhole(whole);
    PlainLiteralValue(whole, "");
  }

  /** `whole.fraction` (the fraction possibly empty, as in "1.") reads back as
      the whole part plus the fraction. */
  lemma ParseDecimal(whole: string, fraction: string)
    requires AllDigits(whole) && AllDigits(fraction) && |whole| > 0
    ensures ParseFloat(whole + "." + fraction) == Some(DigitsValue(whole) as real + FracValue(fraction))
    ensures Parse(whole + "." + fraction) == DigitsValue(whole) as real + FracValue(fraction)
  {
    ScanDecimal(whole, fraction);
    PlainLiteralValue(whole, fraction);
  }

  lemma ScanDotFraction(fraction: string)
    requires AllDigits(fraction)
    ensures ScanLiteral("." + fraction) == if fraction == [] then None else Some(Literal(false, "", fraction, 0))
  {
    var s := "." + fraction;
    LeadingDigitsOf(fraction, []);
    assert fraction + [] == fraction;
    assert ScanMantissa(s) == Mantissa("", fraction, []) by {
      assert LeadingDigits(s) == 0;
      assert s[1..] == fraction;
      assert fraction[..|fraction|] == fraction;
      assert s[1 + |fraction|..] == [];
    }
  }

  /** What the gate lets through parses to a non-negative number, and only the
      digit-free edits "" and "." fall back to 0 through NaN. */
  lemma ParseNumericEdit(s: string)
    requires IsNumericEdit(s)
    ensures Parse(s) >= 0.0
    ensures ParseFloat(s).None? <==> s == "" || s == "."
  {
    var i := LeadingDigits(s);
    if i == |s| {
      if s != [] {
        assert s[..i] == s;
        ParseWhole(s);
      }
    } else {
      var whole, rest := s[..i], s[i + 1..];
      assert s == whole + "." + rest;
      if i > 0 {
        ParseDecimal(whole, rest);
      } else {
        ScanDotFraction(rest);
        if rest != [] {
          PlainLiteralValue("", rest);
        }
      }
    }
  }

  lemma ParseExamples()
    ensures Parse("") == 0.0 && Parse(".") == 0.0
    ensures Parse("1.") == 1.0
  {
    ParseNumericEdit("");
    ParseNumericEdit(".");
    assert "1." == "1" + "." + "";
    ParseDecimal("1", "");
  }

  // ---------------------------------------------------------------------------
  // Math.round, toFixed(1), Number#toString
  // ---------------------------------------------------------------------------

  /** `Math.round`: the nearest integer, halves rounded up. */
  function MathRound(x: real): (n: int)
    ensures x - 0.5 < n as real <= x + 0.5
  {
    (x + 0.5).Floor
  }

  /** The decimal digits of `n` (how `${n}` and `n.toString()` render a
      non-negative integer). */
  function NatToString(n: nat): (s: string)
    ensures |s| > 0 && AllDigits(s) && DigitsValue(s) == n
  {
    if n < 10 then
      [DigitChar(n)]
    else
      var prefix := NatToString(n / 10);
      DigitsValueSnoc(prefix, DigitChar(n % 10));
      prefix + [DigitChar(n % 10)]
  }

  lemma NatToStringInjective(a: nat, b: nat)
    requires NatToString(a) == NatToString(b)
    ensures a == b
  {
  }

  lemma ParseNatToString(n: nat)
    ensures Parse(NatToString(n)) == n as real
  {
    ParseWhole(NatToString(n));
  }

  /** A real rounded to one decimal, as `toFixed(1)` rounds it. */
  function Round1(x: real): real
  {
    MathRound(x * 10.0) as real / 10.0
  }

  lemma Round1Close(x: real)
    ensures x - 0.05 < Round1(x) <= x + 0.05
  {
  }

  /** `x.toFixed(1)` for a non-negative `x`. */
  function ToFixed1(x: real): string
    requires x >= 0.0
  {
    var n: nat := MathRound(x * 10.0);
    NatToString(n / 10) + "." + [DigitChar(n % 10)]
  }

  /** Re-parsing what `toFixed(1)` printed gives the value rounded to 0.1. */
  lemma ParseToFixed1(x: real)
    requires x >= 0.0
    ensures Parse(ToFixed1(x)) == Round1(x)
  {
    var n: nat := MathRound(x * 10.0);
    var d := DigitChar(n % 10);
    ParseDecimal(NatToString(n / 10), [d]);
    assert [d][1..] == [];
    assert FracValue([d]) == (n % 10) as real / 10.0;
  }

  /** The value is a whole number of hundredths. */
  predicate HasTwoDecimals(x: real) {
    (x * 100.0).Floor as real == x * 100.0
  }

  /** `x.toString()` for a non-negative number with at most two decimals:
      no trailing zeros, no point for a whole number. */
  function NumberToString(x: real): string
    requires x >= 0.0 && HasTwoDecimals(x)
  {
    var n: nat := (x * 100.0).Floor;
    var whole := NatToString(n / 100);
    var r := n % 100;
    if r == 0 then whole
    else if r % 10 == 0 then whole + "." + [DigitChar(r / 10)]
    else whole + "." + [DigitChar(r / 10), DigitChar(r % 10)]
  }

  lemma ParseNumberToString(x: real)
    requires x >= 0.0 && HasTwoDecimals(x)
    ensures Parse(NumberToString(x)) == x
  {
    var n: nat := (x * 100.0).Floor;
    var whole := NatToString(n / 100);
    var r := n % 100;
    assert n == 100 * (n / 100) + r;
    if r == 0 {
      ParseWhole(whole);
    } else if r % 10 == 0 {
      var d := DigitChar(r / 10);
      ParseDecimal(whole, [d]);
      assert [d][1..] == [];
    } else {
      var d1, d2 := DigitChar(r / 10), DigitChar(r % 10);
      ParseDecimal(whole, [d1, d2]);
      assert [d1, d2][1..] == [d2];
      assert [d2][1..] == [];
      assert FracValue([d2]) == (r % 10) as real / 10.0;
      assert FracValue([d1, d2]) == ((r / 10) as real + (r % 10) as real / 10.0) / 10.0;
      assert r == 10 * (r / 10) + r % 10;
    }
  }
}
