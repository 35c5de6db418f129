/**
 * The parts of JavaScript's string-to-number conversion the forms rely on:
 * `parseInt` with no radix and `parseFloat`, both reading the longest
 * numeric prefix after leading whitespace.
 */
module JsText {
  import opened Wrappers

  /** The characters JavaScript's `\s` and the number parsers treat as white space. */
  predicate IsJsWhitespace(c: char)
  {
    c == ' ' || c == '\t' || c == '\n' || c == '\r' || c == '\U{000B}' || c == '\U{000C}'
    || c == '\U{00A0}' || c == '\U{1680}' || ('\U{2000}' <= c <= '\U{200A}')
    || c == '\U{2028}' || c == '\U{2029}' || c == '\U{202F}' || c == '\U{205F}'
    || c == '\U{3000}' || c == '\U{FEFF}'
  }

  /** The string without its leading white space. */
  function TrimStart(s: string): (t: string)
    ensures |t| <= |s| && t == s[|s| - |t|..]
    ensures t != [] ==> !IsJsWhitespace(t[0])
    ensures forall i :: 0 <= i < |s| - |t| ==> IsJsWhitespace(s[i])
  {
    if s != [] && IsJsWhitespace(s[0]) then TrimStart(s[1..]) else s
  }

  predicate IsDigit(c: char)
  {
    '0' <= c <= '9'
  }

  function DigitValue(c: char): (d: nat)
    requires IsDigit(c)
    ensures d < 10
  {
    (c as int) - ('0' as int)
  }

  /** The length of the run of decimal digits that starts the string. */
  function LeadingDigits(s: string): (n: nat)
    ensures n <= |s|
    ensures forall i :: 0 <= i < n ==> IsDigit(s[i])
    ensures n < |s| ==> !IsDigit(s[n])
  {
    if s != [] && IsDigit(s[0]) then 1 + LeadingDigits(s[1..]) else 0
  }

  /** The value of a string of decimal digits, most significant first. */
  function DigitsValue(s: string): nat
    requires forall i :: 0 <= i < |s| ==> IsDigit(s[i])
  {
    if s == [] then 0 else 10 * DigitsValue(s[..|s| - 1]) + DigitValue(s[|s| - 1])
  }

  function Pow10(k: nat): (p: nat)
    ensures p >= 1
  {
    if k == 0 then 1 else 10 * Pow10(k - 1)
  }

  /** Splits an optional leading '+' or '-' off a string. */
  function SignOf(t: string): (r: (int, string))
    ensures r.0 == 1 || r.0 == -1
    ensures r.0 == -1 <==> t != [] && t[0] == '-'
    ensures r.1 == if t != [] && (t[0] == '-' || t[0] == '+') then t[1..] else t
  {
    if t != [] && t[0] == '-' then (-1, t[1..])
    else if t != [] && t[0] == '+' then (1, t[1..])
    else (1, t)
  }

  /** The text after leading white space and an optional sign. */
  function Unsigned(s: string): string
  {
    SignOf(TrimStart(s)).1
  }

  /** The sign in front of the number: -1 after a leading '-', else 1. */
  function Sign(s: string): int
  {
    SignOf(TrimStart(s)).0
  }

  /** `parseInt(s)` with no radix; `None` stands for NaN. */
  function ParseInt(s: string): (r: Option<int>)
    ensures r.None? <==> LeadingDigits(Unsigned(s)) == 0
  {
    var rest := Unsigned(s);
    var n := LeadingDigits(rest);
    if n == 0 then None else Some(Sign(s) * DigitsValue(rest[..n]))
  }

  /** A run of digits after the point, read in tenths, hundredths, and so on. */
  function Fraction(digits: string): real
    requires forall i :: 0 <= i < |digits| ==> IsDigit(digits[i])
  {
    DigitsValue(digits) as real / Pow10(|digits|) as real
  }

  /** A magnitude with the sign in front of the number applied. */
  function Signed(sign: int, x: real): real
  {
    if sign == -1 then -x else x
  }

  /** The number unsigned text starts with: digits, optionally a point and more digits. */
  function Magnitude(rest: string): (r: Option<real>)
    ensures r.None? <==>
      LeadingDigits(rest) == 0 && !(rest != [] && rest[0] == '.' && LeadingDigits(rest[1..]) > 0)
  {
    var n := LeadingDigits(rest);
    var after := rest[n..];
    if after != [] && after[0] == '.' && (n > 0 || LeadingDigits(after[1..]) > 0) then
      Some(DigitsValue(rest[..n]) as real + Fraction(after[1..][..LeadingDigits(after[1..])]))
    else if n == 0 then None
    else Some(DigitsValue(rest[..n]) as real)
  }

  /** `parseFloat(s)` without exponents or `Infinity`; `None` stands for NaN. */
  function ParseFloat(s: string): (r: Option<real>)
    ensures r.None? <==>
      && LeadingDigits(Unsigned(s)) == 0
      && !(Unsigned(s) != [] && Unsigned(s)[0] == '.' && LeadingDigits(Unsigned(s)[1..]) > 0)
  {
    match Magnitude(Unsigned(s))
    case None => None
    case Some(x) => Some(Signed(Sign(s), x))
  }

  /** `parseFloat(s) || 0`: NaN and zero both give 0. */
  function NumberOrZero(s: string): (x: real)
    ensures ParseFloat(s).None? ==> x == 0.0
    ensures ParseFloat(s).Some? ==> x == ParseFloat(s).value
  {
    match ParseFloat(s)
    case None => 0.0
    case Some(v) => if v != 0.0 then v else 0.0
  }

  function DigitChar(d: nat): (c: char)
    requires d < 10
    ensures IsDigit(c) && DigitValue(c) == d
  {
    ('0' as int + d) as char
  }

  /** The decimal numeral of a natural number. */
  function NatToString(n: nat): (s: string)
    ensures |s| >= 1
    ensures forall i :: 0 <= i < |s| ==> IsDigit(s[i])
  {
    if n < 10 then [DigitChar(n)] else NatToString(n / 10) + [DigitChar(n % 10)]
  }

  lemma {:induction false} DigitsValueOfNat(n: nat)
    ensures DigitsValue(NatToString(n)) == n
  {
    if n >= 10 {
      DigitsValueOfNat(n / 10);
      var s := NatToString(n);
      assert s[..|s| - 1] == NatToString(n / 10);
    }
  }

  /** A string that starts with a digit has no white space or sign to skip. */
  lemma DigitFirstIsUnsigned(s: string)
    requires s != [] && IsDigit(s[0])
    ensures Unsigned(s) == s && Sign(s) == 1
  {
    assert !IsJsWhitespace(s[0]);
    assert TrimStart(s) == s;
  }

  /** A numeral has no white space or sign to skip. */
  lemma NumeralIsUnsigned(s: string)
    requires s != [] && forall i :: 0 <= i < |s| ==> IsDigit(s[i])
    ensures Unsigned(s) == s && Sign(s) == 1
  {
    DigitFirstIsUnsigned(s);
  }

  /** `parseInt` reads back the numeral of every natural number. */
  lemma ParseIntOfNumeral(n: nat)
    ensures ParseInt(NatToString(n)) == Some(n)
  {
    var s := NatToString(n);
    NumeralIsUnsigned(s);
    LeadingDigitsAll(s);
    assert s[..|s|] == s;
    DigitsValueOfNat(n);
  }

  /** `parseFloat` reads back the numeral of every natural number. */
  lemma ParseFloatOfNumeral(n: nat)
    ensures ParseFloat(NatToString(n)) == Some(n as real)
  {
    var s := NatToString(n);
    NumeralIsUnsigned(s);
    LeadingDigitsAll(s);
    assert s[..|s|] == s;
    assert s[|s|..] == [];
    DigitsValueOfNat(n);
  }

  lemma {:induction false} LeadingDigitsAll(s: string)
    requires forall i :: 0 <= i < |s| ==> IsDigit(s[i])
    ensures LeadingDigits(s) == |s|
  {
    if s != [] {
      LeadingDigitsAll(s[1..]);
    }
  }

  /** The empty string and text without digits are NaN to `parseInt`. */
  lemma ParseIntOfNoDigits()
    ensures ParseInt("") == None
    ensures ParseInt("abc") == None
  {
    assert TrimStart("") == "";
    assert TrimStart("abc") == "abc" by {
      assert !IsJsWhitespace('a');
    }
  }

  /** White space in front of the number is skipped. */
  lemma ParseIntSkipsSpace(c: char, s: string)
    requires IsJsWhitespace(c)
    ensures ParseInt([c] + s) == ParseInt(s)
  {
    assert ([c] + s)[1..] == s;
    assert TrimStart([c] + s) == TrimStart(s);
  }

  /** So " 4" reads as 4. */
  lemma ParseIntOfSpacedFour()
    ensures ParseInt(" 4") == Some(4)
  {
    ParseIntSkipsSpace(' ', "4");
    assert " 4" == [' '] + "4";
    ParseIntOfNumeral(4);
    assert NatToString(4) == "4";
  }

  /** A leading '-' negates. */
  lemma ParseIntNegative()
    ensures ParseInt("-3") == Some(-3)
  {
    assert TrimStart("-3") == "-3" by {
      assert !IsJsWhitespace('-');
    }
    assert "-3"[1..] == "3";
    assert LeadingDigits("3") == 1;
    assert "3"[..1] == "3";
  }

  /** Text after the digits is ignored. */
  lemma ParseIntStopsAtText()
    ensures ParseInt("5days") == Some(5)
  {
    assert TrimStart("5days") == "5days" by {
      assert !IsJsWhitespace('5');
    }
    assert LeadingDigits("days") == 0;
    assert LeadingDigits("5days") == 1;
    assert "5days"[..1] == "5";
  }

  /** The empty string and a bare point are NaN to `parseFloat`; `|| 0` turns that into 0. */
  lemma ParseFloatOfNoDigits()
    ensures ParseFloat("") == None
    ensures ParseFloat(".") == None
    ensures NumberOrZero("") == 0.0
  {
    assert Unsigned("") == "" by {
      assert TrimStart("") == "";
    }
    assert LeadingDigits("") == 0;
    assert Unsigned(".") == "." by {
      assert !IsJsWhitespace('.');
      assert TrimStart(".") == ".";
    }
    assert LeadingDigits(".") == 0;
    assert LeadingDigits("."[1..]) == 0 by {
      assert "."[1..] == "";
    }
  }

  /** The digit run of a numeral followed by other text ends where the numeral ends. */
  lemma {:induction false} LeadingDigitsAppend(p: string, t: string)
    requires forall i :: 0 <= i < |p| ==> IsDigit(p[i])
    ensures LeadingDigits(p + t) == |p| + LeadingDigits(t)
  {
    if p == [] {
      assert p + t == t;
    } else {
      assert IsDigit((p + t)[0]);
      assert (p + t)[1..] == p[1..] + t;
      LeadingDigitsAppend(p[1..], t);
    }
  }

  /** Unsigned text whose digit run is followed by a point and more digits. */
  lemma MagnitudeAtPoint(s: string, n: nat, frac: string)
    requires LeadingDigits(s) == n && n > 0
    requires s[n..] == "." + frac && LeadingDigits(frac) == |frac|
    ensures Magnitude(s) == Some(DigitsValue(s[..n]) as real + Fraction(frac))
  {
    assert s[n..][1..] == frac;
    assert frac[..|frac|] == frac;
  }

  /**
   * A numeral, a point and a run of digits read as the whole part plus the
   * digits counted in tenths, hundredths, and so on.
   */
  lemma ParseFloatOfDecimal(a: nat, digits: string)
    requires forall i :: 0 <= i < |digits| ==> IsDigit(digits[i])
    ensures ParseFloat(NatToString(a) + "." + digits)
      == Some(a as real + Fraction(digits))
  {
    var s := NatToString(a) + ("." + digits);
    assert NatToString(a) + "." + digits == s;
    MagnitudeOfDecimal(a, digits);
    assert s[0] == NatToString(a)[0];
    ParseFloatOfDigitFirst(s);
  }

  /** The magnitude of a numeral, a point and a run of digits. */
  lemma MagnitudeOfDecimal(a: nat, digits: string)
    requires forall i :: 0 <= i < |digits| ==> IsDigit(digits[i])
    ensures Magnitude(NatToString(a) + ("." + digits)) == Some(a as real + Fraction(digits))
  {
    var whole := NatToString(a);
    var s := whole + ("." + digits);
    LeadingDigitsAppend(whole, "." + digits);
    assert LeadingDigits("." + digits) == 0;
    assert s[..|whole|] == whole;
    assert s[|whole|..] == "." + digits;
    LeadingDigitsAll(digits);
    MagnitudeAtPoint(s, |whole|, digits);
    DigitsValueOfNat(a);
  }

  /** Text that starts with a digit is read by its magnitude alone. */
  lemma ParseFloatOfDigitFirst(s: string)
    requires s != [] && IsDigit(s[0])
    ensures ParseFloat(s) == Magnitude(s)
  {
    DigitFirstIsUnsigned(s);
  }

  /** A leading '-' negates the number that follows it. */
  lemma ParseFloatNegated(s: string)
    requires s != [] && IsDigit(s[0])
    ensures Magnitude(s).Some? && ParseFloat("-" + s) == Some(-Magnitude(s).value)
  {
    var t := "-" + s;
    assert !IsJsWhitespace(t[0]);
    assert TrimStart(t) == t;
    assert t[1..] == s;
    assert Unsigned(t) == s && Sign(t) == -1;
  }

  /** A leading '+' is skipped. */
  lemma ParseFloatPlus(s: string)
    requires s != [] && IsDigit(s[0])
    ensures Magnitude(s).Some? && ParseFloat("+" + s) == Some(Magnitude(s).value)
  {
    var t := "+" + s;
    assert !IsJsWhitespace(t[0]);
    assert TrimStart(t) == t;
    assert t[1..] == s;
    assert Unsigned(t) == s && Sign(t) == 1;
  }

  /** A point followed by digits, with no digit before it, is the fraction alone. */
  lemma MagnitudeOfPoint(digits: string)
    requires digits != [] && forall i :: 0 <= i < |digits| ==> IsDigit(digits[i])
    ensures Magnitude("." + digits) == Some(Fraction(digits))
  {
    var s := "." + digits;
    assert LeadingDigits(s) == 0;
    assert s[0..] == s && s[..0] == [];
    assert s[1..] == digits;
    LeadingDigitsAll(digits);
    assert digits[..|digits|] == digits;
  }

  /** Text that starts at a point has no sign. */
  lemma UnsignedAtPoint(s: string)
    requires s != [] && s[0] == '.'
    ensures Unsigned(s) == s && Sign(s) == 1
  {
    assert !IsJsWhitespace(s[0]);
    assert TrimStart(s) == s;
  }

  /** A '-' in front of any text is its sign. */
  lemma UnsignedAfterMinus(s: string)
    ensures Unsigned("-" + s) == s && Sign("-" + s) == -1
  {
    var t := "-" + s;
    assert !IsJsWhitespace(t[0]);
    assert TrimStart(t) == t;
    assert t[1..] == s;
  }

  /** Text that starts at a point reads as its magnitude. */
  lemma ParseFloatFromPoint(s: string)
    requires s != [] && s[0] == '.'
    ensures ParseFloat(s) == Magnitude(s)
  {
    UnsignedAtPoint(s);
  }

  /** A '-' in front of a number negates what the rest reads as. */
  lemma ParseFloatAfterMinus(s: string, x: real)
    requires Magnitude(s) == Some(x)
    ensures ParseFloat("-" + s) == Some(-x)
  {
    UnsignedAfterMinus(s);
  }

  /** "-." followed by some text is a '-' in front of "." and that text. */
  lemma MinusBeforePoint(digits: string)
    ensures "-." + digits == "-" + ("." + digits)
  {
    var s := "." + digits;
    assert ("-" + s)[..2] == "-.";
    assert ("-" + s)[2..] == digits;
  }

  /** "-.5" reads as -0.5. */
  lemma ParseFloatOfMinusPoint(digits: string)
    requires digits != [] && forall i :: 0 <= i < |digits| ==> IsDigit(digits[i])
    ensures ParseFloat("-." + digits) == Some(-Fraction(digits))
  {
    var s := "." + digits;
    MagnitudeOfPoint(digits);
    ParseFloatAfterMinus(s, Fraction(digits));
    MinusBeforePoint(digits);
  }

  /** ".5" reads as 0.5 and "-.5" as -0.5: a number may start at its point. */
  lemma ParseFloatOfPoint(digits: string)
    requires digits != [] && forall i :: 0 <= i < |digits| ==> IsDigit(digits[i])
    ensures ParseFloat("." + digits) == Some(Fraction(digits))
    ensures ParseFloat("-." + digits) == Some(-Fraction(digits))
  {
    MagnitudeOfPoint(digits);
    ParseFloatFromPoint("." + digits);
    ParseFloatOfMinusPoint(digits);
  }

  /** The digits of a numeral followed by a non-numeric character. */
  lemma MagnitudeStopsAtText(a: nat, t: string)
    requires t == [] || (!IsDigit(t[0]) && t[0] != '.')
    ensures Magnitude(NatToString(a) + t) == Some(a as real)
  {
    var whole := NatToString(a);
    var s := whole + t;
    LeadingDigitsAppend(whole, t);
    assert LeadingDigits(t) == 0;
    assert s[..|whole|] == whole;
    assert s[|whole|..] == t;
    DigitsValueOfNat(a);
  }

  /** Reading stops at the first character that cannot continue the number. */
  lemma ParseFloatStopsAtText(a: nat, t: string)
    requires t == [] || (!IsDigit(t[0]) && t[0] != '.')
    ensures ParseFloat(NatToString(a) + t) == Some(a as real)
  {
    MagnitudeStopsAtText(a, t);
    var s := NatToString(a) + t;
    assert s[0] == NatToString(a)[0];
    ParseFloatOfDigitFirst(s);
  }

  /** So "2.5" reads as 2.5. */
  lemma ParseFloatFraction()
    ensures ParseFloat("2.5") == Some(2.5)
  {
    assert NatToString(2) == "2";
    assert "2" + "." + "5" == "2.5";
    assert Fraction("5") == 0.5 by {
      assert "5"[..0] == "";
      assert DigitsValue("5") == 5;
      assert Pow10(1) == 10;
    }
    ParseFloatOfDecimal(2, "5");
  }
}
