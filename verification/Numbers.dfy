/** Numbers as text: how operator<< prints a double by default (six significant digits, the
    general format of printf), and how boost::lexical_cast<double> reads decimals. */
module Numbers {
  import opened Options
  import opened Decimal
  import opened Rounding

  /** The number mantissa * 10^exponent, as typed by a user. */
  datatype Number = Number(mantissa: int, exponent: int)

  const PRECISION: nat := 6

  function Pow10(n: nat): (r: nat)
    ensures r >= 1
  {
    if n == 0 then 1 else 10 * Pow10(n - 1)
  }

  function Real(x: Number): real {
    Times(x.mantissa as real, Power(10.0, x.exponent))
  }

  /** The double nearest to a decimal. */
  function Stored(x: Number): real {
    Rounded(Real(x), DOUBLE)
  }

  function Abs(n: int): nat {
    if n < 0 then -n else n
  }

  function Zeros(n: nat): (s: string)
    ensures |s| == n && AllDigits(s)
  {
    seq(n, _ => '0')
  }

  /** Moves the trailing zeros of a mantissa into the exponent. */
  function Stripped(a: nat, e: int): (r: (nat, int))
    requires a > 0
    ensures r.0 > 0
    decreases a
  {
    if a % 10 == 0 then Stripped(a / 10, e + 1) else (a, e)
  }

  function TwoDigits(n: nat): (s: string)
    ensures AllDigits(s) && s != ""
  {
    if n < 10 then "0" + Digits(n) else Digits(n)
  }

  function ExponentText(x: int): string {
    (if x < 0 then "-" else "+") + TwoDigits(Abs(x))
  }

  /** The digits d, followed by e zeros or with a point -e places from the right. */
  function FixedLayout(d: string, e: int): string {
    if e >= 0 then d + Zeros(e)
    else if |d| > -e then d[..|d| + e] + "." + d[|d| + e..]
    else "0" + "." + (Zeros(-e - |d|) + d)
  }

  function ScientificMantissa(d: string): string {
    if |d| > 1 then d[..1] + "." + d[1..] else d
  }

  function ScientificLayout(d: string, x: int): string {
    ScientificMantissa(d) + "e" + ExponentText(x)
  }

  /** The positive number a * 10^e: fixed notation for decimal exponents from -4 to 5. */
  function Layout(a: nat, e: int): string {
    var d := Digits(a);
    var x := |d| - 1 + e;
    if -4 <= x < PRECISION then FixedLayout(d, e) else ScientificLayout(d, x)
  }

  /** A positive number rounded to six digits, as a mantissa without trailing zeros and an
      exponent. */
  function SixDigits(v: real): (r: (nat, int))
    requires v > 0.0
    ensures r.0 > 0
  {
    SignificandBounds(v, SIX_DIGITS);
    var (m, e) := Significand(v, SIX_DIGITS);
    Stripped(m, e)
  }

  function Print(v: real): string {
    if v == 0.0 then "0"
    else
      var (a, e) := SixDigits(if v < 0.0 then -v else v);
      SignedLayout(v < 0.0, a, e)
  }

  function SignedLayout(negative: bool, a: nat, e: int): string {
    if negative then "-" + Layout(a, e) else Layout(a, e)
  }

  /** The position of the first c, or the length if there is none. */
  function Find(s: string, c: char): (k: nat)
    ensures k <= |s| && c !in s[..k]
    ensures k < |s| ==> s[k] == c
  {
    if s == "" || s[0] == c then 0 else 1 + Find(s[1..], c)
  }

  function ParseFixed(s: string, exponent: int): Option<Number> {
    var dot := Find(s, '.');
    var whole := s[..dot];
    var fraction := if dot < |s| then s[dot + 1..] else "";
    if whole + fraction == "" || !AllDigits(whole + fraction) then None
    else Some(Number(Value(whole + fraction), exponent - |fraction|))
  }

  function ParseUnsigned(s: string): Option<Number> {
    var mark := Find(s, 'e');
    if mark == |s| then ParseFixed(s, 0)
    else
      var exponent := Signed(s[mark + 1..]);
      if exponent.None? then None else ParseFixed(s[..mark], exponent.value)
  }

  function Parse(s: string): Option<Number> {
    if s != "" && s[0] == '-' then
      var r := ParseUnsigned(s[1..]);
      if r.None? then None else Some(Number(-r.value.mantissa, r.value.exponent))
    else if s != "" && s[0] == '+' then ParseUnsigned(s[1..])
    else ParseUnsigned(s)
  }

  function DigitValue(c: char): int {
    c as int - '0' as int
  }

  lemma ValueSnoc(s: string, c: char)
    requires AllDigits(s) && IsDigit(c)
    ensures AllDigits(s + [c]) && Value(s + [c]) == Value(s) * 10 + DigitValue(c)
  {
  }

  lemma TimesTen(v: int, p: int, w: int, d: int)
    ensures (v * p + w) * 10 + d == v * (10 * p) + (w * 10 + d)
  {
  }

  lemma {:induction false} ValueAppend(s: string, t: string)
    requires AllDigits(s) && AllDigits(t)
    ensures AllDigits(s + t) && Value(s + t) == Value(s) * Pow10(|t|) + Value(t)
  {
    if t == "" {
      assert s + t == s;
    } else {
      var init, c := t[..|t| - 1], t[|t| - 1];
      ValueAppend(s, init);
      ValueSnoc(s + init, c);
      ValueSnoc(init, c);
      assert s + t == (s + init) + [c] && t == init + [c];
      TimesTen(Value(s), Pow10(|init|), Value(init), DigitValue(c));
    }
  }

  lemma {:induction false} ValueOfZeros(n: nat)
    ensures Value(Zeros(n)) == 0
  {
    if n > 0 {
      ValueOfZeros(n - 1);
      assert Zeros(n)[..n - 1] == Zeros(n - 1);
    }
  }

  lemma NotFound(s: string, c: char)
    requires c !in s
    ensures Find(s, c) == |s|
  {
  }

  lemma {:induction false} FoundAfter(s: string, c: char, t: string)
    requires c !in s
    ensures Find(s + [c] + t, c) == |s|
  {
    var all := s + [c] + t;
    if s != "" {
      FoundAfter(s[1..], c, t);
      assert all[1..] == s[1..] + [c] + t;
    }
  }

  /** A factor of ten may sit in the mantissa or in the exponent. */
  lemma RealShift(m: int, e: int)
    ensures Real(Number(m * 10, e)) == Real(Number(m, e + 1))
  {
  }

  lemma {:induction false} RealScale(m: int, e: int, k: nat)
    ensures Real(Number(m * Pow10(k), e)) == Real(Number(m, e + k))
    decreases k
  {
    hide Real;
    if k > 0 {
      RealScale(m, e + 1, k - 1);
      RealShift(m * Pow10(k - 1), e);
      assert m * Pow10(k) == (m * Pow10(k - 1)) * 10;
    }
  }

  lemma {:induction false} StrippedReal(a: nat, e: int)
    requires a > 0
    ensures var (b, f) := Stripped(a, e); Real(Number(b, f)) == Real(Number(a, e))
    decreases a
  {
    hide Real;
    if a % 10 == 0 {
      StrippedReal(a / 10, e + 1);
      RealShift(a / 10, e);
    }
  }

  lemma ValueOfTwoDigits(n: nat)
    ensures Value(TwoDigits(n)) == n
  {
    ValueOfDigits(n);
    if n < 10 {
      ValueAppend("0", Digits(n));
      assert "0"[..0] == "";
    }
  }

  lemma SignedExponent(x: int)
    ensures Signed(ExponentText(x)) == Some(x)
  {
    ValueOfTwoDigits(Abs(x));
    assert ExponentText(x)[1..] == TwoDigits(Abs(x));
  }

  lemma ParseScientific(mantissa: string, exponent: string, x: int)
    requires 'e' !in mantissa && Signed(exponent) == Some(x)
    ensures ParseUnsigned(mantissa + "e" + exponent) == ParseFixed(mantissa, x)
  {
    var text := mantissa + "e" + exponent;
    FoundAfter(mantissa, 'e', exponent);
    assert text[..|mantissa|] == mantissa && text[|mantissa| + 1..] == exponent;
  }

  lemma ParseWhole(s: string, e: int)
    requires AllDigits(s) && s != ""
    ensures ParseFixed(s, e) == Some(Number(Value(s), e))
  {
    NotFound(s, '.');
    assert s[..|s|] + "" == s;
  }

  lemma ParseSplit(whole: string, fraction: string, e: int)
    requires AllDigits(whole) && AllDigits(fraction) && whole + fraction != ""
    ensures AllDigits(whole + fraction)
    ensures ParseFixed(whole + "." + fraction, e) == Some(Number(Value(whole + fraction), e - |fraction|))
  {
    var s := whole + "." + fraction;
    assert s == whole + ['.'] + fraction;
    FoundAfter(whole, '.', fraction);
    assert s[..|whole|] == whole && s[|whole| + 1..] == fraction;
  }

  /** What a layout of the digits d reads back as. */
  function Reading(d: string, e: int): Number
    requires AllDigits(d)
  {
    if -4 <= |d| - 1 + e < PRECISION && e >= 0 then Number(Value(d) * Pow10(e), 0) else Number(Value(d), e)
  }

  lemma ParsePlain(s: string)
    requires AllDigits(s) && s != ""
    ensures ParseUnsigned(s) == Some(Number(Value(s), 0))
  {
    NotFound(s, 'e');
    ParseWhole(s, 0);
  }

  lemma ParsePointed(whole: string, fraction: string)
    requires AllDigits(whole) && AllDigits(fraction) && whole != ""
    ensures AllDigits(whole + fraction)
    ensures ParseUnsigned(whole + "." + fraction) == Some(Number(Value(whole + fraction), -|fraction|))
  {
    hide ParseFixed, Value;
    NotFound(whole + "." + fraction, 'e');
    ParseSplit(whole, fraction, 0);
  }

  lemma LeadingZeros(n: nat, d: string)
    requires AllDigits(d)
    ensures Value(Zeros(n) + d) == Value(d)
  {
    ValueAppend(Zeros(n), d);
    ValueOfZeros(n);
  }

  lemma ParsePadded(d: string, k: nat)
    requires AllDigits(d)
    ensures ParseUnsigned("0" + "." + (Zeros(k) + d)) == Some(Number(Value(d), -(k + |d|)))
  {
    hide ParseUnsigned, Value;
    ParsePointed("0", Zeros(k) + d);
    LeadingZeros(k + 1, d);
    assert "0" + (Zeros(k) + d) == Zeros(k + 1) + d;
  }

  lemma ParseInserted(d: string, n: nat)
    requires AllDigits(d) && 0 < n < |d|
    ensures ParseUnsigned(d[..n] + "." + d[n..]) == Some(Number(Value(d), n - |d|))
  {
    hide ParseUnsigned, Value;
    ParsePointed(d[..n], d[n..]);
    assert d[..n] + d[n..] == d;
  }

  lemma ParseExtended(d: string, k: nat)
    requires AllDigits(d) && d != ""
    ensures ParseUnsigned(d + Zeros(k)) == Some(Number(Value(d) * Pow10(k), 0))
  {
    hide ParseUnsigned, Value, Pow10;
    ValueAppend(d, Zeros(k));
    ValueOfZeros(k);
    ParsePlain(d + Zeros(k));
  }

  lemma FixedShape(d: string, e: int)
    ensures e >= 0 ==> FixedLayout(d, e) == d + Zeros(e)
    ensures e < 0 && |d| > -e ==> FixedLayout(d, e) == d[..|d| + e] + "." + d[|d| + e..]
    ensures e < 0 && |d| <= -e ==> FixedLayout(d, e) == "0" + "." + (Zeros(-e - |d|) + d)
  {
  }

  lemma ParseFraction(d: string, e: int)
    requires AllDigits(d) && d != "" && e < 0
    ensures ParseUnsigned(FixedLayout(d, e)) == Some(Number(Value(d), e))
  {
    FixedShape(d, e);
    if |d| > -e {
      ParseInserted(d, |d| + e);
    } else {
      ParsePadded(d, -e - |d|);
    }
  }

  lemma ParseFixedLayout(d: string, e: int)
    requires AllDigits(d) && d != ""
    ensures ParseUnsigned(FixedLayout(d, e)) ==
              Some(if e >= 0 then Number(Value(d) * Pow10(e), 0) else Number(Value(d), e))
  {
    if e >= 0 {
      FixedShape(d, e);
      ParseExtended(d, e);
    } else {
      ParseFraction(d, e);
    }
  }

  lemma ParseHalves(d: string, whole: string, fraction: string, x: int)
    requires AllDigits(whole) && AllDigits(fraction) && whole != "" && whole + fraction == d
    ensures AllDigits(d) && ParseFixed(whole + "." + fraction, x) == Some(Number(Value(d), x - |fraction|))
  {
    ParseSplit(whole, fraction, x);
  }

  lemma ParseMantissa(d: string, x: int)
    requires AllDigits(d) && d != ""
    ensures ParseFixed(ScientificMantissa(d), x) == Some(Number(Value(d), x - (|d| - 1)))
  {
    hide ParseFixed, Value;
    var mantissa := ScientificMantissa(d);
    if |d| > 1 {
      var whole, fraction := d[..1], d[1..];
      assert whole + fraction == d;
      assert mantissa == whole + "." + fraction;
      ParseHalves(d, whole, fraction, x);
    } else {
      assert mantissa == d;
      ParseWhole(d, x);
    }
  }

  lemma NoExponentMark(d: string)
    requires AllDigits(d)
    ensures 'e' !in ScientificMantissa(d)
  {
  }

  lemma ParseScientificLayout(d: string, x: int)
    requires AllDigits(d) && d != ""
    ensures ParseUnsigned(ScientificLayout(d, x)) == Some(Number(Value(d), x - (|d| - 1)))
  {
    SignedExponent(x);
    ParseMantissa(d, x);
    NoExponentMark(d);
    ParseScientific(ScientificMantissa(d), ExponentText(x), x);
  }

  /** Every layout reads back as the number it shows. */
  lemma ParseLayout(a: nat, e: int)
    requires a > 0
    ensures ParseUnsigned(Layout(a, e)) == Some(Reading(Digits(a), e))
  {
    hide ParseUnsigned, Reading, FixedLayout, ScientificLayout;
    LayoutReading(Digits(a), e, Layout(a, e));
  }

  lemma LayoutReading(d: string, e: int, text: string)
    requires AllDigits(d) && d != ""
    requires var x := |d| - 1 + e;
             text == if -4 <= x < PRECISION then FixedLayout(d, e) else ScientificLayout(d, x)
    ensures ParseUnsigned(text) == Some(Reading(d, e))
  {
    hide ParseUnsigned, FixedLayout, ScientificLayout;
    var x := |d| - 1 + e;
    if -4 <= x < PRECISION {
      assert text == FixedLayout(d, e);
      ParseFixedLayout(d, e);
    } else {
      assert text == ScientificLayout(d, x);
      ParseScientificLayout(d, x);
      assert Reading(d, e) == Number(Value(d), x - (|d| - 1));
    }
  }

  lemma LayoutStart(a: nat, e: int)
    requires a > 0
    ensures Layout(a, e) != "" && IsDigit(Layout(a, e)[0])
  {
  }

  lemma ReadingReal(a: nat, e: int)
    requires a > 0
    ensures Real(Reading(Digits(a), e)) == Real(Number(a, e))
  {
    hide Real;
    ValueOfDigits(a);
    if e >= 0 {
      RealScale(a, 0, e);
    }
  }

  lemma RealNegate(m: int, e: int)
    ensures Real(Number(-m, e)) == -Real(Number(m, e))
  {
  }

  lemma ParsePositive(text: string)
    requires text != "" && IsDigit(text[0])
    ensures Parse(text) == ParseUnsigned(text)
  {
  }

  /** What a printed number reads back as. */
  function Readback(v: real): Number {
    if v == 0.0 then Number(0, 0)
    else
      var (a, e) := SixDigits(if v < 0.0 then -v else v);
      var y := Reading(Digits(a), e);
      if v < 0.0 then Number(-y.mantissa, y.exponent) else y
  }

  lemma ParseReadback(v: real)
    ensures Parse(Print(v)) == Some(Readback(v))
  {
    hide Parse, SixDigits, Reading, SignedLayout;
    if v == 0.0 {
      ParseZero();
    } else {
      var (a, e) := SixDigits(if v < 0.0 then -v else v);
      assert Print(v) == SignedLayout(v < 0.0, a, e);
      ParseSignedLayout(a, e, v < 0.0);
    }
  }

  lemma SixDigitsReal(v: real)
    requires v > 0.0
    ensures var (a, e) := SixDigits(v); Real(Reading(Digits(a), e)) == Rounded(v, SIX_DIGITS)
  {
    hide Real, Reading, Stripped, Significand;
    SignificandBounds(v, SIX_DIGITS);
    var (m, k) := Significand(v, SIX_DIGITS);
    var (a, e) := SixDigits(v);
    ReadingReal(a, e);
    StrippedReal(m, k);
    RealIsUnits(m, k);
  }

  lemma RealIsUnits(m: int, e: int)
    ensures Real(Number(m, e)) == Units(m, SIX_DIGITS, e)
  {
  }

  lemma ReadbackReal(v: real)
    ensures Real(Readback(v)) == Rounded(v, SIX_DIGITS)
  {
    hide Real, Reading, SixDigits, Rounded;
    if v > 0.0 {
      SixDigitsReal(v);
    } else if v < 0.0 {
      SixDigitsReal(-v);
      RoundedNegate(v, SIX_DIGITS);
      var (a, e) := SixDigits(-v);
      var y := Reading(Digits(a), e);
      RealNegate(y.mantissa, y.exponent);
    } else {
      RealOfZero();
      ZeroRounded(SIX_DIGITS);
    }
  }

  lemma RealOfZero()
    ensures Real(Number(0, 0)) == 0.0
  {
  }

  /** Printing a number and reading it back gives the number rounded to six digits; a double
      that is printed and stored again is that decimal rounded to a double. */
  lemma ParsePrint(v: real)
    ensures Parse(Print(v)).Some?
    ensures Real(Parse(Print(v)).value) == Rounded(v, SIX_DIGITS)
    ensures Stored(Parse(Print(v)).value) == Rounded(Rounded(v, SIX_DIGITS), DOUBLE)
  {
    hide Real, Readback, Rounded;
    ParseReadback(v);
    ReadbackReal(v);
  }

  lemma ParseZero()
    ensures Parse("0") == Some(Number(0, 0))
  {
    assert "0"[..0] == "";
    ParsePlain("0");
    ParsePositive("0");
  }

  lemma ParseSignedLayout(a: nat, e: int, negative: bool)
    requires a > 0
    ensures var y := Reading(Digits(a), e);
            Parse(SignedLayout(negative, a, e)) ==
              Some(if negative then Number(-y.mantissa, y.exponent) else y)
  {
    hide Parse, ParseUnsigned, Layout, Reading;
    ParseLayout(a, e);
    LayoutStart(a, e);
    ParseSignedText(Layout(a, e), Reading(Digits(a), e), negative);
  }

  lemma ParseSignedText(text: string, y: Number, negative: bool)
    requires text != "" && IsDigit(text[0]) && ParseUnsigned(text) == Some(y)
    ensures Parse(if negative then "-" + text else text) ==
              Some(if negative then Number(-y.mantissa, y.exponent) else y)
  {
  }

  /** Decimals as users type them: digits on at least one side of a point, then perhaps a power of
      ten. */
  lemma TypedDecimal(whole: string, fraction: string, exponent: string, x: int)
    requires AllDigits(whole) && AllDigits(fraction) && whole + fraction != "" && Signed(exponent) == Some(x)
    ensures AllDigits(whole + fraction)
    ensures Parse(whole + "." + fraction) == Some(Number(Value(whole + fraction), -|fraction|))
    ensures Parse(whole + "." + fraction + "e" + exponent) == Some(Number(Value(whole + fraction), x - |fraction|))
  {
    hide ParseFixed, Signed, Value;
    var text := whole + "." + fraction;
    NotFound(text, 'e');
    ParseSplit(whole, fraction, 0);
    ParseSplit(whole, fraction, x);
    ParseScientific(text, exponent, x);
    assert text[0] == (if whole == "" then '.' else whole[0]) && (text + "e" + exponent)[0] == text[0];
    Unsigned(text);
    Unsigned(text + "e" + exponent);
  }

  lemma Unsigned(text: string)
    requires text != "" && text[0] != '-' && text[0] != '+'
    ensures Parse(text) == ParseUnsigned(text)
    ensures Parse("+" + text) == ParseUnsigned(text)
    ensures Parse("-" + text).Some? <==> ParseUnsigned(text).Some?
    ensures ParseUnsigned(text).Some? ==>
              Parse("-" + text) == Some(Number(-ParseUnsigned(text).value.mantissa, ParseUnsigned(text).value.exponent))
  {
    hide ParseUnsigned;
    assert ("+" + text)[1..] == text && ("-" + text)[1..] == text;
  }

  /** What such a decimal denotes: the digits before the point, and those behind it as tenths,
      hundredths and so on, times the power of ten. */
  lemma DecimalMeans(whole: string, fraction: string, x: int)
    requires AllDigits(whole) && AllDigits(fraction)
    ensures AllDigits(whole + fraction)
    ensures Real(Number(Value(whole + fraction), x - |fraction|)) ==
              Real(Number(Value(whole), x)) + Real(Number(Value(fraction), x - |fraction|))
  {
    hide Real, Value;
    ValueAppend(whole, fraction);
    RealPlus(Value(whole) * Pow10(|fraction|), Value(fraction), x - |fraction|);
    RealScale(Value(whole), x - |fraction|, |fraction|);
  }

  lemma RealPlus(a: int, b: int, e: int)
    ensures Real(Number(a + b, e)) == Real(Number(a, e)) + Real(Number(b, e))
  {
    TimesPlus(a as real, b as real, Power(10.0, e));
  }

  lemma {:induction false} DigitsBound(a: nat)
    requires a > 0
    ensures Pow10(|Digits(a)| - 1) <= a < Pow10(|Digits(a)|)
  {
    if a >= 10 {
      DigitsBound(a / 10);
    }
  }

  lemma {:induction false} PowerOfTen(k: nat)
    ensures Pow10(k) as real == Power(10.0, k)
  {
    if k > 0 {
      PowerOfTen(k - 1);
    }
  }

  /** The decimal exponent of a number with these digits. */
  lemma Magnitude(a: nat, e: int)
    requires a > 0
    ensures var x := |Digits(a)| - 1 + e; Power(10.0, x) <= Real(Number(a, e)) < Power(10.0, x + 1)
  {
    hide Times, Power;
    var n := |Digits(a)|;
    DigitsBound(a);
    PowerOfTen(n - 1);
    PowerOfTen(n);
    PowerAdd(10.0, e, n - 1);
    PowerAdd(10.0, e, n);
    PowerPositive(10.0, e);
    TimesSwap(Power(10.0, e), Power(10.0, n - 1));
    TimesSwap(Power(10.0, e), Power(10.0, n));
    TimesAtMost(Power(10.0, n - 1), a as real, Power(10.0, e));
    TimesLess(a as real, Power(10.0, n), Power(10.0, e));
  }

  lemma {:induction false} PowerUp(j: int, k: int)
    requires j <= k
    ensures Power(10.0, j) <= Power(10.0, k)
    decreases k - j
  {
    if j < k {
      PowerUp(j, k - 1);
      PowerStep(10.0, k - 1);
      PowerPositive(10.0, k - 1);
    }
  }

  lemma LayoutMark(a: nat, e: int)
    requires a > 0
    ensures var x := |Digits(a)| - 1 + e; 'e' in Layout(a, e) <==> x < -4 || x >= 6
  {
    var d := Digits(a);
    var x := |d| - 1 + e;
    if -4 <= x < PRECISION {
      assert 'e' !in Zeros(if e >= 0 then e else 0) && 'e' !in d;
    } else {
      assert ScientificLayout(d, x)[|ScientificMantissa(d)|] == 'e';
    }
  }

  /** Which notation is printed: the scientific one exactly for numbers that, rounded to six digits,
      are below 0.0001 or at least a million. */
  lemma ScientificIff(v: real)
    requires v > 0.0
    ensures 'e' in Print(v) <==> Rounded(v, SIX_DIGITS) < Power(10.0, -4) || Rounded(v, SIX_DIGITS) >= Power(10.0, 6)
  {
    hide Layout, SixDigits, Rounded, Real, Reading, Power;
    var (a, e) := SixDigits(v);
    var x := |Digits(a)| - 1 + e;
    SixDigitsReal(v);
    ReadingReal(a, e);
    Magnitude(a, e);
    LayoutMark(a, e);
    if x < -4 {
      PowerUp(x + 1, -4);
    } else {
      PowerUp(-4, x);
    }
    if x >= 6 {
      PowerUp(6, x);
    } else {
      PowerUp(x + 1, 6);
    }
  }

  /** The printed digits end in no zero. */
  lemma {:induction false} NoTrailingZero(a: nat, e: int)
    requires a > 0
    ensures Stripped(a, e).0 % 10 != 0
    decreases a
  {
    if a % 10 == 0 {
      NoTrailingZero(a / 10, e + 1);
    }
  }
}
