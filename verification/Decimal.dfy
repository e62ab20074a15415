/** Decimal text of integers: what std::to_string and operator<< print for an int,
    and what boost::lexical_cast<int> accepts. */
module Decimal {
  import opened Options

  const INT_MAX: int := 0x7fff_ffff
  const INT_MIN: int := -0x8000_0000

  predicate Int32(n: int) {
    INT_MIN <= n <= INT_MAX
  }

  predicate IsDigit(c: char) {
    '0' <= c <= '9'
  }

  predicate AllDigits(s: string) {
    forall i | 0 <= i < |s| :: IsDigit(s[i])
  }

  function DigitChar(d: nat): (c: char)
    requires d < 10
    ensures IsDigit(c) && c as int - '0' as int == d
  {
    '0' + d as char
  }

  /** The digits of n, most significant first, without leading zeros. */
  function Digits(n: nat): (s: string)
    ensures AllDigits(s) && s != ""
  {
    if n < 10 then [DigitChar(n)] else Digits(n / 10) + [DigitChar(n % 10)]
  }

  /** The number a digit string denotes; the empty string denotes 0. */
  function Value(s: string): nat
    requires AllDigits(s)
  {
    if s == "" then 0
    else Value(s[..|s| - 1]) * 10 + (s[|s| - 1] as int - '0' as int)
  }

  lemma {:induction false} ValueOfDigits(n: nat)
    ensures Value(Digits(n)) == n
  {
    if n < 10 {
      assert Digits(n)[..0] == "";
    } else {
      ValueOfDigits(n / 10);
      var s := Digits(n);
      assert s[..|s| - 1] == Digits(n / 10);
    }
  }

  function Print(n: int): (s: string)
    ensures s != ""
  {
    if n < 0 then "-" + Digits(-n) else Digits(n)
  }

  /** An optional sign and at least one digit. */
  function Signed(s: string): Option<int> {
    var signed := s != "" && (s[0] == '-' || s[0] == '+');
    var body := if signed then s[1..] else s;
    if body == "" || !AllDigits(body) then None
    else if signed && s[0] == '-' then Some(-(Value(body) as int))
    else Some(Value(body))
  }

  /** The same, for values that fit an int. */
  function Parse(s: string): (r: Option<int>)
    ensures r.Some? ==> Int32(r.value)
  {
    var n := Signed(s);
    if n.Some? && Int32(n.value) then n else None
  }

  /** Printing and reading back is the identity on every int, INT_MIN included. */
  lemma ParsePrint(n: int)
    requires Int32(n)
    ensures Parse(Print(n)) == Some(n)
  {
    if n < 0 {
      var text := "-" + Digits(-n);
      ValueOfDigits(-n);
      assert text[1..] == Digits(-n);
      assert Signed(text) == Some(n);
    } else {
      var text := Digits(n);
      ValueOfDigits(n);
      assert IsDigit(text[0]);
      assert Signed(text) == Some(n);
    }
  }

  lemma DigitsInjective(m: nat, n: nat)
    requires Digits(m) == Digits(n)
    ensures m == n
  {
    ValueOfDigits(m);
    ValueOfDigits(n);
  }
}
