/** Rounding to a number of significant digits, ties to the even neighbour: base 2 and 53 digits
    is what storing a decimal in a double does (IEEE 754, section 4.3.1, without the limits of
    the exponent), base 10 and 6 digits is what operator<< does with a double. */
module Rounding {
  /** Products, taken apart only by the next few lemmas. */
  function Times(a: real, b: real): real {
    a * b
  }

  lemma TimesOne(a: real)
    ensures Times(1.0, a) == a && Times(a, 1.0) == a && Times(0.0, a) == 0.0
  {
  }

  lemma TimesSwap(a: real, b: real)
    ensures Times(a, b) == Times(b, a)
  {
  }

  lemma TimesGroup(a: real, b: real, c: real)
    ensures Times(Times(a, b), c) == Times(a, Times(b, c))
  {
  }

  lemma TimesLess(a: real, b: real, c: real)
    requires a < b && c > 0.0
    ensures Times(a, c) < Times(b, c)
  {
  }

  lemma TimesAtMost(a: real, b: real, c: real)
    requires a <= b && c >= 0.0
    ensures Times(a, c) <= Times(b, c)
  {
  }

  lemma TimesPlus(a: real, b: real, c: real)
    ensures Times(a + b, c) == Times(a, c) + Times(b, c)
  {
  }

  function Over(a: real, b: real): (r: real)
    requires b > 0.0
    ensures Times(r, b) == a
  {
    a / b
  }

  function Power(b: real, k: int): (r: real)
    requires b >= 1.0
    decreases if k < 0 then -k else k
  {
    if k == 0 then 1.0 else if k > 0 then Times(b, Power(b, k - 1)) else Over(Power(b, k + 1), b)
  }

  lemma {:induction false} PowerPositive(b: real, k: int)
    requires b >= 1.0
    ensures Power(b, k) > 0.0
    decreases if k < 0 then -k else k
  {
    hide Times, Over;
    if k > 0 {
      PowerPositive(b, k - 1);
      TimesLess(0.0, b, Power(b, k - 1));
      TimesOne(Power(b, k - 1));
    } else if k < 0 {
      PowerPositive(b, k + 1);
      OverPositive(Power(b, k + 1), b);
    }
  }

  lemma OverPositive(a: real, b: real)
    requires a > 0.0 && b > 0.0
    ensures Over(a, b) > 0.0
  {
  }

  lemma PowerStep(b: real, k: int)
    requires b >= 1.0
    ensures Power(b, k + 1) == Times(b, Power(b, k))
  {
  }

  lemma {:induction false} PowerAdd(b: real, j: int, k: nat)
    requires b >= 1.0
    ensures Power(b, j + k) == Times(Power(b, j), Power(b, k))
  {
    hide Times, Over;
    var p := Power(b, j);
    if k == 0 {
      TimesOne(p);
    } else {
      var q := Power(b, k - 1);
      PowerAdd(b, j, k - 1);
      PowerStep(b, j + (k - 1));
      PowerStep(b, k - 1);
      TimesGroup(b, p, q);
      TimesSwap(b, p);
      TimesGroup(p, b, q);
    }
  }

  /** Powers of at least two outgrow every number. */
  lemma {:induction false} PowerGrows(b: real, k: nat)
    requires b >= 2.0
    ensures Power(b, k) >= 1.0 + k as real
  {
    hide Times, Over;
    if k > 0 {
      var p := Power(b, k - 1);
      PowerGrows(b, k - 1);
      TimesAtMost(2.0, b, p);
      assert Times(2.0, p) == p + p by {
        TimesPlus(1.0, 1.0, p);
        TimesOne(p);
      }
    }
  }

  /** The nearest integer; in the middle between two, the even one. */
  function RoundEven(q: real): int {
    var low, rest := q.Floor, q - q.Floor as real;
    if rest > 0.5 || (rest == 0.5 && low % 2 == 1) then low + 1 else low
  }

  function Distance(a: real, b: real): real {
    if a < b then b - a else a - b
  }

  lemma RoundEvenShape(q: real)
    ensures var (low, m) := (q.Floor, RoundEven(q));
            && low as real <= q < (low + 1) as real
            && ((m == low && q - low as real <= 0.5) || (m == low + 1 && (low + 1) as real - q <= 0.5))
            && (Distance(m as real, q) == 0.5 ==> m % 2 == 0)
  {
  }

  lemma RoundEvenIsNearest(q: real, n: int)
    ensures Distance(RoundEven(q) as real, q) <= 0.5
    ensures Distance(RoundEven(q) as real, q) <= Distance(n as real, q)
    ensures Distance(n as real, q) < 0.5 ==> n == RoundEven(q)
  {
    RoundEvenShape(q);
    hide RoundEven;
    var low := q.Floor;
    if n <= low {
      assert n as real <= low as real;
    } else {
      assert n as real >= (low + 1) as real;
    }
  }

  /** Significands have a fixed number of digits: they go from `low` up to base * low. */
  datatype Format = Format(base: nat, low: nat) {
    predicate Valid() {
      base >= 2 && low >= 1
    }

    function Base(): (b: real)
      requires Valid()
      ensures b >= 2.0
    {
      base as real
    }

    function High(): int {
      base * low
    }
  }

  const DOUBLE := Format(2, 0x10_0000_0000_0000)
  const SIX_DIGITS := Format(10, 100000)

  /** A number of steps that is certainly enough. */
  function Steps(v: real): nat {
    if v < 0.0 then 0 else v.Floor + 1
  }

  /** Multiplies until at least `low`, at most `steps` times. */
  function Raised(v: real, b: real, low: real, steps: nat): (r: (real, int))
    decreases steps
  {
    if steps == 0 || v >= low then (v, 0)
    else
      var (q, k) := Raised(Times(v, b), b, low, steps - 1);
      (q, k + 1)
  }

  /** Divides until below `high`, at most `steps` times. */
  function Lowered(v: real, b: real, high: real, steps: nat): (r: (real, int))
    requires b > 0.0
    decreases steps
  {
    if steps == 0 || v < high then (v, 0)
    else
      var (q, k) := Lowered(Over(v, b), b, high, steps - 1);
      (q, k + 1)
  }

  /** A positive number as q * base^e with q from low up to base * low. The step bounds are
      never reached. */
  function Scaled(v: real, f: Format): (r: (real, int))
    requires f.Valid() && v > 0.0
  {
    if v < f.low as real then
      var (q, k) := Raised(v, f.Base(), f.low as real, Steps(Over(f.low as real, v)));
      (q, -k)
    else
      Lowered(v, f.Base(), f.High() as real, Steps(v))
  }

  lemma {:induction false} RaisedResult(v: real, b: real, low: real, high: real, steps: nat)
    requires b >= 2.0 && 0.0 < v < high && Times(low, b) <= high && Times(v, Power(b, steps)) >= low
    ensures var (q, k) := Raised(v, b, low, steps);
            low <= q < high && 0 <= k <= steps && q == Times(v, Power(b, k))
    decreases steps
  {
    hide Times, Over;
    TimesOne(v);
    if steps > 0 && v < low {
      var next := Times(v, b);
      TimesLess(v, low, b);
      TimesLess(0.0, v, b);
      TimesOne(b);
      TimesGroup(v, b, Power(b, steps - 1));
      PowerStep(b, steps - 1);
      RaisedResult(next, b, low, high, steps - 1);
      var k := Raised(next, b, low, steps - 1).1;
      TimesGroup(v, b, Power(b, k));
      PowerStep(b, k);
    }
  }

  lemma {:induction false} LoweredResult(v: real, b: real, low: real, high: real, steps: nat)
    requires b >= 2.0 && v >= low > 0.0 && Times(low, b) == high && v < Times(high, Power(b, steps))
    ensures var (q, k) := Lowered(v, b, high, steps);
            low <= q < high && 0 <= k <= steps && v == Times(q, Power(b, k))
    decreases steps
  {
    hide Times, Over;
    TimesOne(v);
    TimesOne(high);
    if steps > 0 && v >= high {
      var next, rest := Over(v, b), Power(b, steps - 1);
      if next < low {
        TimesLess(next, low, b);
      }
      PowerStep(b, steps - 1);
      TimesSwap(b, rest);
      TimesGroup(high, rest, b);
      if next >= Times(high, rest) {
        TimesAtMost(Times(high, rest), next, b);
      }
      LoweredResult(next, b, low, high, steps - 1);
      var (q, k) := Lowered(next, b, high, steps - 1);
      TimesGroup(q, Power(b, k), b);
      TimesSwap(b, Power(b, k));
      PowerStep(b, k);
    }
  }

  lemma EnoughToRaise(v: real, b: real, low: real)
    requires b >= 2.0 && v > 0.0 && low > 0.0
    ensures Times(v, Power(b, Steps(Over(low, v)))) >= low
  {
    hide Times, Over;
    var n := Steps(Over(low, v));
    OverPositive(low, v);
    PowerGrows(b, n);
    TimesAtMost(Over(low, v), Power(b, n), v);
    TimesSwap(Power(b, n), v);
  }

  lemma EnoughToLower(v: real, b: real, high: real)
    requires b >= 2.0 && v > 0.0 && high >= 1.0
    ensures v < Times(high, Power(b, Steps(v)))
  {
    hide Times, Over;
    var p := Power(b, Steps(v));
    PowerGrows(b, Steps(v));
    TimesAtMost(1.0, high, p);
    TimesOne(p);
  }

  lemma HighIsProduct(f: Format)
    requires f.Valid()
    ensures Times(f.low as real, f.Base()) == f.High() as real && f.High() >= 2 * f.low
  {
  }

  lemma ScaledResult(v: real, f: Format)
    requires f.Valid() && v > 0.0
    ensures var (q, e) := Scaled(v, f);
            f.low as real <= q < f.High() as real && v == Times(q, Power(f.Base(), e))
  {
    hide Times, Over, Format.High, Format.Base;
    var b, low, high := f.Base(), f.low as real, f.High() as real;
    HighIsProduct(f);
    if v < low {
      EnoughToRaise(v, b, low);
      RaisedResult(v, b, low, high, Steps(Over(low, v)));
      var (q, k) := Raised(v, b, low, Steps(Over(low, v)));
      PowerAdd(b, -k, k);
      TimesGroup(v, Power(b, k), Power(b, -k));
      TimesSwap(Power(b, k), Power(b, -k));
      TimesOne(v);
    } else {
      EnoughToLower(v, b, high);
      LoweredResult(v, b, low, high, Steps(v));
    }
  }

  /** Significand and exponent of a positive number, rounded. */
  function Significand(v: real, f: Format): (int, int)
    requires f.Valid() && v > 0.0
  {
    var (q, e) := Scaled(v, f);
    (RoundEven(q), e)
  }

  function Units(m: int, f: Format, e: int): real
    requires f.Valid()
  {
    Times(m as real, Power(f.Base(), e))
  }

  function Rounded(v: real, f: Format): real
    requires f.Valid()
  {
    if v > 0.0 then
      var (m, e) := Significand(v, f);
      Units(m, f, e)
    else if v < 0.0 then
      var (m, e) := Significand(-v, f);
      -Units(m, f, e)
    else 0.0
  }

  /** At most that many digits. */
  ghost predicate Representable(w: real, f: Format)
    requires f.Valid()
  {
    exists m: int, e: int :: -f.High() < m < f.High() && w == Units(m, f, e)
  }

  /** The significand is a nearest integer to the scaled number, the even one in the middle. */
  lemma SignificandBounds(v: real, f: Format)
    requires f.Valid() && v > 0.0
    ensures var (q, e) := Scaled(v, f);
            f.low <= Significand(v, f).0 <= f.High()
            && (Distance(Significand(v, f).0 as real, q) == 0.5 ==> Significand(v, f).0 % 2 == 0)
  {
    hide Times, RoundEven;
    ScaledResult(v, f);
    var q := Scaled(v, f).0;
    RoundEvenShape(q);
    RoundEvenIsNearest(q, f.low);
    RoundEvenIsNearest(q, f.High());
    HighIsProduct(f);
  }

  lemma DistanceOfUnits(a: real, b: real, u: real)
    requires u > 0.0
    ensures Distance(Times(a, u), Times(b, u)) == Times(Distance(a, b), u)
  {
  }

  /** Powers with an exponent from 0 on are integers. */
  lemma {:induction false} PowerWhole(f: Format, k: nat) returns (n: int)
    requires f.Valid()
    ensures n >= 1 && Power(f.Base(), k) == n as real
  {
    hide Times;
    n := 1;
    if k > 0 {
      var before := PowerWhole(f, k - 1);
      n := f.base * before;
      WholeProduct(f.base, before);
    }
  }

  lemma WholeProduct(a: int, b: int)
    ensures Times(a as real, b as real) == (a * b) as real
    ensures a >= 1 && b >= 1 ==> a * b >= 1
  {
  }

  /** A number of larger units is a number of smaller ones. */
  lemma UnitsOf(m: int, f: Format, e: int, k: nat) returns (n: int)
    requires f.Valid()
    ensures Units(m, f, e + k) == Units(n, f, e)
  {
    hide Times;
    var p := PowerWhole(f, k);
    n := m * p;
    PowerAdd(f.Base(), e, k);
    TimesSwap(Power(f.Base(), e), Power(f.Base(), k));
    TimesGroup(m as real, Power(f.Base(), k), Power(f.Base(), e));
    WholeProduct(m, p);
  }

  /** Numbers with a smaller unit stay below the smallest significand of a larger one. */
  lemma SmallerUnit(m: int, f: Format, d: int, e: int)
    requires f.Valid() && m < f.High() && d < e
    ensures Units(m, f, d) < Units(f.low, f, e)
  {
    hide Times, Format.High, Format.Base;
    var b := f.Base();
    PowerPositive(b, d);
    TimesLess(m as real, f.High() as real, Power(b, d));
    HighIsProduct(f);
    TimesGroup(f.low as real, b, Power(b, d));
    PowerStep(b, d);
    var k := e - (d + 1);
    PowerAdd(b, d + 1, k);
    PowerGrows(b, k);
    PowerPositive(b, d + 1);
    TimesAtMost(1.0, Power(b, k), Power(b, d + 1));
    TimesOne(Power(b, d + 1));
    TimesSwap(Power(b, k), Power(b, d + 1));
    TimesAtMost(Power(b, d + 1), Power(b, e), f.low as real);
    TimesSwap(Power(b, d + 1), f.low as real);
    TimesSwap(Power(b, e), f.low as real);
  }

  /** No number with that many digits is nearer than the rounded one. */
  lemma PositiveNearest(v: real, f: Format, m: int, d: int)
    requires f.Valid() && v > 0.0 && m < f.High()
    ensures Distance(Rounded(v, f), v) <= Distance(Units(m, f, d), v)
  {
    hide Times, RoundEven, Scaled, Format.High, Format.Base;
    var (q, e) := Scaled(v, f);
    var u, s := Power(f.Base(), e), RoundEven(q);
    ScaledResult(v, f);
    PowerPositive(f.Base(), e);
    DistanceOfUnits(s as real, q, u);
    if d >= e {
      var n := UnitsOf(m, f, e, d - e);
      RoundEvenIsNearest(q, n);
      DistanceOfUnits(n as real, q, u);
      TimesAtMost(Distance(s as real, q), Distance(n as real, q), u);
    } else {
      RoundEvenIsNearest(q, f.low);
      SmallerUnit(m, f, d, e);
      DistanceOfUnits(f.low as real, q, u);
      TimesAtMost(Distance(s as real, q), Distance(f.low as real, q), u);
      TimesAtMost(f.low as real, q, u);
    }
  }

  lemma UnitsNegate(m: int, f: Format, e: int)
    requires f.Valid()
    ensures Units(-m, f, e) == -Units(m, f, e)
  {
  }

  lemma PositiveRepresentable(v: real, f: Format)
    requires f.Valid() && v > 0.0
    ensures Representable(Rounded(v, f), f) && Rounded(v, f) > 0.0
  {
    hide Times, Significand, Format.High, Format.Base;
    var (m, e) := Significand(v, f);
    SignificandBounds(v, f);
    HighIsProduct(f);
    var b := f.Base();
    PowerPositive(b, e);
    TimesLess(0.0, m as real, Power(b, e));
    TimesOne(Power(b, e));
    if m == f.High() {
      TimesGroup(f.low as real, b, Power(b, e));
      PowerStep(b, e);
      assert Rounded(v, f) == Units(f.low, f, e + 1);
    } else {
      assert Rounded(v, f) == Units(m, f, e);
    }
  }

  lemma RepresentableNegate(w: real, f: Format)
    requires f.Valid() && Representable(w, f)
    ensures Representable(-w, f)
  {
    hide Units;
    var m: int, e: int :| -f.High() < m < f.High() && w == Units(m, f, e);
    UnitsNegate(m, f, e);
    assert -w == Units(-m, f, e);
  }

  lemma RoundedNegate(v: real, f: Format)
    requires f.Valid()
    ensures Rounded(-v, f) == -Rounded(v, f)
  {
  }

  /** What rounding is: the result has that many digits, and no number with that many digits is
      nearer. In particular, numbers that have them already are not changed. */
  lemma RoundedIsNearest(v: real, f: Format, w: real)
    requires f.Valid() && Representable(w, f)
    ensures Representable(Rounded(v, f), f)
    ensures Distance(Rounded(v, f), v) <= Distance(w, v)
  {
    hide Rounded, Format.High, Units;
    if v > 0.0 {
      PositiveRepresentable(v, f);
      var m: int, e: int :| -f.High() < m < f.High() && w == Units(m, f, e);
      PositiveNearest(v, f, m, e);
    } else if v < 0.0 {
      RoundedNegate(v, f);
      PositiveRepresentable(-v, f);
      RepresentableNegate(Rounded(-v, f), f);
      RepresentableNegate(w, f);
      var m: int, e: int :| -f.High() < m < f.High() && -w == Units(m, f, e);
      PositiveNearest(-v, f, m, e);
    } else {
      ZeroRounded(f);
    }
  }

  lemma ZeroRounded(f: Format)
    requires f.Valid()
    ensures Rounded(0.0, f) == 0.0 && Representable(0.0, f)
  {
    hide Times;
    HighIsProduct(f);
    TimesOne(Power(f.Base(), 0));
    assert Units(0, f, 0) == 0.0;
  }

  /** Rounding changes nothing exactly when the number has that many digits. */
  lemma RoundedExactIff(v: real, f: Format)
    requires f.Valid()
    ensures Rounded(v, f) == v <==> Representable(v, f)
  {
    hide Rounded, Representable;
    ZeroRounded(f);
    RoundedIsNearest(v, f, 0.0);
    if Representable(v, f) {
      RoundedIsNearest(v, f, v);
    }
  }

  const TWO_TO_53: real := 9007199254740992.0

  /** A double is off by at most one part in 2^53. */
  lemma DoubleIsClose(t: real)
    requires t > 0.0
    ensures TWO_TO_53 * Distance(Rounded(t, DOUBLE), t) <= t && Rounded(t, DOUBLE) > 0.0
  {
    hide Times, RoundEven, Scaled, Power;
    var (q, e) := Scaled(t, DOUBLE);
    var u, m := Power(2.0, e), RoundEven(q);
    ScaledResult(t, DOUBLE);
    PowerPositive(2.0, e);
    RoundEvenIsNearest(q, m);
    DistanceOfUnits(m as real, q, u);
    var d := Distance(m as real, q);
    assert TWO_TO_53 * d <= q;
    TimesAtMost(TWO_TO_53 * d, q, u);
    TimesConstant(d, u);
    PositiveRepresentable(t, DOUBLE);
  }

  lemma TimesConstant(d: real, u: real)
    ensures Times(TWO_TO_53 * d, u) == TWO_TO_53 * Times(d, u)
  {
  }

  /** Different numbers with six digits are far apart. */
  lemma SixDigitGap(a: real, b: real)
    requires Representable(a, SIX_DIGITS) && Representable(b, SIX_DIGITS) && a != b
    ensures 1000000.0 * Distance(a, b) > b || 1000000.0 * Distance(a, b) > a
  {
    hide Times, Power;
    var f := SIX_DIGITS;
    var m: int, d: int :| -f.High() < m < f.High() && a == Units(m, f, d);
    var n: int, e: int :| -f.High() < n < f.High() && b == Units(n, f, e);
    if d >= e {
      GapAbove(m, d, n, e);
    } else {
      GapAbove(n, e, m, d);
    }
  }

  lemma GapAbove(m: int, d: int, n: int, e: int)
    requires d >= e && n < 1000000 && Units(m, SIX_DIGITS, d) != Units(n, SIX_DIGITS, e)
    ensures 1000000.0 * Distance(Units(m, SIX_DIGITS, d), Units(n, SIX_DIGITS, e)) > Units(n, SIX_DIGITS, e)
  {
    hide Times, Power, Distance;
    var u := Power(10.0, e);
    var k := UnitsOf(m, SIX_DIGITS, e, d - e);
    PowerPositive(10.0, e);
    DifferentUnits(k, n, u);
    TimesLess(n as real, 1000000.0, u);
    TimesMillion(u);
  }

  lemma DifferentUnits(k: int, n: int, u: real)
    requires u > 0.0 && Times(k as real, u) != Times(n as real, u)
    ensures Distance(Times(k as real, u), Times(n as real, u)) >= u
  {
    hide Times, Distance;
    WholeDistance(k, n);
    DistanceOfUnits(k as real, n as real, u);
    TimesAtMost(1.0, Distance(k as real, n as real), u);
    TimesOne(u);
  }

  lemma WholeDistance(k: int, n: int)
    requires k != n
    ensures Distance(k as real, n as real) >= 1.0
  {
  }

  lemma TimesMillion(u: real)
    ensures Times(1000000.0, u) == 1000000.0 * u
  {
  }

  lemma PositiveRecovered(t: real)
    requires Representable(t, SIX_DIGITS) && t > 0.0
    ensures Rounded(Rounded(t, DOUBLE), SIX_DIGITS) == t
  {
    hide Rounded, Representable;
    var v := Rounded(t, DOUBLE);
    var d := Rounded(v, SIX_DIGITS);
    DoubleIsClose(t);
    RoundedIsNearest(v, SIX_DIGITS, t);
    assert Distance(d, t) <= Distance(d, v) + Distance(v, t);
    assert d >= t - 2.0 * Distance(v, t);
    if d != t {
      SixDigitGap(d, t);
    }
  }

  /** A decimal with at most six digits survives being stored in a double. */
  lemma SixDigitsRecovered(t: real)
    requires Representable(t, SIX_DIGITS)
    ensures Rounded(Rounded(t, DOUBLE), SIX_DIGITS) == t
  {
    hide Rounded, Representable;
    if t > 0.0 {
      PositiveRecovered(t);
    } else if t < 0.0 {
      RepresentableNegate(t, SIX_DIGITS);
      PositiveRecovered(-t);
      RoundedNegate(t, DOUBLE);
      RoundedNegate(Rounded(t, DOUBLE), SIX_DIGITS);
    } else {
      ZeroRounded(DOUBLE);
      ZeroRounded(SIX_DIGITS);
    }
  }

  /** A double keeps its value through printing and reading exactly when it is the double of
      some decimal with at most six digits. */
  lemma ReadBackIff(v: real)
    ensures Rounded(Rounded(v, SIX_DIGITS), DOUBLE) == v <==>
              exists t: real :: Representable(t, SIX_DIGITS) && Rounded(t, DOUBLE) == v
  {
    hide Rounded, Representable;
    ZeroRounded(SIX_DIGITS);
    RoundedIsNearest(v, SIX_DIGITS, 0.0);
    if t: real :| Representable(t, SIX_DIGITS) && Rounded(t, DOUBLE) == v {
      SixDigitsRecovered(t);
    }
  }

  lemma RoundedSign(v: real, f: Format)
    requires f.Valid()
    ensures Rounded(v, f) > 0.0 <==> v > 0.0
  {
    hide Rounded;
    if v > 0.0 {
      PositiveRepresentable(v, f);
    } else if v < 0.0 {
      RoundedNegate(v, f);
      PositiveRepresentable(-v, f);
    } else {
      ZeroRounded(f);
    }
  }

  /** Which integers have that many digits: those that do not end in a zero have, exactly if they
      are small enough. */
  lemma WholeRepresentableIff(n: int, f: Format)
    requires f.Valid() && n % f.base != 0
    ensures Representable(n as real, f) <==> -f.High() < n < f.High()
  {
    hide Times, Power;
    if -f.High() < n < f.High() {
      UnitsOfOne(n, f);
      assert n as real == Units(n, f, 0);
    }
    if m: int, e: int :| -f.High() < m < f.High() && n as real == Units(m, f, e) {
      if e > 0 {
        var k := PowerWhole(f, e - 1);
        PowerStep(f.Base(), e - 1);
        WholeProduct(f.base, k);
        WholeProduct(m, f.base * k);
        assert n == m * (f.base * k);
        MultipleOfBase(m, f.base, k);
      } else {
        SmallUnits(m, f, -e);
      }
    }
  }

  lemma UnitsOfOne(n: int, f: Format)
    requires f.Valid()
    ensures Units(n, f, 0) == n as real
  {
  }

  lemma MultipleOfBase(m: int, b: nat, k: int)
    requires b > 0
    ensures (m * (b * k)) % b == 0
  {
    assert m * (b * k) == (m * k) * b;
    MultipleRemainder(m * k, b);
  }

  lemma MultipleRemainder(q: int, b: nat)
    requires b > 0
    ensures (q * b) % b == 0
  {
    var n := q * b;
    var d := q - n / b;
    assert n == b * (n / b) + n % b;
    assert d * b == n % b;
    NoSmallMultiple(d, b);
  }

  lemma NoSmallMultiple(d: int, b: nat)
    requires 0 <= d * b < b
    ensures d == 0
  {
  }

  /** Units smaller than one make no integer larger. */
  lemma SmallUnits(m: int, f: Format, k: int)
    requires f.Valid() && k >= 0 && -f.High() < m < f.High()
    ensures -f.High() as real < Units(m, f, -k) < f.High() as real
  {
    hide Times, Power;
    var b, p := f.Base(), Power(f.Base(), -k);
    PowerPositive(b, -k);
    PowerAtMostOne(b, k);
    TimesSwap(m as real, p);
    var high := f.High() as real;
    TimesLess(m as real, high, p);
    TimesLess(-high, m as real, p);
    TimesAtMost(p, 1.0, high);
    TimesSwap(p, high);
    TimesOne(high);
    TimesNegate(high, p);
  }

  lemma TimesNegate(a: real, b: real)
    ensures Times(-a, b) == -Times(a, b)
  {
  }

  lemma {:induction false} PowerAtMostOne(b: real, k: int)
    requires b >= 1.0 && k >= 0
    ensures Power(b, -k) <= 1.0
  {
    hide Times, Over;
    if k > 0 {
      PowerAtMostOne(b, k - 1);
      PowerPositive(b, -(k - 1));
      OverSmaller(Power(b, -(k - 1)), b);
    }
  }

  lemma OverSmaller(a: real, b: real)
    requires a > 0.0 && b >= 1.0
    ensures Over(a, b) <= a
  {
  }

  /** So a double has 53 binary digits, and a printed number six decimal ones. */
  lemma FormatsHoldDigits(n: int)
    ensures n % 2 != 0 ==> (Representable(n as real, DOUBLE) <==> -0x20_0000_0000_0000 < n < 0x20_0000_0000_0000)
    ensures n % 10 != 0 ==> (Representable(n as real, SIX_DIGITS) <==> -1000000 < n < 1000000)
  {
    hide Representable;
    if n % 2 != 0 {
      WholeRepresentableIff(n, DOUBLE);
    }
    if n % 10 != 0 {
      WholeRepresentableIff(n, SIX_DIGITS);
    }
  }
}
