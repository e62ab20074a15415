/** The arithmetic of src/executor.cc: how long to wait, and whether to fire. */
module Schedule {
  import opened Decimal

  /** What the executor is told about timing. */
  datatype Timing = Timing(frequency: int, jitter: int, distribution: string, probability: real) {
    predicate Valid() {
      Int32(frequency) && Int32(jitter)
    }
  }

  function Max(a: int, b: int): int {
    if a < b then b else a
  }

  function Min(a: int, b: int): int {
    if a < b then a else b
  }

  /** Conversion of a long to an int. */
  function Narrow(n: int): (r: int)
    ensures Int32(r)
    ensures Int32(n) ==> r == n
  {
    (n - INT_MIN) % 0x1_0000_0000 + INT_MIN
  }

  /** What the random number generator may return: the normal distribution any int after
      rounding, every other name a uniform value in [-jitter, jitter]. Without jitter nothing
      is drawn, and any number may stand for the draw. */
  predicate PossibleDraw(t: Timing, draw: int) {
    if t.jitter <= 0 then true
    else if t.distribution == "normal" then Int32(draw)
    else -t.jitter <= draw <= t.jitter
  }

  function Delay(t: Timing, draw: int): int {
    if t.jitter <= 0 then t.frequency
    else
      var offset := if t.distribution == "normal" then Max(-t.jitter, Min(t.jitter, draw)) else draw;
      Max(1, Narrow(t.frequency + offset))
  }

  ghost predicate PossibleDelay(t: Timing, delay: int) {
    exists draw :: PossibleDraw(t, draw) && Delay(t, draw) == delay
  }

  predicate Fires(probability: real, draw: real) {
    probability >= 1.0 || (probability > 0.0 && draw < probability)
  }

  predicate UnitDraw(draw: real) {
    0.0 <= draw < 1.0
  }

  /** A larger probability fires on every draw on which a smaller one does, and whatever fires on a
      draw fires on every smaller one. */
  lemma FiresMore(less: real, more: real, draw: real, smaller: real)
    requires less <= more && smaller <= draw && Fires(less, draw)
    ensures Fires(more, smaller)
  {
  }

  /** On how many of the first m of the draws 0/n, 1/n, ... it fires. */
  function FireCount(probability: real, n: nat, m: nat): nat
    requires n > 0
  {
    if m == 0 then 0
    else FireCount(probability, n, m - 1) + if Fires(probability, (m - 1) as real / n as real) then 1 else 0
  }

  lemma SmallerQuotient(a: real, b: real, n: real)
    requires n > 0.0 && a < b
    ensures a / n < b / n
  {
  }

  lemma WholeQuotient(n: real)
    requires n > 0.0
    ensures n / n == 1.0 && 0.0 / n == 0.0
  {
  }

  lemma Fractions(i: nat, k: nat, n: nat)
    requires n > 0
    ensures i < k <==> i as real / n as real < k as real / n as real
    ensures k as real / n as real >= 1.0 <==> k >= n
    ensures k as real / n as real > 0.0 <==> k > 0
  {
    var a, b, c := i as real, k as real, n as real;
    WholeQuotient(c);
    if i < k {
      SmallerQuotient(a, b, c);
    } else if k < i {
      SmallerQuotient(b, a, c);
    }
    if k < n {
      SmallerQuotient(b, c, c);
    } else if k > n {
      SmallerQuotient(c, b, c);
    }
    if k > 0 {
      SmallerQuotient(0.0, b, c);
    }
  }

  /** The draw that decides: with probability k/n it fires on i/n exactly when i is below k. */
  lemma FiresBelow(i: nat, k: nat, n: nat)
    requires i < n && k <= n
    ensures Fires(k as real / n as real, i as real / n as real) <==> i < k
  {
    Fractions(i, k, n);
  }

  /** With probability k/n it fires on exactly k of the draws 0/n, 1/n, ..., (n - 1)/n. */
  lemma FiresInProportion(k: nat, n: nat)
    requires n > 0 && k <= n
    ensures FireCount(k as real / n as real, n, n) == k
  {
    FiresInPart(k, n, n);
  }

  lemma {:induction false} FiresInPart(k: nat, n: nat, m: nat)
    requires n > 0 && k <= n && m <= n
    ensures FireCount(k as real / n as real, n, m) == Min(k, m)
  {
    if m > 0 {
      FiresInPart(k, n, m - 1);
      FiresBelow(m - 1, k, n);
    }
  }

  /** Beyond the ends: at least 1 always fires, at most 0 never does. */
  lemma FiresAtEnds(probability: real, draw: real)
    requires UnitDraw(draw)
    ensures probability >= 1.0 ==> Fires(probability, draw)
    ensures probability <= 0.0 ==> !Fires(probability, draw)
  {
  }

  /** Only the name "normal" selects the normal distribution: every int may then be drawn, and is
      cut to the jitter. Otherwise what is drawn is within the jitter and is added as it is. */
  lemma DrawsByName(t: Timing, draw: int)
    requires t.Valid() && t.frequency >= 1 && t.jitter > 0 && t.frequency + t.jitter <= INT_MAX
    ensures t.distribution == "normal" ==>
              && (PossibleDraw(t, draw) <==> Int32(draw))
              && (draw > t.jitter ==> Delay(t, draw) == t.frequency + t.jitter)
              && (draw < -t.jitter ==> Delay(t, draw) == Max(1, t.frequency - t.jitter))
    ensures t.distribution != "normal" ==> (PossibleDraw(t, draw) <==> -t.jitter <= draw <= t.jitter)
    ensures -t.jitter <= draw <= t.jitter ==> Delay(t, draw) == Max(1, t.frequency + draw)
  {
  }

  /** For a positive frequency, with either distribution the possible delays are all of
      max(1, frequency - jitter) to frequency + jitter, and nothing else, exactly when that
      upper end fits an int. */
  lemma PossibleDelays(t: Timing)
    requires t.Valid() && t.frequency >= 1 && t.jitter > 0
    ensures (forall delay :: PossibleDelay(t, delay) <==>
                             Max(1, t.frequency - t.jitter) <= delay <= t.frequency + t.jitter)
       <==> t.frequency + t.jitter <= INT_MAX
  {
    var high := t.frequency + t.jitter;
    if high <= INT_MAX {
      forall delay | Max(1, t.frequency - t.jitter) <= delay <= high ensures PossibleDelay(t, delay) {
        assert PossibleDraw(t, delay - t.frequency) && Delay(t, delay - t.frequency) == delay;
      }
    } else {
      forall draw | PossibleDraw(t, draw) ensures Delay(t, draw) != high {
      }
      assert !PossibleDelay(t, high);
    }
  }

  /** Without jitter the only possible delay is the frequency. */
  lemma DelayWithoutJitter(t: Timing, delay: int)
    requires t.jitter <= 0
    ensures PossibleDelay(t, delay) <==> delay == t.frequency
  {
    assert PossibleDraw(t, 0) && Delay(t, 0) == t.frequency;
  }

  /** The shortest wait of a timing, as far as no sum wraps. */
  function Shortest(t: Timing): int {
    if t.jitter <= 0 then t.frequency else Max(1, t.frequency - t.jitter)
  }

  /** A positive frequency, and either no sum that wraps, or a shortest wait of 1 ms, which is
      also what a wrapped sum gives. */
  predicate InRange(t: Timing) {
    t.Valid() && t.frequency >= 1 && (t.frequency + t.jitter <= INT_MAX || t.frequency - t.jitter <= 1)
  }

  lemma WrappedDelay(t: Timing, draw: int)
    requires t.Valid() && t.frequency >= 1 && t.jitter > 0 && PossibleDraw(t, draw)
    ensures var sum := t.frequency + Max(-t.jitter, Min(t.jitter, draw));
            Delay(t, draw) == if sum > INT_MAX then 1 else Max(1, sum)
  {
  }

  lemma DelayBounds(t: Timing, draw: int)
    requires InRange(t) && PossibleDraw(t, draw)
    ensures 1 <= Shortest(t) <= Delay(t, draw) <= t.frequency + Max(0, t.jitter)
  {
  }

  /** For a positive frequency, no delay ever leaves the interval from the shortest wait to
      frequency + jitter, exactly when that upper end fits an int or the shortest wait is 1. */
  lemma DelaysWithinIff(t: Timing)
    requires t.Valid() && t.frequency >= 1
    ensures (forall draw | PossibleDraw(t, draw) ::
        Shortest(t) <= Delay(t, draw) <= t.frequency + Max(0, t.jitter)) <==> InRange(t)
  {
    if InRange(t) {
      forall draw | PossibleDraw(t, draw) ensures Shortest(t) <= Delay(t, draw) <= t.frequency + Max(0, t.jitter) {
        DelayBounds(t, draw);
      }
    } else {
      WrappedDelay(t, t.jitter);
      assert PossibleDraw(t, t.jitter) && Delay(t, t.jitter) == 1;
    }
  }
}
