/** How near the fixed-point logarithm comes to the series it truncates, and how the selection
    score moves with what it is computed from. */
module FixedAccuracy {
  import opened Basics
  import opened FixedPoint

  const UNIT: real := 65536.0

  function RealPower(r: real, j: nat): real {
    if j == 0 then 1.0 else RealPower(r, j - 1) * r
  }

  /** The odd terms r^i / i + r^(i+2) / (i+2) + ... up to the nineteenth, without rounding. */
  function OddTerms(r: real, i: nat): real
    requires i > 0
    decreases 20 - i
  {
    if i >= 20 then 0.0 else RealPower(r, i) / i as real + OddTerms(r, i + 2)
  }

  lemma RealProduct(a: real, b: real, c: real)
    requires a <= b && 0.0 <= c
    ensures a * c <= b * c
  {
  }

  lemma RealCancels(a: real, b: real, c: real)
    requires 0.0 < c
    ensures a * c <= b * c <==> a <= b
  {
  }

  lemma RealQuotient(a: real, d: real)
    requires 0.0 < d
    ensures a / d * d == a
  {
  }

  lemma RealDistributes(a: real, b: real, c: real)
    ensures (a + b) * c == a * c + b * c
  {
  }

  /** Quotients of integers, seen from the reals. */
  lemma FloorOf(a: nat, d: nat)
    requires 0 < d
    ensures (a / d) as real * d as real <= a as real < ((a / d) as real + 1.0) * d as real
  {
    assert a == (a / d) * d + a % d;
    assert a as real == (a / d) as real * d as real + (a % d) as real;
  }

  /** Repeated truncating multiplication loses less than one unit a factor. */
  lemma {:induction false} PowerNear(y: nat, r: real, j: nat)
    requires y < ONE && r == y as real / UNIT && j > 0
    ensures Power(y, j) as real <= UNIT * RealPower(r, j) <= Power(y, j) as real + (j - 1) as real
  {
    if j == 1 {
      assert Power(y, 0) == ONE && RealPower(r, 0) == 1.0;
      assert Power(y, 1) == y;
      assert RealPower(r, 1) == r;
    } else {
      PowerNear(y, r, j - 1);
      var p, e := Power(y, j - 1), UNIT * RealPower(r, j - 1);
      assert UNIT * RealPower(r, j) == e * r;
      FloorOf(p * y, ONE);
      NextFactor(p, y, r, e, Power(y, j), j);
    }
  }

  lemma NextFactor(p: nat, y: nat, r: real, e: real, q: nat, j: nat)
    requires y < ONE && r == y as real / UNIT && j > 1
    requires p as real <= e <= p as real + (j - 2) as real
    requires q as real * UNIT <= (p * y) as real < (q as real + 1.0) * UNIT
    ensures q as real <= e * r <= q as real + (j - 1) as real
  {
    assert (p * y) as real == p as real * y as real;
    NextRealFactor(p as real, r, e, q as real, (j - 2) as real);
  }

  lemma NextRealFactor(p: real, r: real, e: real, q: real, k: real)
    requires 0.0 <= r < 1.0 && 0.0 <= p <= e <= p + k
    requires q <= p * r < q + 1.0
    ensures q <= e * r <= q + k + 1.0
  {
    RealProduct(p, e, r);
    RealProduct(e, p + k, r);
    RealDistributes(p, k, r);
    RealProduct(r, 1.0, k);
    assert k * r <= k;
    calc <= {
      e * r;
      p * r + k * r;
      p * r + k;
      q + 1.0 + k;
    }
  }

  /** A term of the series is short by less than two units. */
  lemma TermNear(y: nat, r: real, i: nat)
    requires y < ONE && r == y as real / UNIT && i > 0
    ensures Term(y, i) as real <= UNIT * (RealPower(r, i) / i as real) < Term(y, i) as real + 2.0
  {
    hide Power, RealPower, Term;
    PowerNear(y, r, i);
    TermIs(y, i);
    FloorOf(Power(y, i) * ONE, i * ONE);
    TermQuotient(Power(y, i), UNIT * RealPower(r, i), Term(y, i), i);
    Rearranged(RealPower(r, i), i as real);
  }

  lemma TermIs(y: nat, i: nat)
    requires i > 0
    ensures Term(y, i) == Power(y, i) * ONE / (i * ONE)
  {
  }

  lemma Rearranged(a: real, d: real)
    requires 0.0 < d
    ensures UNIT * (a / d) == UNIT * a / d
  {
  }

  lemma TermQuotient(p: nat, e: real, t: nat, i: nat)
    requires i > 0 && p as real <= e <= p as real + (i - 1) as real
    requires t as real * (i * ONE) as real <= (p * ONE) as real < (t as real + 1.0) * (i * ONE) as real
    ensures t as real <= e / i as real < t as real + 2.0
  {
    assert (i * ONE) as real == i as real * UNIT && (p * ONE) as real == p as real * UNIT;
    TermRealQuotient(p as real, e, t as real, i as real);
  }

  lemma TermRealQuotient(p: real, e: real, t: real, d: real)
    requires 0.0 < d && p <= e < p + d
    requires t * d <= p < (t + 1.0) * d
    ensures t <= e / d < t + 2.0
  {
    RealDistributes(t + 1.0, 1.0, d);
    RealQuotient(e, d);
    RealCancels(t, e / d, d);
    RealCancels(t + 2.0, e / d, d);
  }

  lemma {:induction false} SeriesNear(y: nat, r: real, i: nat)
    requires y < ONE && r == y as real / UNIT && 0 < i <= 21
    ensures Series(y, i) as real <= UNIT * OddTerms(r, i) <= Series(y, i) as real + (21 - i) as real
    decreases 21 - i
  {
    hide Term, RealPower;
    if i < 20 {
      TermNear(y, r, i);
      SeriesNear(y, r, if i == 20 then 21 else i + 2);
      assert UNIT * OddTerms(r, i) == UNIT * (RealPower(r, i) / i as real) + UNIT * OddTerms(r, i + 2);
    }
  }

  /** The numerator the logarithm works with: how far v is from one, from 2^31 on as a word of
      the wrong sign has it. */
  function Distance(v: nat): nat
    requires v < WORD
  {
    if v < ONE then ONE - v else if v < SIGN + ONE then v - ONE else WORD + ONE - v
  }

  /** The logarithm without its sign flag, which is set below one and from 2^31 + 1 on. */
  function Magnitude(v: nat): int
    requires v < WORD
  {
    if ONE <= v < SIGN + ONE then FixedLog(v) else FixedLog(v) - SIGN
  }

  /** The distance from one over v + 1, without rounding. */
  function ExactRatio(v: nat): real
    requires v < WORD
  {
    Distance(v) as real / (v + ONE) as real * UNIT
  }

  /** The first ten terms of 2 (r + r^3/3 + r^5/5 + ...), without rounding. */
  function ExactLog(y: nat): real {
    2.0 * OddTerms(y as real / UNIT, 1) * UNIT
  }

  /** For every word but zero, the logarithm's magnitude is the exact series at its ratio, never
      over and at most forty units of 2^-16 under; and the ratio is the exact one, less than one
      unit under. */
  lemma FixedLogNear(v: nat)
    requires 0 < v < WORD
    ensures Magnitude(v) as real <= ExactLog(Ratio(v)) <= Magnitude(v) as real + 40.0
    ensures Ratio(v) as real <= ExactRatio(v) < Ratio(v) as real + 1.0
  {
    hide FixedLog, Ratio, Series, Magnitude, ExactLog, ExactRatio;
    FixedLogNoWrap(v);
    MagnitudeIs(v);
    ExactLogNear(Ratio(v));
    RatioNear(v);
  }

  lemma ExactLogNear(y: nat)
    requires y < ONE
    ensures (2 * Series(y, 1)) as real <= ExactLog(y) <= (2 * Series(y, 1)) as real + 40.0
  {
    hide Series, OddTerms;
    SeriesNear(y, y as real / UNIT, 1);
  }

  lemma MagnitudeIs(v: nat)
    requires 0 < v < WORD
    ensures Magnitude(v) == 2 * Series(Ratio(v), 1)
  {
    FixedLogNoWrap(v);
    if v == ONE {
      assert Ratio(v) == 0;
      SeriesOfZero(1);
    }
  }

  lemma RatioNear(v: nat)
    requires v < WORD
    ensures Ratio(v) as real <= ExactRatio(v) < Ratio(v) as real + 1.0
  {
    assert Numerator(v) == Distance(v);
    FloorOf(Distance(v) * ONE, v + ONE);
    assert (Distance(v) * ONE) as real == Distance(v) as real * UNIT;
    RatioRealNear(Distance(v) as real, (v + ONE) as real, Ratio(v) as real);
  }

  lemma RatioRealNear(a: real, d: real, y: real)
    requires 0.0 < d && y * d <= a * UNIT < (y + 1.0) * d
    ensures y <= a / d * UNIT < y + 1.0
  {
    RealQuotient(a, d);
    assert a / d * UNIT * d == a / d * d * UNIT;
    RealCancels(y, a / d * UNIT, d);
    RealCancels(y + 1.0, a / d * UNIT, d);
  }

  lemma {:induction false} SeriesOfZero(i: nat)
    requires i > 0
    ensures Series(0, i) == 0
    decreases 20 - i
  {
    if i < 20 {
      assert Power(0, i) == Power(0, i - 1) * 0 / ONE;
      SeriesOfZero(i + 2);
    }
  }

  // ---- The selection score ----

  lemma RootIs(x: nat, s: nat)
    requires x >= ONE && s * s / ONE <= x < (s + 1) * (s + 1) / ONE
    ensures FixedSqrt(x) == s
  {
    hide FixedSqrt;
    FixedSqrtIsRoot(x);
    FixedSqrtUnrestricted(x, s);
    var root := FixedSqrt(x);
    if root > s {
      SquareMonotone(s + 1, root);
      DivMonotone((s + 1) * (s + 1), root * root, ONE);
      assert false;
    }
  }

  /** The exploration factor, the root of two: 1.41421... */
  lemma ExplorationIs()
    ensures EXPLORATION == 92682
  {
    hide FixedSqrt;
    RootIs(2 * ONE, 92682);
  }

  /** q is the quotient of a by d, rounded down. */
  ghost predicate Floored(a: nat, d: nat, q: nat) {
    q * d <= a < (q + 1) * d
  }

  /** The score from its parts: the mean result of the child, and the root of two times the root
      of the logarithm per visit, each rounded down. */
  ghost predicate ScoreParts(log: nat, nVisits: nat, score: nat, mean: nat, perVisit: nat, root: nat, bonus: nat) {
    Floored(score, nVisits, mean) && Floored(log, nVisits, perVisit)
    && perVisit > 0 && LargestRoot(perVisit, Pow2(Log2(perVisit) + 1), root)
    && Floored(92682 * root, ONE, bonus)
  }

  lemma FloorIs(a: nat, d: nat)
    requires 0 < d
    ensures Floored(a, d, a / d)
  {
    assert a == (a / d) * d + a % d;
    assert (a / d + 1) * d == (a / d) * d + d;
  }

  lemma PartsOf(log: nat, nVisits: nat, score: nat)
    requires 1 <= nVisits <= log
    ensures ScoreParts(log, nVisits, score, Mean(score, nVisits), Mean(log, nVisits), FixedSqrt(Mean(log, nVisits)),
                       Explore(92682, Mean(log, nVisits)))
  {
    hide FixedSqrt, LargestRoot;
    QuotientPositive(log, nVisits);
    FloorIs(score, nVisits);
    FloorIs(log, nVisits);
    FloorIs(92682 * FixedSqrt(Mean(log, nVisits)), ONE);
    FixedSqrtIsRoot(Mean(log, nVisits));
  }

  lemma ArgumentIs(nTotal: nat)
    ensures LogArgument(nTotal) == if nTotal < 0x1_0000 then nTotal * ONE else 0xffff_ffff
  {
  }

  /** The score of a visited child is its mean plus its bonus, and nothing is lost in the sum. */
  lemma UctFromParts(nTotal: nat, nVisits: nat, score: nat) returns (mean: nat, perVisit: nat, root: nat, bonus: nat)
    requires 1 <= nVisits < nTotal <= 100000 && score <= ONE * nVisits
    ensures var v := if nTotal < 0x1_0000 then nTotal * ONE else 0xffff_ffff;
            v < WORD && ScoreParts(FixedLog(v), nVisits, score, mean, perVisit, root, bonus)
    ensures UctScore(nTotal, nVisits, score) == mean + bonus
  {
    hide FixedLog, FixedSqrt, LogArgument, UctScore, EXPLORATION, ScoreParts, Mean, Explore;
    UctPositive(nTotal, nVisits, score);
    LogCoversVisits(nTotal);
    ExplorationIs();
    ArgumentIs(nTotal);
    var log := FixedLog(LogArgument(nTotal));
    PartsOf(log, nVisits, score);
    perVisit := Mean(log, nVisits);
    mean, root, bonus := Mean(score, nVisits), FixedSqrt(perVisit), Explore(92682, perVisit);
  }

  /** A child that earned more in as many visits does not score less. */
  lemma MoreEarnedMoreScore(nTotal: nat, nVisits: nat, score: nat, more: nat)
    requires 1 <= nVisits < nTotal <= 100000 && score <= more <= ONE * nVisits
    ensures UctScore(nTotal, nVisits, score) <= UctScore(nTotal, nVisits, more)
  {
    hide UctScore, FixedLog, FixedSqrt, LogArgument, EXPLORATION;
    UctPositive(nTotal, nVisits, score);
    UctPositive(nTotal, nVisits, more);
    DivMonotone(score, more, nVisits);
  }

  lemma ExploreMonotone(e: nat, x: nat, y: nat)
    requires x <= y
    ensures Explore(e, x) <= Explore(e, y)
  {
    hide FixedSqrt;
    FixedSqrtMonotone(x, y);
    ProductMonotone(FixedSqrt(x), FixedSqrt(y), e);
    DivMonotone(e * FixedSqrt(x), e * FixedSqrt(y), ONE);
  }

  /** The bonus does not grow with the child's own visits, */
  lemma VisitedLessTriedMore(nTotal: nat, nVisits: nat, more: nat)
    requires 1 <= nVisits <= more < nTotal <= 100000
    ensures UctScore(nTotal, more, 0) <= UctScore(nTotal, nVisits, 0)
  {
    hide UctScore, FixedLog, FixedSqrt, LogArgument, EXPLORATION, Explore;
    UctPositive(nTotal, nVisits, 0);
    UctPositive(nTotal, more, 0);
    var log := FixedLog(LogArgument(nTotal));
    ProductMonotone(nVisits, more, log);
    DivCross(log, more, log, nVisits);
    ExploreMonotone(EXPLORATION, Mean(log, more), Mean(log, nVisits));
  }

  /** and does not shrink with its parent's, as far as the logarithm has no sign flag. */
  lemma NeglectedTriedMore(nTotal: nat, more: nat, nVisits: nat, score: nat)
    requires 1 <= nVisits < nTotal <= more <= 0x8000 && score <= ONE * nVisits
    ensures UctScore(nTotal, nVisits, score) <= UctScore(more, nVisits, score)
  {
    hide UctScore, FixedLog, FixedSqrt, EXPLORATION, Explore;
    UctPositive(nTotal, nVisits, score);
    UctPositive(more, nVisits, score);
    FixedLogMonotone(nTotal * ONE, more * ONE);
    DivMonotone(FixedLog(nTotal * ONE), FixedLog(more * ONE), nVisits);
    ExploreMonotone(EXPLORATION, Mean(FixedLog(nTotal * ONE), nVisits), Mean(FixedLog(more * ONE), nVisits));
  }
}
