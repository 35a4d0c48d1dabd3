/** The 16.16 fixed-point square root, logarithm and UCT score of the tree search,
    with the truncations of the original written out, or shown to lose nothing. */
module FixedPoint {
  import opened Basics

  const SIGN: nat := 0x8000_0000
  const WORD: nat := 0x1_0000_0000
  const LONG: nat := 0x1_0000_0000_0000_0000
  const FIXED_MAX: nat := 0xffff_ffff

  // ---- Arithmetic facts ----

  function Pow2(n: nat): (p: nat)
    ensures p > 0
  {
    if n == 0 then 1 else 2 * Pow2(n - 1)
  }

  /** Index of the highest set bit. */
  function Log2(x: nat): (k: nat)
    requires x > 0
    ensures Pow2(k) <= x < Pow2(k + 1)
  {
    if x == 1 then 0 else
      var k := Log2(x / 2);
      k + 1
  }

  lemma {:induction false} Pow2Monotone(m: nat, n: nat)
    requires m <= n
    ensures Pow2(m) <= Pow2(n)
    decreases n
  {
    if m < n {
      Pow2Monotone(m, n - 1);
    }
  }

  lemma Log2Monotone(x: nat, y: nat)
    requires 0 < x <= y
    ensures Log2(x) <= Log2(y)
  {
    if Log2(y) < Log2(x) {
      Pow2Monotone(Log2(y) + 1, Log2(x));
      assert false;
    }
  }

  lemma SquareMonotone(a: nat, b: nat)
    requires a <= b
    ensures a * a <= b * b
  {
    ProductMonotone(a, b, a);
    ProductMonotone(a, b, b);
  }

  lemma DivMonotone(a: int, b: int, d: int)
    requires a <= b && 0 < d
    ensures a / d <= b / d
  {
    var q, r := a / d, b / d;
    assert a == q * d + a % d && b == r * d + b % d;
    MulAway(q - r - 1, d);
    assert (q - r - 1) * d == q * d - r * d - d;
  }

  lemma MulAway(x: int, d: int)
    requires 0 < d
    ensures x >= 0 ==> x * d >= 0
  {
  }

  /** Comparing quotients by cross-multiplication. */
  lemma DivCross(a: nat, b: nat, c: nat, d: nat)
    requires 0 < b && 0 < d && a * d <= c * b
    ensures a / b <= c / d
  {
    var q := a / b;
    assert q * b <= a;
    ProductMonotone(q * b, a, d);
    QuotientFits(q, b, c, d);
  }

  lemma QuotientFits(q: nat, b: nat, c: nat, d: nat)
    requires 0 < b && 0 < d && q * b * d <= c * b
    ensures q <= c / d
  {
    assert q * d <= c by {
      assert q * b * d == (q * d) * b;
      MulAway(q * d - c - 1, b);
      assert (q * d - c - 1) * b == (q * d) * b - c * b - b;
    }
    DivMonotone(q * d, c, d);
    assert q * d / d == q by {
      MulAway(q * d / d - q - 1, d);
      MulAway(q - q * d / d - 1, d);
    }
  }

  // ---- Square root ----

  /** The bit-by-bit loop from bit i down. */
  function SqrtFrom(x: nat, s: nat, i: int): nat
    requires i >= -1
    decreases i + 1
  {
    if i < 0 then s
    else
      var t := Pow2(i);
      if (s + t) * (s + t) / ONE <= x then SqrtFrom(x, s + t, i - 1) else SqrtFrom(x, s, i - 1)
  }

  function FixedSqrt(x: nat): nat {
    if x == 0 || x == ONE then x else SqrtFrom(x, 0, Log2(x))
  }

  /** s is the largest value below `cap` whose square does not exceed x. */
  ghost predicate LargestRoot(x: nat, cap: nat, s: nat) {
    s < cap && s * s / ONE <= x && (s + 1 < cap ==> (s + 1) * (s + 1) / ONE > x)
  }

  lemma LargestRootIsMax(x: nat, cap: nat, s: nat, r: nat)
    requires LargestRoot(x, cap, s) && r < cap && r * r / ONE <= x
    ensures r <= s
  {
    if r > s {
      SquareMonotone(s + 1, r);
      DivMonotone((s + 1) * (s + 1), r * r, ONE);
      assert false;
    }
  }

  lemma {:induction false} SqrtFromIsRoot(x: nat, s: nat, i: int, cap: nat)
    requires i >= -1 && s * s / ONE <= x
    requires s + Pow2(i + 1) <= cap
    requires s + Pow2(i + 1) == cap || (s + Pow2(i + 1)) * (s + Pow2(i + 1)) / ONE > x
    ensures LargestRoot(x, cap, SqrtFrom(x, s, i))
    decreases i + 1
  {
    if i >= 0 {
      var t := Pow2(i);
      if (s + t) * (s + t) / ONE <= x {
        SqrtFromIsRoot(x, s + t, i - 1, cap);
      } else {
        SqrtFromIsRoot(x, s, i - 1, cap);
      }
    }
  }

  /** `fixed_sqrt` of a positive x is the largest value below the next power of two above
      x whose square, scaled back, does not exceed x. */
  lemma FixedSqrtIsRoot(x: nat)
    requires x > 0
    ensures LargestRoot(x, Pow2(Log2(x) + 1), FixedSqrt(x))
  {
    if x == ONE {
      PowersOfTwo();
      LogOfOne();
    } else {
      SqrtFromIsRoot(x, 0, Log2(x), Pow2(Log2(x) + 1));
    }
  }

  lemma PowersOfTwo()
    ensures Pow2(16) == ONE && Pow2(17) == 2 * ONE && Pow2(18) == 4 * ONE && Pow2(32) == WORD
  {
    assert Pow2(4) == 16;
    assert Pow2(8) == 256;
    assert Pow2(12) == 4096;
    assert Pow2(16) == ONE;
    assert Pow2(20) == 0x10_0000;
    assert Pow2(24) == 0x100_0000;
    assert Pow2(28) == 0x1000_0000;
  }

  lemma LogExact(x: nat, k: nat)
    requires Pow2(k) <= x < Pow2(k + 1)
    ensures Log2(x) == k
  {
    if Log2(x) < k {
      Pow2Monotone(Log2(x) + 1, k);
      assert false;
    }
    if Log2(x) > k {
      Pow2Monotone(k + 1, Log2(x));
      assert false;
    }
  }

  lemma LogOfOne()
    ensures Log2(ONE) == 16 && Log2(2 * ONE) == 17
  {
    PowersOfTwo();
    LogExact(ONE, 16);
    LogExact(2 * ONE, 17);
  }

  /** The root is monotone, across the cap as well. */
  lemma FixedSqrtMonotone(x: nat, y: nat)
    requires x <= y
    ensures FixedSqrt(x) <= FixedSqrt(y)
  {
    if x > 0 {
      PositiveRootMonotone(x, y);
    }
  }

  lemma PositiveRootMonotone(x: nat, y: nat)
    requires 0 < x <= y
    ensures FixedSqrt(x) <= FixedSqrt(y)
  {
    hide FixedSqrt;
    FixedSqrtIsRoot(x);
    FixedSqrtIsRoot(y);
    Log2Monotone(x, y);
    Pow2Monotone(Log2(x) + 1, Log2(y) + 1);
    LargestRootIsMax(y, Pow2(Log2(y) + 1), FixedSqrt(y), FixedSqrt(x));
  }

  /** From one upwards the cap is never in the way: the root is the largest of all. */
  lemma FixedSqrtUnrestricted(x: nat, r: nat)
    requires x >= ONE && r * r / ONE <= x
    ensures r <= FixedSqrt(x)
  {
    var cap := Pow2(Log2(x) + 1);
    FixedSqrtIsRoot(x);
    PowersOfTwo();
    LogOfOne();
    Log2Monotone(ONE, x);
    Pow2Monotone(17, Log2(x) + 1);
    assert cap * cap / ONE > x by {
      ProductMonotone(2 * ONE, cap, cap);
      DivMonotone(2 * ONE * cap, cap * cap, ONE);
    }
    if r >= cap {
      SquareMonotone(cap, r);
      DivMonotone(cap * cap, r * r, ONE);
      assert false;
    }
    LargestRootIsMax(x, cap, FixedSqrt(x), r);
  }

  /** A candidate of 32 bits has a square of 64. */
  lemma SquareFits(c: nat)
    requires c <= WORD - 1
    ensures c * c % LONG == c * c
  {
    SquareMonotone(c, WORD - 1);
  }

  /** The bits still to be tried keep every candidate below the word size. */
  lemma CandidateFits(x: nat)
    requires 0 < x < WORD
    ensures Pow2(Log2(x) + 1) <= WORD
  {
    PowersOfTwo();
    LogBelow(x, 32);
    Pow2Monotone(Log2(x) + 1, 32);
  }

  lemma LogBelow(x: nat, k: nat)
    requires 0 < x < Pow2(k)
    ensures Log2(x) < k
  {
    if Log2(x) >= k {
      Pow2Monotone(k, Log2(x));
    }
  }

  /** The loop with its square taken in 64 bits: nothing is lost. */
  method FixedSqrtLoop(x: nat) returns (s: nat)
    requires x < WORD
    ensures s == FixedSqrt(x)
  {
    if x == 0 || x == ONE {
      return x;
    }
    CandidateFits(x);
    s := 0;
    var i: int := Log2(x);
    while i >= 0
      invariant i >= -1 && s + Pow2(i + 1) <= WORD
      invariant SqrtFrom(x, s, i) == FixedSqrt(x)
    {
      var t := Pow2(i);
      assert Pow2(i + 1) == 2 * t;
      var candidate := s + t;
      SquareFits(candidate);
      if candidate * candidate % LONG / ONE <= x {
        s := s + t;
      }
      i := i - 1;
    }
  }

  // ---- Logarithm ----

  /** The j-th power of y by repeated truncating multiplication. */
  function Power(y: nat, j: nat): nat {
    if j == 0 then ONE else Power(y, j - 1) * y / ONE
  }

  function Term(y: nat, i: nat): nat
    requires i > 0
  {
    Power(y, i) * ONE / (i * ONE)
  }

  /** The odd terms of the series from i up to 19. */
  function Series(y: nat, i: nat): nat
    requires i > 0
    decreases 20 - i, y
  {
    if i >= 20 then 0 else Term(y, i) + Series(y, i + 2)
  }

  /** v - 1 as an unsigned word, and whether its sign bit is set. */
  function Minus1(v: nat): nat
    requires v < WORD
  {
    if v >= ONE then v - ONE else v + WORD - ONE
  }

  predicate Negative(v: nat)
    requires v < WORD
  {
    Minus1(v) >= SIGN
  }

  function Numerator(v: nat): nat
    requires v < WORD
  {
    if Negative(v) then SIGN - (Minus1(v) - SIGN) else Minus1(v)
  }

  function Ratio(v: nat): nat
    requires v < WORD
  {
    Numerator(v) * ONE / (v + ONE)
  }

  function SetSign(a: nat): nat {
    if a >= SIGN then a else a + SIGN
  }

  function FixedLog(v: nat): nat
    requires v < WORD
  {
    if v == 0 || v == ONE then 0
    else
      var ans := 2 * Series(Ratio(v), 1);
      if Negative(v) then SetSign(ans) else ans
  }

  lemma RatioBelowOne(v: nat)
    requires 0 < v < WORD
    ensures Ratio(v) < ONE
  {
    DivBelow(Numerator(v) * ONE, v + ONE, ONE);
  }

  lemma DivBelow(a: nat, d: nat, n: nat)
    requires 0 < d && a < n * d
    ensures a / d < n
  {
    assert a == (a / d) * d + a % d;
    if a / d >= n {
      ProductMonotone(n, a / d, d);
      assert false;
    }
  }

  lemma {:induction false} PowerBelow(y: nat, j: nat)
    requires y <= ONE
    ensures Power(y, j) <= ONE
  {
    if j > 0 {
      PowerBelow(y, j - 1);
      ProductMonotone(Power(y, j - 1), ONE, y);
      DivMonotone(Power(y, j - 1) * y, ONE * y, ONE);
    }
  }

  lemma {:induction false} PowerMonotone(y: nat, z: nat, j: nat)
    requires y <= z
    ensures Power(y, j) <= Power(z, j)
  {
    if j > 0 {
      PowerMonotone(y, z, j - 1);
      ProductMonotone(Power(y, j - 1), Power(z, j - 1), y);
      ProductMonotone(y, z, Power(z, j - 1));
      DivMonotone(Power(y, j - 1) * y, Power(z, j - 1) * z, ONE);
    }
  }

  lemma {:induction false} SeriesMonotone(y: nat, z: nat, i: nat)
    requires y <= z && i > 0
    ensures Series(y, i) <= Series(z, i)
    decreases 20 - i
  {
    if i < 20 {
      SeriesMonotone(y, z, i + 2);
      PowerMonotone(y, z, i);
      DivMonotone(Power(y, i) * ONE, Power(z, i) * ONE, i * ONE);
    }
  }

  lemma TermBelow(y: nat, i: nat)
    requires y <= ONE && i > 0
    ensures Term(y, i) <= ONE
  {
    PowerBelow(y, i);
    DivBelow(Power(y, i) * ONE, i * ONE, ONE + 1);
  }

  lemma {:induction false} SeriesBelow(y: nat, i: nat)
    requires y <= ONE && i > 0
    ensures Series(y, i) <= ONE * (if i < 20 then (21 - i) / 2 else 0)
    decreases 20 - i
  {
    hide Term;
    if i < 20 {
      SeriesBelow(y, i + 2);
      TermBelow(y, i);
    }
  }

  /** The intermediate sums stay far below the word size: no truncation happens. */
  lemma FixedLogNoWrap(v: nat)
    requires 0 < v < WORD
    ensures Ratio(v) < ONE
    ensures 2 * Series(Ratio(v), 1) <= 20 * ONE
    ensures FixedLog(v) < SIGN + 20 * ONE + 1
    ensures Negative(v) ==> FixedLog(v) >= SIGN
  {
    RatioBelowOne(v);
    SeriesBelow(Ratio(v), 1);
  }

  lemma RatioMonotone(v: nat, w: nat)
    requires ONE <= v <= w < SIGN + ONE
    ensures Ratio(v) <= Ratio(w)
  {
    var d := w - v;
    assert (v - ONE) * (w + ONE) == (v - ONE) * (v + ONE) + (v - ONE) * d;
    assert (w - ONE) * (v + ONE) == (v - ONE) * (v + ONE) + (v + ONE) * d;
    ProductMonotone(v - ONE, v + ONE, d);
    ProductMonotone((v - ONE) * (w + ONE), (w - ONE) * (v + ONE), ONE);
    assert (v - ONE) * ONE * (w + ONE) == (v - ONE) * (w + ONE) * ONE;
    assert (w - ONE) * ONE * (v + ONE) == (w - ONE) * (v + ONE) * ONE;
    DivCross((v - ONE) * ONE, v + ONE, (w - ONE) * ONE, w + ONE);
  }

  /** Below the sign-flag branch the logarithm is monotone despite the truncated powers. */
  lemma FixedLogMonotone(v: nat, w: nat)
    requires ONE <= v <= w < SIGN + ONE
    ensures FixedLog(v) <= FixedLog(w)
  {
    if v != ONE {
      RatioMonotone(v, w);
      SeriesMonotone(Ratio(v), Ratio(w), 1);
    }
  }

  method FixedLogLoop(v: nat) returns (ans: nat)
    requires v < WORD
    ensures ans == FixedLog(v)
  {
    hide Term;
    if v == 0 || v == ONE {
      return 0;
    }
    FixedLogNoWrap(v);
    var numerator := (v + WORD - ONE) % WORD;
    var neg := false;
    if numerator >= SIGN {
      neg := true;
      numerator := numerator % SIGN;
      numerator := SIGN - numerator;
    }
    assert numerator == Numerator(v);
    var y := numerator * ONE / (v + ONE);
    var i := 1;
    ans := SumTerms(y, i);
    ans := 2 * ans;
    ans := if neg then SetSign(ans) else ans;
  }

  method SumTerms(y: nat, first: nat) returns (sum: nat)
    requires 1 <= first <= 20
    ensures sum == Series(y, first)
  {
    sum := 0;
    var i := first;
    while i < 20
      invariant first <= i <= 21
      invariant sum + Series(y, i) == Series(y, first)
    {
      var z := ONE;
      for j := 0 to i
        invariant z == Power(y, j)
      {
        z := z * y / ONE;
      }
      z := z * ONE / (i * ONE);
      sum := sum + z;
      i := i + 2;
    }
  }

  // ---- The selection score ----

  const EXPLORATION: nat := FixedSqrt(2 * ONE)

  function LogArgument(nTotal: nat): (v: nat)
    ensures v < WORD
  {
    if nTotal < 0x1_0000 then (nTotal * ONE) % WORD else FIXED_MAX
  }

  /** `uct_score` for an exploration factor e. */
  function UctWith(e: nat, nTotal: nat, nVisits: nat, score: nat): nat {
    if nVisits == 0 then FIXED_MAX
    else
      var result := Mean(score, nVisits) % WORD;
      var logVal := FixedLog(LogArgument(nTotal));
      var tmp := Explore(e, Mean(logVal, nVisits)) % WORD;
      (result + tmp) % WORD
  }

  function Mean(total: nat, count: nat): nat
    requires count > 0
  {
    total / count
  }

  /** The exploration factor times a root. */
  function Explore(e: nat, x: nat): nat {
    e * FixedSqrt(x) / ONE
  }

  function UctScore(nTotal: nat, nVisits: nat, score: nat): nat {
    UctWith(EXPLORATION, nTotal, nVisits, score)
  }

  lemma ExplorationBounds()
    ensures ONE <= EXPLORATION < 4 * ONE
  {
    FixedSqrtIsRoot(2 * ONE);
    LogOfOne();
    PowersOfTwo();
    FixedSqrtUnrestricted(2 * ONE, ONE);
  }

  /** The argument keeps the logarithm at least as large as any child's visit count can be. */
  lemma LogCoversVisits(nTotal: nat)
    requires 2 <= nTotal <= 100000
    ensures FixedLog(LogArgument(nTotal)) >= nTotal
  {
    var v := LogArgument(nTotal);
    FixedLogNoWrap(v);
    if nTotal < 0x1_0000 {
      assert v == nTotal * ONE;
      if !Negative(v) {
        FirstTermCovers(nTotal);
      }
    } else {
      assert Negative(v);
    }
  }

  lemma FirstTermCovers(nTotal: nat)
    requires 2 <= nTotal < 0x1_0000 && !Negative(nTotal * ONE)
    ensures FixedLog(nTotal * ONE) >= nTotal
  {
    var v := nTotal * ONE;
    var y := Ratio(v);
    assert v <= SIGN;
    assert v - ONE == (nTotal - 1) * ONE;
    DivCross(1 * ONE, 3, (v - ONE) * ONE, v + ONE);
    assert y >= ONE / 3;
    assert Power(y, 1) == Power(y, 0) * y / ONE;
    assert Term(y, 1) == y;
    assert Series(y, 1) >= y;
    assert nTotal <= 0x8000;
  }

  lemma QuotientPositive(a: nat, d: nat)
    requires 0 < d <= a
    ensures 1 <= Mean(a, d) <= a
  {
    DivMonotone(d, a, d);
    ProductMonotone(1, d, a / d);
  }

  lemma RootPositive(x: nat)
    requires 1 <= x < WORD
    ensures 1 <= FixedSqrt(x) < 0x200_0000
  {
    FixedSqrtIsRoot(x);
    Pow2Monotone(1, Log2(x) + 1);
    assert Pow2(1) == 2;
    LargestRootIsMax(x, Pow2(Log2(x) + 1), FixedSqrt(x), 1);
    var s, top := FixedSqrt(x), 0x200_0000;
    assert top * top / ONE > x;
    if s >= top {
      SquareMonotone(top, s);
      DivMonotone(top * top, s * s, ONE);
      assert false;
    }
  }

  /** The exploration term of a visited child: positive, and far below the word size. */
  lemma ExplorationTerm(e: nat, x: nat)
    requires ONE <= e < 4 * ONE && 1 <= x < WORD
    ensures 1 <= Explore(e, x) < 0x1000_0000
  {
    var s, top := FixedSqrt(x), 0x200_0000;
    RootPositive(x);
    ProductMonotone(ONE, e, s);
    ProductMonotone(e, 4 * ONE, s);
    DivMonotone(ONE, e * s, ONE);
    DivBelow(e * s, ONE, 4 * top);
  }

  lemma SmallSum(a: nat, b: nat)
    requires a <= ONE && b < 0x1000_0000
    ensures (a % WORD + b % WORD) % WORD == a + b < WORD
  {
    assert a % WORD == a && b % WORD == b;
  }

  lemma UctWithPositive(e: nat, nTotal: nat, nVisits: nat, score: nat)
    requires ONE <= e < 4 * ONE
    requires 1 <= nVisits < nTotal <= 100000 && score <= ONE * nVisits
    ensures 0 < UctWith(e, nTotal, nVisits, score) < WORD
    ensures UctWith(e, nTotal, nVisits, score)
         == Mean(score, nVisits) + Explore(e, Mean(FixedLog(LogArgument(nTotal)), nVisits))
  {
    hide FixedLog, FixedSqrt, LogArgument, Mean, Explore;
    var logVal := FixedLog(LogArgument(nTotal));
    LogCoversVisits(nTotal);
    LogFitsWord(nTotal);
    QuotientPositive(logVal, nVisits);
    ExplorationTerm(e, Mean(logVal, nVisits));
    MeanAtMostOne(score, nVisits);
    SmallSum(Mean(score, nVisits), Explore(e, Mean(logVal, nVisits)));
  }

  lemma MeanAtMostOne(score: nat, nVisits: nat)
    requires 1 <= nVisits && score <= ONE * nVisits
    ensures Mean(score, nVisits) <= ONE
  {
    DivBelow(score, nVisits, ONE + 1);
  }

  lemma LogFitsWord(nTotal: nat)
    requires 2 <= nTotal
    ensures FixedLog(LogArgument(nTotal)) < WORD
  {
    hide FixedLog;
    if LogArgument(nTotal) > 0 {
      FixedLogNoWrap(LogArgument(nTotal));
    } else {
      LogOfZero();
    }
  }

  lemma LogOfZero()
    ensures FixedLog(0) == 0
  {
  }

  /** For every visit count a search can reach, the score of a visited child is positive and
      no truncation loses anything. */
  lemma UctPositive(nTotal: nat, nVisits: nat, score: nat)
    requires 1 <= nVisits < nTotal <= 100000 && score <= ONE * nVisits
    ensures 0 < UctScore(nTotal, nVisits, score) < WORD
    ensures UctScore(nTotal, nVisits, score)
         == Mean(score, nVisits) + Explore(EXPLORATION, Mean(FixedLog(LogArgument(nTotal)), nVisits))
  {
    hide EXPLORATION, UctWith, FixedLog, FixedSqrt, LogArgument, Mean, Explore;
    ExplorationBounds();
    UctWithPositive(EXPLORATION, nTotal, nVisits, score);
  }

  /** An unvisited child scores the maximum. */
  lemma UctUnvisited(nTotal: nat, score: nat)
    ensures UctScore(nTotal, 0, score) == FIXED_MAX > 0
  {
  }
}
