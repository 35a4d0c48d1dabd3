/** What several parts share: the fixed-point unit, sequences without repetition, and a few
    facts about products and quotients. */
module Basics {

  /** One, with sixteen fractional bits. */
  const ONE: nat := 65536

  ghost predicate Distinct<T>(xs: seq<T>) {
    forall i, j :: 0 <= i < j < |xs| ==> xs[i] != xs[j]
  }

  lemma DivModUnique(a: int, b: int, d: int)
    requires 0 <= b < d
    ensures (a * d + b) / d == a && (a * d + b) % d == b
  {
    var q, r := (a * d + b) / d, (a * d + b) % d;
    assert (q - a) * d == b - r;
    ProductAway(q - a, d);
  }

  lemma ProductAway(x: int, d: int)
    requires 0 < d
    ensures x >= 1 ==> x * d >= d
    ensures x <= -1 ==> x * d <= -d
  {
  }

  lemma ProductMonotone(a: int, b: int, c: int)
    requires a <= b && 0 <= c
    ensures a * c <= b * c
  {
  }
}
