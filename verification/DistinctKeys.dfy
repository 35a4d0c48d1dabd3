/** That search keys need not collide: words under which they never do. */
module DistinctKeys {
  import opened Game
  import opened XorWords
  import opened Keys
  import opened Bits

  function Shifted(v: bv64, n: bv7): bv64
    requires n < 64
  {
    v << n
  }

  /** Four bits of its own for every cell: the lowest for O, the next for X. */
  ghost predicate Separate(z: Words) {
    forall i :: 0 <= i < N_GRIDS ==> z[i] == (Shifted(1, Shift(i)), Shifted(2, Shift(i)))
  }

  /** The bits of cell i. */
  function Field(i: nat): bv64
    requires i < N_GRIDS
  {
    Shifted(15, Shift(i))
  }

  predicate Outside(x: bv64, mask: bv64) {
    x & mask == 0
  }

  predicate Inside(x: bv64, mask: bv64) {
    x & !mask == 0
  }

  lemma ShiftedInside(v: bv64, n: bv7)
    requires n < 64 && n & 3 == 0 && v <= 15
    ensures Inside(Shifted(v, n), Shifted(15, n))
  {
    NibbleInField(v, n);
  }

  lemma ShiftedOutside(n: bv7, m: bv7)
    requires n < 64 && m < 64 && n & 3 == 0 && m & 3 == 0 && n != m
    ensures Outside(Shifted(15, n), Shifted(15, m))
  {
    NibblesDisjoint(n, m);
  }

  lemma InsideApart(x: bv64, inside: bv64, mask: bv64)
    requires Inside(x, inside) && Outside(inside, mask)
    ensures Outside(x, mask)
  {
  }

  lemma WordInside(z: Words, m: nat, c: Cell)
    requires Separate(z) && m < N_GRIDS
    ensures Inside(Word(z, m, c), Field(m))
  {
    hide Inside, Shifted;
    ShiftedInside(1, Shift(m));
    ShiftedInside(2, Shift(m));
  }

  lemma WordOutside(z: Words, m: nat, c: Cell, j: nat)
    requires Separate(z) && m < N_GRIDS && j < N_GRIDS && m != j
    ensures Outside(Word(z, m, c), Field(j))
  {
    hide Inside, Outside, Shifted, Separate, Word;
    WordInside(z, m, c);
    ShiftInjective(m, j);
    ShiftedOutside(Shift(m), Shift(j));
    InsideApart(Word(z, m, c), Field(m), Field(j));
  }

  lemma XorOutside(x: bv64, y: bv64, mask: bv64)
    requires Outside(x, mask) && Outside(y, mask)
    ensures Outside(Xor(x, y), mask)
  {
  }

  /** The key of the cells below n has nothing in the field of a cell from n on. */
  lemma {:induction false} KeyOutside(z: Words, root: Board, b: Board, n: nat, j: nat)
    requires Separate(z) && n <= j < N_GRIDS
    ensures Outside(KeyTo(z, root, b, n), Field(j))
  {
    hide Outside, Xor, Word, Field;
    if n == 0 {
      NothingOutside(Field(j));
    } else {
      KeyOutside(z, root, b, n - 1, j);
      if b[n - 1] != root[n - 1] {
        WordOutside(z, n - 1, b[n - 1], j);
        XorOutside(KeyTo(z, root, b, n - 1), Word(z, n - 1, b[n - 1]), Field(j));
      }
    }
  }

  lemma NothingOutside(mask: bv64)
    ensures Outside(0, mask)
  {
  }

  /** What one cell adds to the key. */
  function Part(z: Words, root: Board, b: Board, m: nat): bv64
    requires m < N_GRIDS
  {
    if b[m] == root[m] then 0 else Word(z, m, b[m])
  }

  lemma PartSplits(k1: bv64, w1: bv64, k2: bv64, w2: bv64, mask: bv64)
    requires Outside(k1, mask) && Outside(k2, mask) && Inside(w1, mask) && Inside(w2, mask)
    requires Xor(k1, w1) == Xor(k2, w2)
    ensures k1 == k2 && w1 == w2
  {
  }

  lemma PartInside(z: Words, root: Board, b: Board, m: nat)
    requires Separate(z) && m < N_GRIDS
    ensures Inside(Part(z, root, b, m), Field(m))
  {
    hide Inside, Separate, Word, Field;
    WordInside(z, m, b[m]);
    NothingInside(Field(m));
  }

  lemma NothingInside(mask: bv64)
    ensures Inside(0, mask)
  {
  }

  lemma PartTells(z: Words, root: Board, b1: Board, b2: Board, m: nat)
    requires Separate(z) && m < N_GRIDS && Extends(root, b1) && Extends(root, b2)
    requires Part(z, root, b1, m) == Part(z, root, b2, m)
    ensures b1[m] == b2[m]
  {
    hide Shifted;
    WordsDiffer(Shift(m));
  }

  lemma WordsDiffer(n: bv7)
    requires n < 64 && n & 3 == 0
    ensures Shifted(1, n) != 0 && Shifted(2, n) != 0 && Shifted(1, n) != Shifted(2, n)
  {
  }

  lemma KeyStep(z: Words, root: Board, b: Board, n: nat)
    requires 0 < n <= N_GRIDS
    ensures KeyTo(z, root, b, n) == Xor(KeyTo(z, root, b, n - 1), Part(z, root, b, n - 1))
  {
    hide Word;
  }

  lemma {:induction false} KeyTells(z: Words, root: Board, b1: Board, b2: Board, n: nat, m: nat)
    requires Separate(z) && m < n <= N_GRIDS && Extends(root, b1) && Extends(root, b2)
    requires KeyTo(z, root, b1, n) == KeyTo(z, root, b2, n)
    ensures b1[m] == b2[m]
  {
    hide KeyTo, Xor, Part, Field, Outside, Inside, Extends, Separate;
    KeyStep(z, root, b1, n);
    KeyStep(z, root, b2, n);
    KeyOutside(z, root, b1, n - 1, n - 1);
    KeyOutside(z, root, b2, n - 1, n - 1);
    PartInside(z, root, b1, n - 1);
    PartInside(z, root, b2, n - 1);
    PartSplits(KeyTo(z, root, b1, n - 1), Part(z, root, b1, n - 1), KeyTo(z, root, b2, n - 1),
               Part(z, root, b2, n - 1), Field(n - 1));
    if m == n - 1 {
      PartTells(z, root, b1, b2, m);
    } else {
      KeyTells(z, root, b1, b2, n - 1, m);
    }
  }

  lemma SeparateWordsTell(z: Words, root: Board)
    requires Separate(z)
    ensures CollisionFree(z, root)
  {
    hide KeyTo, Separate, Extends;
    forall b1: Board, b2: Board | Extends(root, b1) && Extends(root, b2) && Key(z, root, b1) == Key(z, root, b2)
      ensures b1 == b2
    {
      forall m | 0 <= m < N_GRIDS
        ensures b1[m] == b2[m]
      {
        KeyTells(z, root, b1, b2, N_GRIDS, m);
      }
    }
  }

  /** There are words under which no two boards of a search have the same key, whatever the root:
      what is claimed of a search without collisions is claimed of something. */
  lemma KeysNeedNotCollide() returns (z: Words)
    ensures forall root :: CollisionFree(z, root)
  {
    z := seq(N_GRIDS, i requires 0 <= i < N_GRIDS => (Shifted(1, Shift(i)), Shifted(2, Shift(i))));
    assert Separate(z);
    hide CollisionFree, Separate;
    forall root
      ensures CollisionFree(z, root)
    {
      SeparateWordsTell(z, root);
    }
  }
}
