/** Exclusive or of 64-bit words as a commutative group. */
module XorWords {
  function Xor(x: bv64, y: bv64): bv64 {
    x ^ y
  }

  lemma XorCancels(x: bv64, y: bv64)
    ensures Xor(Xor(x, y), y) == x
  {
  }

  lemma OperatorAssociative(x: bv64, y: bv64, w: bv64)
    ensures (x ^ y) ^ w == x ^ (y ^ w)
  {
  }

  lemma XorLeft(x: bv64, y: bv64, w: bv64)
    ensures Xor(Xor(x, y), w) == (x ^ y) ^ w
  {
    assert Xor(x, y) == x ^ y;
  }

  lemma XorRight(x: bv64, y: bv64, w: bv64)
    ensures Xor(x, Xor(y, w)) == x ^ (y ^ w)
  {
    assert Xor(y, w) == y ^ w;
  }

  lemma XorAssociative(x: bv64, y: bv64, w: bv64)
    ensures Xor(Xor(x, y), w) == Xor(x, Xor(y, w))
  {
    hide Xor;
    OperatorAssociative(x, y, w);
    XorLeft(x, y, w);
    XorRight(x, y, w);
  }

  lemma XorCommutes(x: bv64, y: bv64)
    ensures Xor(x, y) == Xor(y, x)
  {
  }

  lemma XorSwap(x: bv64, y: bv64, w: bv64)
    ensures Xor(Xor(x, w), y) == Xor(Xor(x, y), w)
  {
    hide Xor;
    XorAssociative(x, w, y);
    XorAssociative(x, y, w);
    XorCommutes(w, y);
  }
}
