/** The xoroshiro128 generator: stepping is a bijective linear map of the two state words,
    and jumping sums the states whose distance is marked in the jump constant. */
module Xoroshiro {
  import opened XorWords

  datatype State = State(s0: bv64, s1: bv64)

  function Rotl(x: bv64, k: bv7): bv64
    requires 0 < k < 64
  {
    (x << k) | (x >> (64 - k))
  }

  function Shl16(x: bv64): bv64 {
    x << 16
  }

  /** Addition modulo 2^64. */
  function Add(x: bv64, y: bv64): bv64 {
    x + y
  }

  /** The state after a step. */
  function Step(s: State): State {
    var t := Xor(s.s1, s.s0);
    State(Xor(Xor(Rotl(s.s0, 24), t), Shl16(t)), Rotl(t, 37))
  }

  /** The word a step delivers. */
  function Output(s: State): bv64 {
    Add(Rotl(Add(s.s0, s.s1), 24), s.s0)
  }

  function Steps(s: State, k: nat): State {
    if k == 0 then s else Step(Steps(s, k - 1))
  }

  function Sum(a: State, b: State): State {
    State(Xor(a.s0, b.s0), Xor(a.s1, b.s1))
  }

  const ZERO := State(0, 0)

  // ---- The step is linear ----

  lemma Rotl24Linear(x: bv64, y: bv64)
    ensures Rotl(Xor(x, y), 24) == Xor(Rotl(x, 24), Rotl(y, 24))
  {
  }

  lemma Rotl37Linear(x: bv64, y: bv64)
    ensures Rotl(Xor(x, y), 37) == Xor(Rotl(x, 37), Rotl(y, 37))
  {
  }

  lemma Shl16Linear(x: bv64, y: bv64)
    ensures Shl16(Xor(x, y)) == Xor(Shl16(x), Shl16(y))
  {
  }

  lemma XorExchange(a: bv64, b: bv64, c: bv64, d: bv64)
    ensures Xor(Xor(a, b), Xor(c, d)) == Xor(Xor(a, c), Xor(b, d))
  {
    hide Xor;
    XorAssociative(Xor(a, b), c, d);
    XorSwap(a, c, b);
    XorAssociative(Xor(a, c), b, d);
  }

  lemma StepLinear(a: State, b: State)
    ensures Step(Sum(a, b)) == Sum(Step(a), Step(b))
  {
    hide Xor, Rotl, Shl16;
    var ta, tb := Xor(a.s1, a.s0), Xor(b.s1, b.s0);
    XorExchange(a.s1, b.s1, a.s0, b.s0);
    Rotl24Linear(a.s0, b.s0);
    Rotl37Linear(ta, tb);
    Shl16Linear(ta, tb);
    XorExchange(Rotl(a.s0, 24), Rotl(b.s0, 24), ta, tb);
    XorExchange(Xor(Rotl(a.s0, 24), ta), Xor(Rotl(b.s0, 24), tb), Shl16(ta), Shl16(tb));
  }

  lemma StepZero()
    ensures Step(ZERO) == ZERO
  {
  }

  lemma SumExchange(a: State, b: State, c: State, d: State)
    ensures Sum(Sum(a, b), Sum(c, d)) == Sum(Sum(a, c), Sum(b, d))
  {
    hide Xor;
    XorExchange(a.s0, b.s0, c.s0, d.s0);
    XorExchange(a.s1, b.s1, c.s1, d.s1);
  }

  // ---- The step is a bijection ----

  /** The step undone. */
  function Unstep(s: State): State {
    var t := Rotl(s.s1, 27);
    var s0 := Rotl(Xor(Xor(s.s0, t), Shl16(t)), 40);
    State(s0, Xor(t, s0))
  }

  lemma RotlBack37(x: bv64)
    ensures Rotl(Rotl(x, 37), 27) == x
    ensures Rotl(Rotl(x, 27), 37) == x
  {
  }

  lemma RotlBack24(x: bv64)
    ensures Rotl(Rotl(x, 24), 40) == x
    ensures Rotl(Rotl(x, 40), 24) == x
  {
  }

  lemma CancelTwo(r: bv64, t: bv64, u: bv64)
    ensures Xor(Xor(Xor(Xor(r, t), u), t), u) == r
  {
    hide Xor;
    XorSwap(Xor(r, t), t, u);
    XorCancels(r, t);
    XorCancels(r, u);
  }

  lemma UnstepStep(s: State)
    ensures Unstep(Step(s)) == s
  {
    hide Xor, Rotl, Shl16;
    var t := Xor(s.s1, s.s0);
    RotlBack37(t);
    RotlBack24(s.s0);
    CancelTwo(Rotl(s.s0, 24), t, Shl16(t));
    XorCancels(s.s1, s.s0);
  }

  lemma StepUnstep(s: State)
    ensures Step(Unstep(s)) == s
  {
    hide Xor, Rotl, Shl16;
    var t := Rotl(s.s1, 27);
    RotlBack37(s.s1);
    RotlBack24(Xor(Xor(s.s0, t), Shl16(t)));
    XorCancels(t, Unstep(s).s0);
    CancelTwo(s.s0, t, Shl16(t));
  }

  /** Different states stay different, and only zero leads to zero. */
  lemma {:induction false} StepsInjective(a: State, b: State, k: nat)
    ensures Steps(a, k) == Steps(b, k) <==> a == b
    ensures Steps(a, k) == ZERO <==> a == ZERO
  {
    hide Step, Unstep;
    if k > 0 {
      StepsInjective(a, b, k - 1);
      UnstepStep(Steps(a, k - 1));
      UnstepStep(Steps(b, k - 1));
      UnstepStep(ZERO);
      StepZero();
    }
  }

  const SEED := State(314159265, 1618033989)

  /** The first three words the seeded generator delivers, and the states between. */
  lemma FirstWords()
    ensures Output(SEED) == 0x0073_2aed_f8b9_b0a1
    ensures Steps(SEED, 1) == State(0x0012_cb78_5e2c_8de4, 0x5911_bc80_0000_000e)
    ensures Output(Steps(SEED, 1)) == 0xf870_f806_5085_b26b
    ensures Steps(SEED, 2) == State(0x56a5_0559_37c6_9f21, 0xc591_bd4b_206e_ff0b)
    ensures Output(Steps(SEED, 2)) == 0xfafd_3af7_63e2_d5e3
  {
    assert Steps(SEED, 0) == SEED;
    assert Steps(SEED, 1) == Step(SEED);
    assert Steps(SEED, 2) == Step(Steps(SEED, 1));
  }

  /** The generator never falls into the all-zero state, where it would stay. */
  lemma NeverZero(k: nat)
    ensures Steps(SEED, k) != ZERO && Steps(ZERO, k) == ZERO
  {
    hide Step;
    StepsInjective(SEED, ZERO, k);
    StepsZero(k);
  }

  // ---- Jumping ----

  /** Bit k of the jump constant, lowest word first. */
  predicate BitOf(w: bv64, b: nat)
    requires b < 64
  {
    w & (1 << b) != 0
  }

  predicate Marked(jump: seq<bv64>, k: nat)
    requires k < 64 * |jump|
  {
    BitOf(jump[k / 64], k % 64)
  }

  /** The sum of the states reached after k steps, over the marked k below n. */
  function JumpTo(jump: seq<bv64>, s: State, n: nat): State
    requires n <= 64 * |jump|
  {
    if n == 0 then ZERO
    else if Marked(jump, n - 1) then Sum(JumpTo(jump, s, n - 1), Steps(s, n - 1))
    else JumpTo(jump, s, n - 1)
  }

  function Jumped(jump: seq<bv64>, s: State): State {
    JumpTo(jump, s, 64 * |jump|)
  }

  lemma {:induction false} StepsLinear(a: State, b: State, k: nat)
    ensures Steps(Sum(a, b), k) == Sum(Steps(a, k), Steps(b, k))
  {
    hide Step, Sum;
    if k > 0 {
      StepsLinear(a, b, k - 1);
      StepLinear(Steps(a, k - 1), Steps(b, k - 1));
    }
  }

  lemma {:induction false} StepsAdd(s: State, i: nat, k: nat)
    ensures Steps(Steps(s, i), k) == Steps(s, i + k)
  {
    if k > 0 {
      StepsAdd(s, i, k - 1);
    }
  }

  lemma {:induction false} StepsZero(k: nat)
    ensures Steps(ZERO, k) == ZERO
  {
    hide Step;
    if k > 0 {
      StepsZero(k - 1);
      StepZero();
    }
  }

  lemma SumZero()
    ensures Sum(ZERO, ZERO) == ZERO
  {
  }

  /** A jump is linear in the state. */
  lemma {:induction false} JumpLinear(jump: seq<bv64>, a: State, b: State, n: nat)
    requires n <= 64 * |jump|
    ensures JumpTo(jump, Sum(a, b), n) == Sum(JumpTo(jump, a, n), JumpTo(jump, b, n))
  {
    hide Sum, Marked, Step;
    if n == 0 {
      SumZero();
    } else {
      JumpLinear(jump, a, b, n - 1);
      StepsLinear(a, b, n - 1);
      SumExchange(JumpTo(jump, a, n - 1), JumpTo(jump, b, n - 1), Steps(a, n - 1), Steps(b, n - 1));
    }
  }

  /** Jumping and then walking k steps is walking k steps and then jumping. */
  lemma {:induction false} JumpCommutes(jump: seq<bv64>, s: State, n: nat, k: nat)
    requires n <= 64 * |jump|
    ensures Steps(JumpTo(jump, s, n), k) == JumpTo(jump, Steps(s, k), n)
  {
    hide Step, Sum, Marked;
    if n == 0 {
      StepsZero(k);
    } else {
      JumpCommutes(jump, s, n - 1, k);
      StepsLinear(JumpTo(jump, s, n - 1), Steps(s, n - 1), k);
      StepsAdd(s, n - 1, k);
      StepsAdd(s, k, n - 1);
    }
  }

  lemma {:induction false} JumpOfZero(jump: seq<bv64>, n: nat)
    requires n <= 64 * |jump|
    ensures JumpTo(jump, ZERO, n) == ZERO
  {
    hide Marked;
    if n > 0 {
      JumpOfZero(jump, n - 1);
      StepsZero(n - 1);
    }
  }

  /** Two jumps, whatever their constants, may be taken in either order. */
  lemma {:induction false} JumpsCommute(p: seq<bv64>, q: seq<bv64>, s: State, n: nat)
    requires n <= 64 * |p|
    ensures Jumped(q, JumpTo(p, s, n)) == JumpTo(p, Jumped(q, s), n)
  {
    hide Step, Sum, Marked;
    if n == 0 {
      JumpOfZero(q, 64 * |q|);
    } else {
      JumpsCommute(p, q, s, n - 1);
      JumpLinear(q, JumpTo(p, s, n - 1), Steps(s, n - 1), 64 * |q|);
      JumpCommutes(q, s, 64 * |q|, n - 1);
    }
  }

  /** A constant with the single mark k jumps exactly k steps. */
  lemma {:induction false} SingleMark(jump: seq<bv64>, s: State, k: nat, n: nat)
    requires k < 64 * |jump| && n <= 64 * |jump|
    requires forall i: nat :: i < 64 * |jump| ==> (Marked(jump, i) <==> i == k)
    ensures JumpTo(jump, s, n) == if k < n then Steps(s, k) else ZERO
  {
    hide Marked, Step;
    if n > 0 {
      SingleMark(jump, s, k, n - 1);
      XorCancels(Steps(s, k).s0, 0);
      XorCancels(Steps(s, k).s1, 0);
    }
  }

  // ---- The generator ----

  class Generator {
    const words: array<bv64>

    ghost predicate Valid() {
      words.Length == 2
    }

    ghost function Value(): State
      reads words
      requires Valid()
    {
      State(words[0], words[1])
    }

    constructor ()
      ensures Valid() && fresh(words) && Value() == SEED
    {
      words := new bv64[2](i => if i == 0 then SEED.s0 else SEED.s1);
    }

    method Next() returns (result: bv64)
      requires Valid()
      modifies words
      ensures Value() == Step(old(Value())) && result == Output(old(Value()))
    {
      hide Xor, Rotl, Shl16, Add;
      var s0, s1 := words[0], words[1];
      result := Add(Rotl(Add(s0, s1), 24), s0);
      s1 := Xor(s1, s0);
      words[0] := Xor(Xor(Rotl(s0, 24), s1), Shl16(s1));
      words[1] := Rotl(s1, 37);
    }

    /** `xoro_jump`, for any jump constant. */
    method JumpBy(jump: seq<bv64>)
      requires Valid()
      modifies words
      ensures Value() == Jumped(jump, old(Value()))
    {
      hide Step, BitOf, Output;
      ghost var start := Value();
      var s0: bv64, s1: bv64 := 0, 0;
      for i := 0 to |jump|
        invariant Value() == Steps(start, 64 * i)
        invariant State(s0, s1) == JumpTo(jump, start, 64 * i)
      {
        for b := 0 to 64
          invariant Value() == Steps(start, 64 * i + b)
          invariant State(s0, s1) == JumpTo(jump, start, 64 * i + b)
        {
          assert (64 * i + b) / 64 == i && (64 * i + b) % 64 == b;
          if BitOf(jump[i], b) {
            s0 := Xor(s0, words[0]);
            s1 := Xor(s1, words[1]);
          }
          var _ := Next();
        }
      }
      words[0], words[1] := s0, s1;
    }

    method Jump()
      requires Valid()
      modifies words
      ensures Value() == Jumped(JUMP, old(Value()))
    {
      hide Jumped;
      JumpBy(JUMP);
    }
  }

  const JUMP: seq<bv64> := [0xdf900294d8f554a5, 0x170865df4b3201fc]

  /** A run of the generator: walks of k steps and leaps. */
  datatype Move = Walk(k: nat) | Leap

  function Apply(s: State, m: Move): State {
    match m
    case Walk(k) => Steps(s, k)
    case Leap => Jumped(JUMP, s)
  }

  function ApplyAll(s: State, ms: seq<Move>): State
    decreases |ms|
  {
    if ms == [] then s else ApplyAll(Apply(s, ms[0]), ms[1..])
  }

  function Walked(ms: seq<Move>): nat {
    if ms == [] then 0 else (if ms[0].Walk? then ms[0].k else 0) + Walked(ms[1..])
  }

  function Leaps(ms: seq<Move>): nat {
    if ms == [] then 0 else (if ms[0].Leap? then 1 else 0) + Leaps(ms[1..])
  }

  function LeapTimes(s: State, n: nat): State
    decreases n
  {
    if n == 0 then s else LeapTimes(Jumped(JUMP, s), n - 1)
  }

  lemma {:induction false} WalkThenLeaps(s: State, k: nat, n: nat)
    ensures LeapTimes(Steps(s, k), n) == Steps(LeapTimes(s, n), k)
    decreases n
  {
    hide Step;
    if n > 0 {
      JumpCommutes(JUMP, s, 64 * |JUMP|, k);
      WalkThenLeaps(Jumped(JUMP, s), k, n - 1);
    }
  }

  /** In whatever order steps and jumps are interleaved, only their totals count. */
  lemma {:induction false} OrderIrrelevant(s: State, ms: seq<Move>)
    ensures ApplyAll(s, ms) == Steps(LeapTimes(s, Leaps(ms)), Walked(ms))
    decreases |ms|
  {
    hide Step, Jumped;
    if ms != [] {
      OrderIrrelevant(Apply(s, ms[0]), ms[1..]);
      match ms[0]
      case Walk(k) =>
        WalkThenLeaps(s, k, Leaps(ms[1..]));
        StepsAdd(LeapTimes(s, Leaps(ms[1..])), k, Walked(ms[1..]));
      case Leap =>
    }
  }
}
