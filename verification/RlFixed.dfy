/** The learner's 16.16 arithmetic on 32-bit words, and why it never overflows. */
module RlFixed {
  import opened Basics

  const LEARNING_RATE: int := 0x51e
  const GAMMA: int := 0xfd70
  /** No score ever leaves this range: one hundred either way. */
  const BOUND: int := 100 * ONE

  /** The value a 32-bit signed word holds after x is stored in it. */
  function ToS32(x: int): int {
    var m := x % 0x1_0000_0000;
    if m >= 0x8000_0000 then m - 0x1_0000_0000 else m
  }

  /** Product shifted right: an arithmetic shift, so it rounds towards minus infinity. */
  function FixedMul(a: int, b: int): int {
    ToS32(a * b / ONE)
  }

  function FixedMulS32(a: int, b: int): int {
    FixedMul(a, ToS32(b * ONE))
  }

  predicate InBound(x: int) {
    -BOUND <= x <= BOUND
  }

  lemma ToS32Small(x: int)
    requires -0x8000_0000 <= x < 0x8000_0000
    ensures ToS32(x) == x
  {
  }

  /** A static score times a small factor: exact. */
  lemma FixedMulS32Exact(a: int, s: int)
    requires 0 <= a <= 6 && -2400 <= s <= 2400
    ensures FixedMulS32(a, s) == a * s
  {
    ToS32Small(s * ONE);
    assert a * (s * ONE) == (a * s) * ONE;
    assert -14400 <= a * s <= 14400 by {
      assert a == 0 || a == 1 || a == 2 || a == 3 || a == 4 || a == 5 || a == 6;
    }
    ToS32Small(a * s);
  }

  /** What a step of the episode is worth, given the value of the step after it. */
  function Current(reward: int, next: int): int {
    ToS32(reward - FixedMul(GAMMA, next))
  }

  /** The score moved towards that by the learning rate. */
  function Blend(score: int, current: int): int {
    ToS32(FixedMul(ONE - LEARNING_RATE, score) + FixedMul(LEARNING_RATE, current))
  }

  /** Within the bound nothing wraps: the 32-bit results are the plain floored quotients. */
  lemma UpdateNoOverflow(score: int, reward: int, next: int)
    requires InBound(score) && InBound(next) && 0 <= reward <= ONE
    ensures Current(reward, next) == reward - GAMMA * next / ONE
    ensures InBound(Current(reward, next))
    ensures Blend(score, Current(reward, next))
         == (ONE - LEARNING_RATE) * score / ONE + LEARNING_RATE * Current(reward, next) / ONE
  {
    ToS32Small(GAMMA * next / ONE);
    ToS32Small(reward - GAMMA * next / ONE);
    var current := Current(reward, next);
    ToS32Small((ONE - LEARNING_RATE) * score / ONE);
    ToS32Small(LEARNING_RATE * current / ONE);
    ToS32Small((ONE - LEARNING_RATE) * score / ONE + LEARNING_RATE * current / ONE);
  }

  /** The bound is inductive: it survives the update, two roundings down included. */
  lemma UpdateKeepsBound(score: int, reward: int, next: int)
    requires InBound(score) && InBound(next) && 0 <= reward <= ONE
    ensures InBound(Blend(score, Current(reward, next)))
  {
    UpdateNoOverflow(score, reward, next);
    var current := Current(reward, next);
    assert -6488000 <= current <= 6553536;
  }
}
