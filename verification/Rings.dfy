/** The ring buffer of a channel. */
module Rings {
  import opened Basics

  datatype Ring<T> = Ring(buf: seq<T>, head: nat, tail: nat, count: nat)

  ghost predicate RingOk<T>(r: Ring<T>) {
    |r.buf| >= 1 && r.head < |r.buf| && r.count <= |r.buf| && r.tail == (r.head + r.count) % |r.buf|
  }

  /** What the ring holds, oldest first. */
  ghost function Contents<T>(r: Ring<T>): (xs: seq<T>)
    requires RingOk(r)
    ensures |xs| == r.count
  {
    seq(r.count, i requires 0 <= i < r.count => r.buf[(r.head + i) % |r.buf|])
  }

  function Push<T>(r: Ring<T>, x: T): Ring<T>
    requires |r.buf| >= 1 && r.tail < |r.buf|
  {
    r.(buf := r.buf[r.tail := x], tail := (r.tail + 1) % |r.buf|, count := r.count + 1)
  }

  function Pop<T>(r: Ring<T>): Ring<T>
    requires |r.buf| >= 1 && r.count > 0
  {
    r.(head := (r.head + 1) % |r.buf|, count := r.count - 1)
  }

  lemma NextIndex(a: nat, n: nat)
    requires n >= 1
    ensures (a % n + 1) % n == (a + 1) % n
  {
    var q := a / n;
    assert a == n * q + a % n;
    if a % n + 1 < n {
      assert (a + 1) % n == a % n + 1 by {
        DivModUnique(q, a % n + 1, n);
      }
    } else {
      assert (a + 1) % n == 0 by {
        DivModUnique(q + 1, 0, n);
      }
    }
  }

  /** Within one turn of the ring, equal places are equal distances. */
  lemma PlacesDiffer(h: nat, i: nat, j: nat, n: nat)
    requires n >= 1 && h < n && i < j < n
    ensures (h + i) % n != (h + j) % n
  {
    Wraps(h + i, n);
    Wraps(h + j, n);
  }

  lemma Wraps(a: nat, n: nat)
    requires n >= 1 && a < 2 * n
    ensures a % n == if a < n then a else a - n
  {
    if a < n {
      DivModUnique(0, a, n);
    } else {
      DivModUnique(1, a - n, n);
    }
  }

  /** Pushing adds at the end and disturbs nothing. */
  lemma PushAppends<T>(r: Ring<T>, x: T)
    requires RingOk(r) && r.count < |r.buf|
    ensures r.tail < |r.buf| && RingOk(Push(r, x)) && Contents(Push(r, x)) == Contents(r) + [x]
  {
    var n, p := |r.buf|, Push(r, x);
    NextIndex(r.head + r.count, n);
    forall i | 0 <= i < r.count
      ensures Contents(p)[i] == Contents(r)[i]
    {
      PlacesDiffer(r.head, i, r.count, n);
    }
    assert Contents(p)[r.count] == x;
  }

  /** Popping takes the oldest. */
  lemma PopTakesFirst<T>(r: Ring<T>)
    requires RingOk(r) && r.count > 0
    ensures r.head < |r.buf| && RingOk(Pop(r)) && Contents(r) == [r.buf[r.head]] + Contents(Pop(r))
  {
    var n, p := |r.buf|, Pop(r);
    Wraps(r.head, n);
    NextIndex(r.head, n);
    PopTail(r.head, r.count, n);
    forall i | 0 <= i < p.count
      ensures Contents(p)[i] == Contents(r)[i + 1]
    {
      PopTail(r.head, i + 1, n);
    }
  }

  lemma PopTail(h: nat, k: nat, n: nat)
    requires n >= 1 && h < n && 1 <= k <= n
    ensures ((h + 1) % n + (k - 1)) % n == (h + k) % n
  {
    Wraps(h + 1, n);
    if h + 1 == n {
      Wraps(k - 1, n);
      Wraps(h + k, n);
    }
  }
}
