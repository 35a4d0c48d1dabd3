/** The state cache in memory: slot buffer, bitmap, hash chains and recency list. */
module RlState {
  import opened Basics
  import opened Game
  import opened RecencyMap
  import RlFixed

  datatype Slot = Slot(table: Board, scores: Scores)

  const CLEARED: Slot := Slot(EMPTY_BOARD, Scores(0, 0))

  /** The four structures as one value. */
  datatype Store = Store(bits: seq<bool>, slots: seq<Slot>, chains: seq<seq<nat>>, orders: seq<nat>)

  /** The chain a board hashes to. */
  function Bucket(hash: Board -> nat, n: nat, b: Board): (h: nat)
    requires n > 0
    ensures h < n
  {
    hash(b) % n
  }

  ghost predicate Sized(n: nat, st: Store) {
    |st.bits| == n && |st.slots| == n && |st.chains| == n
    && (forall i :: 0 <= i < |st.orders| ==> st.orders[i] < n)
    && (forall h, k :: 0 <= h < n && 0 <= k < |st.chains[h]| ==> st.chains[h][k] < n)
  }

  /** A slot's bit is set iff it is on the recency list iff it is in its board's chain;
      no slot is anywhere twice; no two live slots hold the same board. */
  ghost predicate Agree(hash: Board -> nat, n: nat, st: Store) {
    n >= 2 && Sized(n, st)
    && Distinct(st.orders) && |st.orders| <= n - 1
    && (forall i :: 0 <= i < n ==> (st.bits[i] <==> i in st.orders))
    && (forall h :: 0 <= h < n ==> Distinct(st.chains[h]))
    && (forall h, i :: 0 <= h < n && 0 <= i < n ==>
          (i in st.chains[h] <==> st.bits[i] && h == Bucket(hash, n, st.slots[i].table)))
    && (forall i, j :: 0 <= i < j < |st.orders| ==> st.slots[st.orders[i]].table != st.slots[st.orders[j]].table)
  }

  // ---- The map the structures stand for ----

  ghost function OrderOf(st: Store): seq<Board>
    requires forall i :: 0 <= i < |st.orders| ==> st.orders[i] < |st.slots|
  {
    seq(|st.orders|, i requires 0 <= i < |st.orders| => st.slots[st.orders[i]].table)
  }

  ghost function ScoresOf(st: Store): seq<Scores>
    requires forall i :: 0 <= i < |st.orders| ==> st.orders[i] < |st.slots|
  {
    seq(|st.orders|, i requires 0 <= i < |st.orders| => st.slots[st.orders[i]].scores)
  }

  /** The map that takes each of the first k keys to its value. */
  ghost function Zip(keys: seq<Board>, values: seq<Scores>, k: nat): map<Board, Scores>
    requires k <= |keys| == |values|
  {
    if k == 0 then map[] else Zip(keys, values, k - 1)[keys[k - 1] := values[k - 1]]
  }

  ghost function Abs(st: Store): Cache
    requires forall i :: 0 <= i < |st.orders| ==> st.orders[i] < |st.slots|
  {
    Cache(OrderOf(st), Zip(OrderOf(st), ScoresOf(st), |st.orders|))
  }

  lemma {:induction false} ZipFacts(keys: seq<Board>, values: seq<Scores>, k: nat)
    requires k <= |keys| == |values| && Distinct(keys)
    ensures forall i :: 0 <= i < k ==> keys[i] in Zip(keys, values, k) && Zip(keys, values, k)[keys[i]] == values[i]
    ensures forall b :: b in Zip(keys, values, k) ==> b in keys
  {
    if k > 0 {
      ZipFacts(keys, values, k - 1);
    }
  }

  /** c lists the same boards with the same scores. */
  ghost predicate Stands(st: Store, c: Cache)
    requires forall i :: 0 <= i < |st.orders| ==> st.orders[i] < |st.slots|
  {
    |c.order| == |st.orders|
    && (forall i :: 0 <= i < |st.orders| ==> c.order[i] == st.slots[st.orders[i]].table)
    && (forall i :: 0 <= i < |st.orders| ==>
          st.slots[st.orders[i]].table in c.scores
          && c.scores[st.slots[st.orders[i]].table] == st.slots[st.orders[i]].scores)
    && (forall b :: b in c.scores ==> b in c.order)
  }

  lemma AbsStands(hash: Board -> nat, n: nat, st: Store)
    requires Agree(hash, n, st)
    ensures Stands(st, Abs(st)) && Valid(n, Abs(st))
  {
    assert Distinct(OrderOf(st));
    ZipFacts(OrderOf(st), ScoresOf(st), |st.orders|);
  }

  lemma StandsIsAbs(hash: Board -> nat, n: nat, st: Store, c: Cache)
    requires Agree(hash, n, st) && Stands(st, c)
    ensures c == Abs(st)
  {
    AbsStands(hash, n, st);
    var a := Abs(st);
    assert c.order == a.order;
    forall b | b in c.scores || b in a.scores
      ensures b in c.scores && b in a.scores && c.scores[b] == a.scores[b]
    {
      assert b in c.order;
      var i :| 0 <= i < |c.order| && c.order[i] == b;
    }
    assert c.scores == a.scores;
  }

  // ---- Single updates ----

  /** A hit: the slot goes to the tail. */
  function Touch(st: Store, k: nat): Store
    requires k < |st.orders|
  {
    st.(orders := ToTail(st.orders, k))
  }

  lemma TouchRefines(hash: Board -> nat, n: nat, st: Store, k: nat)
    requires Agree(hash, n, st) && k < |st.orders|
    ensures Agree(hash, n, Touch(st, k))
    ensures Abs(Touch(st, k)) == Abs(st).(order := ToTail(Abs(st).order, k))
  {
    AbsStands(hash, n, st);
    TouchAgrees(hash, n, st, k);
    TouchStands(st, Abs(st), k);
    hide Agree, Stands, Abs;
    StandsIsAbs(hash, n, Touch(st, k), Abs(st).(order := ToTail(Abs(st).order, k)));
  }

  lemma TouchStands(st: Store, a: Cache, k: nat)
    requires k < |st.orders| && (forall i :: 0 <= i < |st.orders| ==> st.orders[i] < |st.slots|)
    requires Stands(st, a) && Distinct(a.order)
    ensures forall i :: 0 <= i < |st.orders| ==> Touch(st, k).orders[i] < |st.slots|
    ensures Stands(Touch(st, k), a.(order := ToTail(a.order, k)))
  {
    hide ToTail;
    ToTailIndex(st.orders, k);
    ToTailIndex(a.order, k);
    ToTailFacts(a.order, k);
  }

  lemma TouchAgrees(hash: Board -> nat, n: nat, st: Store, k: nat)
    requires Agree(hash, n, st) && k < |st.orders|
    ensures Agree(hash, n, Touch(st, k))
  {
    hide ToTail, Bucket, Distinct;
    var t, len := Touch(st, k), |st.orders|;
    ToTailIndex(st.orders, k);
    ToTailFacts(st.orders, k);
    forall i, j | 0 <= i < j < len
      ensures t.slots[t.orders[i]].table != t.slots[t.orders[j]].table
    {
      assert CameFrom(k, len, i) != CameFrom(k, len, j);
    }
  }

  /** A new board in a free slot, at the head of the list. */
  function Insert(hash: Board -> nat, n: nat, st: Store, pos: nat, slot: Slot): Store
    requires n > 0 && pos < |st.bits| && pos < |st.slots| && |st.chains| == n
  {
    var h := Bucket(hash, n, slot.table);
    Store(st.bits[pos := true], st.slots[pos := slot], st.chains[h := [pos] + st.chains[h]], [pos] + st.orders)
  }

  lemma InsertAgrees(hash: Board -> nat, n: nat, st: Store, pos: nat, slot: Slot)
    requires Agree(hash, n, st) && |st.orders| < n - 1 && pos < n && !st.bits[pos]
    requires forall i :: 0 <= i < |st.orders| ==> st.slots[st.orders[i]].table != slot.table
    ensures Agree(hash, n, Insert(hash, n, st, pos, slot))
  {
    hide Bucket;
    var t := Insert(hash, n, st, pos, slot);
    var h0 := Bucket(hash, n, slot.table);
    forall h, i | 0 <= h < n && 0 <= i < n
      ensures i in t.chains[h] <==> t.bits[i] && h == Bucket(hash, n, t.slots[i].table)
    {
      assert i in st.chains[h] <==> st.bits[i] && h == Bucket(hash, n, st.slots[i].table);
    }
    assert pos !in st.chains[h0];
    assert pos !in st.orders;
  }

  lemma InsertRefines(hash: Board -> nat, n: nat, st: Store, pos: nat, slot: Slot)
    requires Agree(hash, n, st) && |st.orders| < n - 1 && pos < n && !st.bits[pos]
    requires slot.table !in Abs(st).order
    ensures Agree(hash, n, Insert(hash, n, st, pos, slot))
    ensures Abs(Insert(hash, n, st, pos, slot))
         == Cache([slot.table] + Abs(st).order, Abs(st).scores[slot.table := slot.scores])
  {
    var t, a := Insert(hash, n, st, pos, slot), Abs(st);
    AbsStands(hash, n, st);
    forall i | 0 <= i < |st.orders|
      ensures st.slots[st.orders[i]].table != slot.table
    {
      assert a.order[i] in a.order;
    }
    InsertAgrees(hash, n, st, pos, slot);
    assert pos !in st.orders;
    var c := Cache([slot.table] + a.order, a.scores[slot.table := slot.scores]);
    assert Stands(t, c);
    StandsIsAbs(hash, n, t, c);
  }

  function Unlink(xs: seq<nat>, x: nat): seq<nat> {
    if Position(xs, x) < |xs| then RemoveAt(xs, Position(xs, x)) else xs
  }

  lemma UnlinkedFacts(xs: seq<nat>, x: nat)
    requires Distinct(xs)
    ensures Distinct(Unlink(xs, x))
    ensures forall y :: y in Unlink(xs, x) <==> y in xs && y != x
  {
    if Position(xs, x) < |xs| {
      RemoveAtFacts(xs, Position(xs, x));
    }
  }

  /** One victim: the head of the list leaves list, chain, slot and bitmap. */
  function DropHead(hash: Board -> nat, n: nat, st: Store): Store
    requires n > 0 && |st.orders| > 0 && st.orders[0] < |st.bits| && st.orders[0] < |st.slots| && |st.chains| == n
  {
    var pos := st.orders[0];
    var h := Bucket(hash, n, st.slots[pos].table);
    Store(st.bits[pos := false], st.slots[pos := CLEARED], st.chains[h := Unlink(st.chains[h], pos)], st.orders[1..])
  }

  lemma DropHeadAgrees(hash: Board -> nat, n: nat, st: Store)
    requires Agree(hash, n, st) && |st.orders| > 0
    ensures Agree(hash, n, DropHead(hash, n, st))
  {
    hide Bucket;
    var t := DropHead(hash, n, st);
    var pos := st.orders[0];
    UnlinkedFacts(st.chains[Bucket(hash, n, st.slots[pos].table)], pos);
    assert st.orders == [pos] + t.orders;
    DropHeadChains(hash, n, st);
  }

  lemma DropHeadChains(hash: Board -> nat, n: nat, st: Store)
    requires Agree(hash, n, st) && |st.orders| > 0
    ensures var t := DropHead(hash, n, st);
            (forall h, i :: 0 <= h < n && 0 <= i < n ==>
               (i in t.chains[h] <==> t.bits[i] && h == Bucket(hash, n, t.slots[i].table)))
            && (forall h, k :: 0 <= h < n && 0 <= k < |t.chains[h]| ==> t.chains[h][k] < n)
  {
    hide Bucket, Unlink;
    var t, pos := DropHead(hash, n, st), st.orders[0];
    var h0 := Bucket(hash, n, st.slots[pos].table);
    UnlinkedFacts(st.chains[h0], pos);
    forall h, i | 0 <= h < n && 0 <= i < n
      ensures i in t.chains[h] <==> t.bits[i] && h == Bucket(hash, n, t.slots[i].table)
    {
      assert i in st.chains[h] <==> st.bits[i] && h == Bucket(hash, n, st.slots[i].table);
    }
    forall h, k | 0 <= h < n && 0 <= k < |t.chains[h]|
      ensures t.chains[h][k] < n
    {
      assert t.chains[h][k] in t.chains[h];
      assert t.chains[h][k] in st.chains[h];
    }
  }

  lemma DropHeadRefines(hash: Board -> nat, n: nat, st: Store)
    requires Agree(hash, n, st) && |st.orders| > 0
    ensures Agree(hash, n, DropHead(hash, n, st)) && |Abs(st).order| == |st.orders|
    ensures Abs(DropHead(hash, n, st)) == Cache(Abs(st).order[1..], Abs(st).scores - {Abs(st).order[0]})
  {
    AbsStands(hash, n, st);
    DropHeadAgrees(hash, n, st);
    DropHeadStands(hash, n, st, Abs(st));
    hide Agree, Stands, Abs, DropHead;
    StandsIsAbs(hash, n, DropHead(hash, n, st), Cache(Abs(st).order[1..], Abs(st).scores - {Abs(st).order[0]}));
  }

  lemma DropHeadStands(hash: Board -> nat, n: nat, st: Store, a: Cache)
    requires Agree(hash, n, st) && |st.orders| > 0 && Stands(st, a)
    ensures Agree(hash, n, DropHead(hash, n, st))
    ensures Stands(DropHead(hash, n, st), Cache(a.order[1..], a.scores - {a.order[0]}))
  {
    hide Agree, Bucket, Unlink;
    DropHeadAgrees(hash, n, st);
    HeadIsAlone(hash, n, st);
    TailKeys(a);
    var t, c := DropHead(hash, n, st), Cache(a.order[1..], a.scores - {a.order[0]});
    forall i | 0 <= i < |t.orders|
      ensures c.order[i] == t.slots[t.orders[i]].table
      ensures t.slots[t.orders[i]].table in c.scores
      ensures c.scores[t.slots[t.orders[i]].table] == t.slots[t.orders[i]].scores
    {
      assert t.orders[i] == st.orders[i + 1] && t.slots[t.orders[i]] == st.slots[st.orders[i + 1]];
      assert c.order[i] == a.order[i + 1];
    }
  }

  lemma TailKeys(a: Cache)
    requires |a.order| > 0 && forall b :: b in a.scores ==> b in a.order
    ensures forall b :: b in a.scores - {a.order[0]} ==> b in a.order[1..]
  {
    assert a.order == [a.order[0]] + a.order[1..];
  }

  lemma HeadIsAlone(hash: Board -> nat, n: nat, st: Store)
    requires Agree(hash, n, st) && |st.orders| > 0
    ensures n > 0 && |st.slots| == n && |st.bits| == n && |st.chains| == n && st.orders[0] < n
    ensures forall i :: 1 <= i < |st.orders| ==>
              st.orders[i] < n && st.orders[i] != st.orders[0]
              && st.slots[st.orders[i]].table != st.slots[st.orders[0]].table
  {
  }

  /** Overwriting the scores of a live slot. */
  function Rescore(st: Store, pos: nat, scores: Scores): Store
    requires pos < |st.slots|
  {
    st.(slots := st.slots[pos := Slot(st.slots[pos].table, scores)])
  }

  lemma RescoreRefines(hash: Board -> nat, n: nat, st: Store, pos: nat, scores: Scores)
    requires Agree(hash, n, st) && pos < n && st.bits[pos]
    ensures var b := st.slots[pos].table;
            Agree(hash, n, Rescore(st, pos, scores)) && b in Abs(st).scores
            && Abs(Rescore(st, pos, scores)) == Abs(st).(scores := Abs(st).scores[b := scores])
  {
    AbsStands(hash, n, st);
    RescoreAgrees(hash, n, st, pos, scores);
    RescoreStands(hash, n, st, Abs(st), pos, scores);
    hide Agree, Stands, Abs, Rescore;
    StandsIsAbs(hash, n, Rescore(st, pos, scores), Abs(st).(scores := Abs(st).scores[st.slots[pos].table := scores]));
  }

  lemma RescoreStands(hash: Board -> nat, n: nat, st: Store, a: Cache, pos: nat, scores: Scores)
    requires Agree(hash, n, st) && pos < n && st.bits[pos] && Stands(st, a)
    ensures st.slots[pos].table in a.scores
    ensures Stands(Rescore(st, pos, scores), a.(scores := a.scores[st.slots[pos].table := scores]))
  {
    var k := LiveAt(hash, n, st, pos);
    hide Agree;
    assert a.order[k] == st.slots[pos].table && a.order[k] in a.order;
  }

  /** The place on the list of a slot whose bit is set, and nobody else's board is its board. */
  lemma LiveAt(hash: Board -> nat, n: nat, st: Store, pos: nat) returns (k: nat)
    requires Agree(hash, n, st) && pos < n && st.bits[pos]
    ensures k < |st.orders| && st.orders[k] == pos && pos < |st.slots|
    ensures forall i :: 0 <= i < |st.orders| ==> st.orders[i] < |st.slots|
    ensures forall i :: 0 <= i < |st.orders| && i != k ==>
              st.orders[i] != pos && st.slots[st.orders[i]].table != st.slots[pos].table
  {
    assert pos in st.orders;
    k :| 0 <= k < |st.orders| && st.orders[k] == pos;
  }

  lemma RescoreAgrees(hash: Board -> nat, n: nat, st: Store, pos: nat, scores: Scores)
    requires Agree(hash, n, st) && pos < n
    ensures Agree(hash, n, Rescore(st, pos, scores))
  {
    hide Bucket;
    var t := Rescore(st, pos, scores);
    assert forall i :: 0 <= i < n ==> t.slots[i].table == st.slots[i].table;
    forall h, i | 0 <= h < n && 0 <= i < n
      ensures i in t.chains[h] <==> t.bits[i] && h == Bucket(hash, n, t.slots[i].table)
    {
      assert i in st.chains[h] <==> st.bits[i] && h == Bucket(hash, n, st.slots[i].table);
    }
  }

  /** A board is held iff a slot of its chain holds it. */
  lemma ChainHolds(hash: Board -> nat, n: nat, st: Store, b: Board)
    requires Agree(hash, n, st)
    ensures b in Abs(st).order <==>
            exists k :: 0 <= k < |st.chains[Bucket(hash, n, b)]|
                        && st.slots[st.chains[Bucket(hash, n, b)][k]].table == b
  {
    AbsStands(hash, n, st);
    var h := Bucket(hash, n, b);
    if b in Abs(st).order {
      var i :| 0 <= i < |st.orders| && Abs(st).order[i] == b;
      assert st.orders[i] in st.orders && st.orders[i] in st.chains[h];
    }
    if k :| 0 <= k < |st.chains[h]| && st.slots[st.chains[h][k]].table == b {
      var pos := st.chains[h][k];
      assert pos in st.chains[h] && st.bits[pos];
      var i :| 0 <= i < |st.orders| && st.orders[i] == pos;
      assert Abs(st).order[i] == b;
    }
  }

  // ---- Counting bits ----

  function WeightTo(bits: seq<bool>, k: nat): nat
    requires k <= |bits|
  {
    if k == 0 then 0 else WeightTo(bits, k - 1) + (if bits[k - 1] then 1 else 0)
  }

  lemma {:induction false} WeightIsCardinality(bits: seq<bool>, k: nat)
    requires k <= |bits|
    ensures WeightTo(bits, k) == |set i: nat | i < k && bits[i]|
  {
    if k > 0 {
      WeightIsCardinality(bits, k - 1);
      var before := set i: nat | i < k - 1 && bits[i];
      var after := set i: nat | i < k && bits[i];
      assert after == if bits[k - 1] then before + {k - 1} else before;
    }
  }

  function Elements(xs: seq<nat>): set<nat> {
    set x | x in xs
  }

  lemma {:induction false} DistinctCardinality(xs: seq<nat>)
    requires Distinct(xs)
    ensures |Elements(xs)| == |xs|
  {
    if xs != [] {
      var init, last := xs[..|xs| - 1], xs[|xs| - 1];
      assert Distinct(init);
      DistinctCardinality(init);
      assert last !in init;
      assert xs == init + [last];
      assert Elements(xs) == Elements(init) + {last};
    }
  }

  /** The bitmap has as many ones as the list has entries. */
  lemma WeightIsLength(hash: Board -> nat, n: nat, st: Store)
    requires Agree(hash, n, st)
    ensures WeightTo(st.bits, n) == |st.orders|
  {
    WeightIsCardinality(st.bits, n);
    DistinctCardinality(st.orders);
    assert (set i: nat | i < n && st.bits[i]) == Elements(st.orders);
  }

  // ---- The structures in memory ----

  class StateCache {
    const n: nat
    const hash: Board -> nat
    const stMap: array<bool>
    const buff: array<Slot>
    const states: array<seq<nat>>
    var orders: seq<nat>

    ghost function Contents(): Store
      reads this, stMap, buff, states
    {
      Store(stMap[..], buff[..], states[..], orders)
    }

    ghost predicate Ok()
      reads this, stMap, buff, states
    {
      n >= 2 && stMap.Length == n && buff.Length == n && states.Length == n && Agree(hash, n, Contents())
    }

    /** The map and recency list this memory stands for. */
    ghost function Value(): (c: Cache)
      requires Ok()
      reads this, stMap, buff, states
      ensures Valid(n, c)
    {
      AbsStands(hash, n, Contents());
      Abs(Contents())
    }

    /** A live slot holds its board's scores. */
    lemma SlotScore(slot: nat)
      requires Ok() && slot < n && stMap[slot]
      ensures buff[slot].table in Value().scores && Value().scores[buff[slot].table] == buff[slot].scores
    {
      AbsStands(hash, n, Contents());
      var k := LiveAt(hash, n, Contents(), slot);
    }

    constructor (n: nat, hash: Board -> nat)
      requires n >= 2
      ensures Ok() && Value() == Cache([], map[]) && this.n == n
      ensures fresh(stMap) && fresh(buff) && fresh(states)
    {
      this.n, this.hash := n, hash;
      stMap := new bool[n](_ => false);
      buff := new Slot[n](_ => CLEARED);
      states := new seq<nat>[n](_ => []);
      orders := [];
    }

    method BitmapWeight() returns (w: nat)
      requires Ok()
      ensures w == |orders|
    {
      w := 0;
      for i := 0 to n
        invariant w == WeightTo(stMap[..], i)
      {
        if stMap[i] {
          w := w + 1;
        }
      }
      WeightIsLength(hash, n, Contents());
    }

    method FindFirstZeroBit() returns (pos: nat)
      requires Ok()
      ensures pos < n && !stMap[pos] && forall i :: 0 <= i < pos ==> stMap[i]
    {
      pos := 0;
      while pos < n && stMap[pos]
        invariant pos <= n && forall i :: 0 <= i < pos ==> stMap[i]
      {
        pos := pos + 1;
      }
      if pos == n {
        AllSetIsFull(hash, n, Contents());
        assert false;
      }
    }

    /** One victim of an eviction. */
    method DropFirst()
      requires Ok() && |orders| > 0
      modifies this`orders, stMap, buff, states
      ensures Ok() && |old(Value()).order| == old(|orders|) && |orders| == old(|orders|) - 1
      ensures Value() == Cache(old(Value()).order[1..], old(Value()).scores - {old(Value()).order[0]})
    {
      ghost var st := Contents();
      DropHeadRefines(hash, n, st);
      var pos := orders[0];
      var h := Bucket(hash, n, buff[pos].table);
      states[h] := Unlink(states[h], pos);
      orders := orders[1..];
      buff[pos] := CLEARED;
      stMap[pos] := false;
      assert Contents() == DropHead(hash, n, st);
    }

    lemma LengthsAgree()
      requires Ok()
      ensures |Value().order| == |orders|
    {
    }

    /** `clean_state`: three fifths of the slots go, from the front of the list. */
    method CleanState()
      requires Ok()
      modifies this`orders, stMap, buff, states
      ensures Ok() && Value() == Evict(n, old(Value()))
    {
      hide *;
      ghost var c := Value();
      LengthsAgree();
      WithoutNone(c);
      var i := 0;
      while i < CleanCount(n) && orders != []
        invariant 0 <= i <= CleanCount(n) && i <= |c.order| && Ok() && |orders| == |c.order| - i
        invariant Value() == RecencyMap.Without(c, i)
      {
        DropFirst();
        WithoutOneMore(c, i);
        i := i + 1;
      }
      EvictIs(n, c, i);
    }

    /** `find_rl_state`: the slot of the board, new or not. */
    method FindState(b: Board) returns (slot: nat)
      requires Ok()
      modifies this`orders, stMap, buff, states
      ensures Ok() && Value() == Find(n, old(Value()), b)
      ensures slot < n && stMap[slot] && buff[slot].table == b
    {
      hide Agree, Abs, InitialScores, Room;
      var found;
      found, slot := Search(b);
      if found {
        MoveToTail(slot);
        return;
      }
      ghost var c := Value();
      MakeRoom();
      RoomSubset(n, c);
      slot := AddState(b);
    }

    /** Evict when only one slot is free. */
    method MakeRoom()
      requires Ok()
      modifies this`orders, stMap, buff, states
      ensures Ok() && Value() == Room(n, old(Value())) && |orders| < n - 1
    {
      hide Agree, Abs, Evict;
      LengthsAgree();
      RoomHasRoom(n, Value());
      var weight := BitmapWeight();
      if weight >= n - 1 {
        CleanState();
      }
      LengthsAgree();
    }

    /** The walk along the chain of b. */
    method Search(b: Board) returns (found: bool, slot: nat)
      requires Ok()
      ensures found <==> b in Value().order
      ensures found ==> slot < n && stMap[slot] && buff[slot].table == b
    {
      var h := Bucket(hash, n, b);
      ChainHolds(hash, n, Contents(), b);
      slot := 0;
      for k := 0 to |states[h]|
        invariant forall j :: 0 <= j < k ==> buff[states[h][j]].table != b
      {
        slot := states[h][k];
        assert slot in states[h];
        if buff[slot].table == b {
          return true, slot;
        }
      }
      return false, 0;
    }

    method MoveToTail(slot: nat)
      requires Ok() && slot < n && stMap[slot]
      modifies this`orders
      ensures Ok() && buff[slot].table in old(Value()).order
      ensures Value() == Find(n, old(Value()), buff[slot].table)
    {
      ghost var st := Contents();
      ghost var k := LiveAt(hash, n, st, slot);
      AbsStands(hash, n, st);
      assert Abs(st).order[k] == buff[slot].table;
      TouchRefines(hash, n, st, k);
      PositionOf(orders, k);
      PositionOf(Abs(st).order, k);
      orders := ToTail(orders, Position(orders, slot));
      assert Contents() == Touch(st, k);
    }

    /** A free slot for a board that is not held. */
    method AddState(b: Board) returns (slot: nat)
      requires Ok() && |orders| < n - 1 && b !in Value().order
      modifies this`orders, stMap, buff, states
      ensures Ok() && slot < n && stMap[slot] && buff[slot].table == b
      ensures Value() == Cache([b] + old(Value()).order, old(Value()).scores[b := InitialScores(b)])
    {
      ghost var st := Contents();
      slot := FindFirstZeroBit();
      var o := GetScore(b, O);
      var x := GetScore(b, X);
      ScoreFacts(b, O);
      ScoreFacts(b, X);
      RlFixed.FixedMulS32Exact(INITIAL_MULTIPLIER, o);
      RlFixed.FixedMulS32Exact(INITIAL_MULTIPLIER, x);
      var s := Slot(b, Scores(RlFixed.FixedMulS32(INITIAL_MULTIPLIER, o), RlFixed.FixedMulS32(INITIAL_MULTIPLIER, x)));
      InsertRefines(hash, n, st, slot, s);
      stMap[slot] := true;
      buff[slot] := s;
      orders := [slot] + orders;
      var h := Bucket(hash, n, b);
      states[h] := [slot] + states[h];
      assert Contents() == Insert(hash, n, st, slot, s);
    }

    /** Writing one side's score through the pointer a lookup returned. */
    method WriteScore(slot: nat, p: Player, v: int)
      requires Ok() && slot < n && stMap[slot]
      modifies buff
      ensures Ok() && buff[slot].table == old(buff[slot].table) && buff[slot].table in old(Value()).scores
      ensures Value() == Put(old(Value()), buff[slot].table, p, v)
    {
      ghost var st := Contents();
      var s := buff[slot];
      ghost var k := LiveAt(hash, n, st, slot);
      AbsStands(hash, n, st);
      RescoreRefines(hash, n, st, slot, WithScore(s.scores, p, v));
      buff[slot] := s.(scores := WithScore(s.scores, p, v));
      assert Contents() == Rescore(st, slot, WithScore(s.scores, p, v));
    }
  }

  lemma AllSetIsFull(hash: Board -> nat, n: nat, st: Store)
    requires Agree(hash, n, st)
    ensures exists i :: 0 <= i < n && !st.bits[i]
  {
    WeightIsLength(hash, n, st);
    if forall i :: 0 <= i < n ==> st.bits[i] {
      AllOnes(st.bits, n);
      assert false;
    }
  }

  lemma {:induction false} AllOnes(bits: seq<bool>, k: nat)
    requires k <= |bits| && forall i :: 0 <= i < k ==> bits[i]
    ensures WeightTo(bits, k) == k
  {
    if k > 0 {
      AllOnes(bits, k - 1);
    }
  }

  lemma PositionOf<T>(xs: seq<T>, k: nat)
    requires k < |xs| && Distinct(xs)
    ensures Position(xs, xs[k]) == k
  {
  }
}
