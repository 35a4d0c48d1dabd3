/** The learner's state cache as its callers see it: a map from boards to scores with a
    recency list, no slots and no hashing. */
module RecencyMap {
  import opened Basics
  import opened Game

  datatype Scores = Scores(o: int, x: int)

  function ScoreOf(s: Scores, p: Player): int {
    if p == O then s.o else s.x
  }

  function WithScore(s: Scores, p: Player, v: int): Scores {
    if p == O then s.(o := v) else s.(x := v)
  }

  /** `order` lists the boards held, next victim first. */
  datatype Cache = Cache(order: seq<Board>, scores: map<Board, Scores>)

  /** Capacity n of the slot buffer; an eviction takes three fifths of it. */
  function CleanCount(n: nat): nat {
    n * 3 / 5
  }

  ghost predicate Valid(n: nat, c: Cache) {
    Distinct(c.order) && |c.order| <= n - 1
    && forall b :: b in c.scores <==> b in c.order
  }

  /** Position of x, or the length when it is not there. */
  function Position<T(==)>(xs: seq<T>, x: T): (k: nat)
    ensures k <= |xs|
    ensures k < |xs| ==> xs[k] == x
    ensures forall i :: 0 <= i < k ==> xs[i] != x
    ensures x in xs <==> k < |xs|
  {
    if xs == [] then 0 else if xs[0] == x then 0 else 1 + Position(xs[1..], x)
  }

  function RemoveAt<T>(xs: seq<T>, k: nat): seq<T>
    requires k < |xs|
  {
    xs[..k] + xs[k + 1..]
  }

  function ToTail<T>(xs: seq<T>, k: nat): seq<T>
    requires k < |xs|
  {
    RemoveAt(xs, k) + [xs[k]]
  }

  /** Six 65536ths. */
  const INITIAL_MULTIPLIER: int := 6

  /** What a board is worth before anything is learnt about it. */
  function InitialScores(b: Board): Scores {
    Scores(INITIAL_MULTIPLIER * Score(b, O), INITIAL_MULTIPLIER * Score(b, X))
  }

  /** Each side starts from six times its own static score. */
  lemma InitialPerSide(b: Board, p: Player)
    ensures ScoreOf(InitialScores(b), p) == 6 * Score(b, p)
    ensures ScoreOf(InitialScores(b), p) == -ScoreOf(InitialScores(b), Other(p))
  {
    hide Score;
    ScoreFacts(b, p);
  }

  function SetOf(xs: seq<Board>): set<Board> {
    set b | b in xs
  }

  /** The cache without its first k boards. */
  function Without(c: Cache, k: nat): Cache
    requires k <= |c.order|
  {
    Cache(c.order[k..], c.scores - SetOf(c.order[..k]))
  }

  function Evict(n: nat, c: Cache): Cache {
    Without(c, if CleanCount(n) <= |c.order| then CleanCount(n) else |c.order|)
  }

  lemma WithoutNone(c: Cache)
    ensures Without(c, 0) == c
  {
    assert SetOf(c.order[..0]) == {};
  }

  lemma EvictIs(n: nat, c: Cache, k: nat)
    requires k <= |c.order| && k <= CleanCount(n) && (k == |c.order| || k == CleanCount(n))
    ensures Evict(n, c) == Without(c, k)
  {
  }

  lemma WithoutOneMore(c: Cache, k: nat)
    requires k < |c.order|
    ensures Without(c, k + 1) == Cache(Without(c, k).order[1..], Without(c, k).scores - {Without(c, k).order[0]})
  {
    assert c.order[..k + 1] == c.order[..k] + [c.order[k]];
    assert SetOf(c.order[..k + 1]) == SetOf(c.order[..k]) + {c.order[k]};
  }

  /** The cache after the eviction that a miss may need. */
  function Room(n: nat, c: Cache): Cache {
    if |c.order| >= n - 1 then Evict(n, c) else c
  }

  /** `find_rl_state`: a hit moves the board to the tail; a miss makes room, then inserts the
      board at the head with its initial scores. */
  function Find(n: nat, c: Cache, b: Board): Cache {
    if b in c.order then c.(order := ToTail(c.order, Position(c.order, b)))
    else
      var r := Room(n, c);
      Cache([b] + r.order, r.scores[b := InitialScores(b)])
  }

  /** Writing through the scores a lookup returned. */
  function Put(c: Cache, b: Board, p: Player, v: int): Cache
    requires b in c.scores
  {
    c.(scores := c.scores[b := WithScore(c.scores[b], p, v)])
  }

  // ---- Shape ----

  /** Where entry i of `ToTail(xs, k)` came from. */
  function CameFrom(k: nat, len: nat, i: nat): nat {
    if i == len - 1 then k else if i < k then i else i + 1
  }

  lemma ToTailIndex<T>(xs: seq<T>, k: nat)
    requires k < |xs|
    ensures |ToTail(xs, k)| == |xs|
    ensures forall i :: 0 <= i < |xs| ==> CameFrom(k, |xs|, i) < |xs| && ToTail(xs, k)[i] == xs[CameFrom(k, |xs|, i)]
  {
  }

  lemma ToTailFacts<T>(xs: seq<T>, k: nat)
    requires k < |xs| && Distinct(xs)
    ensures Distinct(ToTail(xs, k)) && |ToTail(xs, k)| == |xs|
    ensures forall x :: x in ToTail(xs, k) <==> x in xs
  {
    var ys := ToTail(xs, k);
    ToTailIndex(xs, k);
    forall x | x in xs
      ensures x in ys
    {
      var i :| 0 <= i < |xs| && xs[i] == x;
      assert ys[if i < k then i else if i == k then |xs| - 1 else i - 1] == x;
    }
    forall i, j | 0 <= i < j < |ys|
      ensures ys[i] != ys[j]
    {
      assert CameFrom(k, |xs|, i) != CameFrom(k, |xs|, j);
    }
  }

  lemma RemoveAtFacts<T>(xs: seq<T>, k: nat)
    requires k < |xs| && Distinct(xs)
    ensures Distinct(RemoveAt(xs, k)) && |RemoveAt(xs, k)| == |xs| - 1
    ensures forall x :: x in RemoveAt(xs, k) <==> x in xs && x != xs[k]
  {
    var ys := RemoveAt(xs, k);
    forall x | x in xs && x != xs[k]
      ensures x in ys
    {
      var i :| 0 <= i < |xs| && xs[i] == x;
      assert ys[if i < k then i else i - 1] == x;
    }
    forall i | 0 <= i < |ys|
      ensures ys[i] == xs[if i < k then i else i + 1]
    {
    }
    forall x | x in ys
      ensures x in xs && x != xs[k]
    {
      var i :| 0 <= i < |ys| && ys[i] == x;
      assert ys[i] == xs[if i < k then i else i + 1];
    }
  }

  lemma EvictValid(n: nat, c: Cache)
    requires Valid(n, c)
    ensures Valid(n, Evict(n, c))
  {
    var k := if CleanCount(n) <= |c.order| then CleanCount(n) else |c.order|;
    assert c.order == c.order[..k] + c.order[k..];
  }

  /** There is always a free slot left after a lookup: the capacity is never reached. */
  lemma FindValid(n: nat, c: Cache, b: Board)
    requires n >= 2 && Valid(n, c)
    ensures Valid(n, Find(n, c, b)) && b in Find(n, c, b).scores
  {
    if b in c.order {
      ToTailFacts(c.order, Position(c.order, b));
    } else {
      EvictValid(n, c);
      RoomHasRoom(n, c);
    }
  }

  lemma RoomHasRoom(n: nat, c: Cache)
    requires n >= 2 && |c.order| <= n - 1
    ensures |Room(n, c).order| < n - 1
  {
    assert CleanCount(n) >= 1;
  }

  lemma RoomSubset(n: nat, c: Cache)
    ensures forall b :: b in Room(n, c).order ==> b in c.order
  {
  }

  // ---- A map ----

  /** A hit returns what was last written for the board; a miss returns the initial scores and
      leaves every surviving entry as it was. */
  lemma FindIsLookup(n: nat, c: Cache, b: Board)
    requires n >= 2 && Valid(n, c)
    ensures b in c.scores ==> Find(n, c, b).scores == c.scores
    ensures b !in c.scores ==> b in Find(n, c, b).scores && Find(n, c, b).scores[b] == InitialScores(b)
    ensures forall d :: d in Find(n, c, b).scores && d != b ==> d in c.scores && Find(n, c, b).scores[d] == c.scores[d]
    ensures |c.order| < n - 1 || b in c.scores ==> forall d :: d in c.scores ==> d in Find(n, c, b).scores
  {
  }

  lemma PutIsWrite(n: nat, c: Cache, b: Board, p: Player, v: int)
    requires Valid(n, c) && b in c.scores
    ensures Valid(n, Put(c, b, p, v)) && Put(c, b, p, v).order == c.order
    ensures ScoreOf(Put(c, b, p, v).scores[b], p) == v
    ensures ScoreOf(Put(c, b, p, v).scores[b], Other(p)) == ScoreOf(c.scores[b], Other(p))
    ensures forall d :: d in c.scores && d != b ==> Put(c, b, p, v).scores[d] == c.scores[d]
  {
  }

  /** An eviction removes exactly three fifths of the capacity, rounded down, off the front of the
      list. */
  lemma EvictExact(n: nat, c: Cache)
    requires n >= 2 && Valid(n, c) && |c.order| >= n - 1
    ensures |Evict(n, c).order| == |c.order| - CleanCount(n)
    ensures 5 * CleanCount(n) <= 3 * n < 5 * CleanCount(n) + 5
    ensures forall i :: 0 <= i < |c.order| ==> (c.order[i] in Evict(n, c).scores <==> i >= CleanCount(n))
  {
    var k := CleanCount(n);
    assert k <= |c.order|;
    EvictValid(n, c);
    forall i | 0 <= i < |c.order|
      ensures c.order[i] in c.order[k..] <==> i >= k
    {
      if i >= k {
        assert c.order[k..][i - k] == c.order[i];
      }
    }
  }

  // ---- Who goes first ----

  /** The cache with, for each board held, when it was inserted and when last hit (or -1). */
  datatype History = History(cache: Cache, clock: nat, born: map<Board, nat>, hit: map<Board, int>)

  function FindAt(n: nat, h: History, b: Board): History {
    var c := Find(n, h.cache, b);
    if b in h.cache.order then h.(cache := c, clock := h.clock + 1, hit := h.hit[b := h.clock])
    else h.(cache := c, clock := h.clock + 1, born := h.born[b := h.clock], hit := h.hit[b := -1])
  }

  /** x comes before y in the list: never-hit boards first, newest first; then hit boards,
      least recently hit first. */
  ghost predicate Before(born: map<Board, nat>, hit: map<Board, int>, x: Board, y: Board)
    requires x in born && y in born && x in hit && y in hit
  {
    if hit[x] < 0 && hit[y] < 0 then born[x] > born[y] else hit[x] < hit[y]
  }

  ghost predicate Timed(xs: seq<Board>, born: map<Board, nat>, hit: map<Board, int>, clock: nat) {
    forall b :: b in xs ==> b in born && b in hit && born[b] < clock && -1 <= hit[b] < clock
  }

  ghost predicate OrderedList(xs: seq<Board>, born: map<Board, nat>, hit: map<Board, int>, clock: nat) {
    Timed(xs, born, hit, clock)
    && forall i, j :: 0 <= i < j < |xs| ==> Before(born, hit, xs[i], xs[j])
  }

  ghost predicate Ordered(h: History) {
    OrderedList(h.cache.order, h.born, h.hit, h.clock)
  }

  lemma SuffixOrdered(xs: seq<Board>, k: nat, born: map<Board, nat>, hit: map<Board, int>, clock: nat)
    requires k <= |xs| && OrderedList(xs, born, hit, clock)
    ensures OrderedList(xs[k..], born, hit, clock)
  {
    forall i, j | 0 <= i < j < |xs[k..]|
      ensures Before(born, hit, xs[k..][i], xs[k..][j])
    {
      assert Before(born, hit, xs[k + i], xs[k + j]);
    }
  }

  lemma InsertedOrdered(xs: seq<Board>, b: Board, born: map<Board, nat>, hit: map<Board, int>, clock: nat)
    requires OrderedList(xs, born, hit, clock) && b !in xs
    ensures OrderedList([b] + xs, born[b := clock], hit[b := -1], clock + 1)
  {
    var ys, born', hit' := [b] + xs, born[b := clock], hit[b := -1];
    forall i, j | 0 <= i < j < |ys|
      ensures Before(born', hit', ys[i], ys[j])
    {
      assert ys[j] == xs[j - 1] && xs[j - 1] in xs;
      if i > 0 {
        assert ys[i] == xs[i - 1] && xs[i - 1] in xs;
        assert Before(born, hit, xs[i - 1], xs[j - 1]);
      }
    }
  }

  lemma HitOrdered(xs: seq<Board>, k: nat, born: map<Board, nat>, hit: map<Board, int>, clock: nat)
    requires OrderedList(xs, born, hit, clock) && Distinct(xs) && k < |xs|
    ensures OrderedList(ToTail(xs, k), born, hit[xs[k] := clock], clock + 1)
  {
    var ys, hit' := ToTail(xs, k), hit[xs[k] := clock];
    ToTailFacts(xs, k);
    forall i, j | 0 <= i < j < |ys|
      ensures Before(born, hit', ys[i], ys[j])
    {
      var i0 := if i < k then i else i + 1;
      assert ys[i] == xs[i0] && xs[i0] in xs;
      if j < |xs| - 1 {
        var j0 := if j < k then j else j + 1;
        assert ys[j] == xs[j0] && xs[j0] in xs;
        assert Before(born, hit, xs[i0], xs[j0]);
      }
    }
  }

  /** The order is kept by hits, insertions and evictions alike. */
  lemma FindKeepsOrder(n: nat, h: History, b: Board)
    requires n >= 2 && Valid(n, h.cache) && Ordered(h)
    ensures Ordered(FindAt(n, h, b))
  {
    hide InitialScores, OrderedList;
    var order := h.cache.order;
    if b in order {
      HitOrdered(order, Position(order, b), h.born, h.hit, h.clock);
    } else {
      var rest := Room(n, h.cache).order;
      var k := |order| - |rest|;
      assert rest == order[k..];
      SuffixOrdered(order, k, h.born, h.hit, h.clock);
      InsertedOrdered(rest, b, h.born, h.hit, h.clock);
    }
  }

  /** Over any sequence of lookups from the empty cache. */
  function Lookups(n: nat, boards: seq<Board>): History {
    if boards == [] then History(Cache([], map[]), 0, map[], map[])
    else FindAt(n, Lookups(n, boards[..|boards| - 1]), boards[|boards| - 1])
  }

  lemma {:induction false} LookupsOrdered(n: nat, boards: seq<Board>)
    requires n >= 2
    ensures Valid(n, Lookups(n, boards).cache) && Ordered(Lookups(n, boards))
  {
    if boards != [] {
      var init, b := boards[..|boards| - 1], boards[|boards| - 1];
      LookupsOrdered(n, init);
      FindKeepsOrder(n, Lookups(n, init), b);
      FindValid(n, Lookups(n, init).cache, b);
    }
  }

  /** Whenever a lookup evicts, the victims are chosen so: no hit board goes while a never-hit
      one stays, and of the hit ones the least recently hit go. */
  lemma VictimsInOrder(n: nat, boards: seq<Board>, gone: Board, kept: Board)
    requires n >= 2
    requires var h := Lookups(n, boards);
             |h.cache.order| >= n - 1 && gone in h.cache.order && kept in h.cache.order
             && gone !in Evict(n, h.cache).order && kept in Evict(n, h.cache).order
    ensures var h := Lookups(n, boards);
            gone in h.hit && kept in h.hit && gone in h.born && kept in h.born
            && (h.hit[kept] < 0 ==> h.hit[gone] < 0 && h.born[gone] > h.born[kept])
            && (h.hit[gone] >= 0 ==> h.hit[gone] < h.hit[kept])
  {
    LookupsOrdered(n, boards);
    var h := Lookups(n, boards);
    EvictExact(n, h.cache);
    EvictValid(n, h.cache);
    hide Lookups, Evict, CleanCount;
    var i :| 0 <= i < |h.cache.order| && h.cache.order[i] == gone;
    var j :| 0 <= j < |h.cache.order| && h.cache.order[j] == kept;
    assert Before(h.born, h.hit, h.cache.order[i], h.cache.order[j]);
  }

  // ---- When it is the least recently used that go ----

  /** When a board was last used: its last hit, or its insertion when it was never hit. */
  function LastUse(born: map<Board, nat>, hit: map<Board, int>, b: Board): int
    requires b in born && b in hit
  {
    if hit[b] < 0 then born[b] else hit[b]
  }

  ghost predicate UsedBefore(born: map<Board, nat>, hit: map<Board, int>, x: Board, y: Board) {
    x in born && x in hit && y in born && y in hit && LastUse(born, hit, x) < LastUse(born, hit, y)
  }

  /** The first k boards of the list were all last used before any of the others. */
  ghost predicate LeastRecentFirst(xs: seq<Board>, k: nat, born: map<Board, nat>, hit: map<Board, int>) {
    forall i, j :: 0 <= i < k <= j < |xs| ==> UsedBefore(born, hit, xs[i], xs[j])
  }

  lemma SplitByUse(xs: seq<Board>, k: nat, born: map<Board, nat>, hit: map<Board, int>, clock: nat)
    requires OrderedList(xs, born, hit, clock) && 0 < k < |xs|
    ensures xs[k] in hit
    ensures LeastRecentFirst(xs, k, born, hit) <==> hit[xs[k]] >= 0 && UsedBefore(born, hit, xs[0], xs[k])
  {
    assert xs[0] in xs && xs[k] in xs;
    assert Before(born, hit, xs[0], xs[k]);
    if hit[xs[k]] >= 0 && UsedBefore(born, hit, xs[0], xs[k]) {
      forall i, j | 0 <= i < k <= j < |xs|
        ensures UsedBefore(born, hit, xs[i], xs[j])
      {
        assert xs[i] in xs && xs[j] in xs;
        assert i > 0 ==> Before(born, hit, xs[0], xs[i]);
        assert Before(born, hit, xs[i], xs[k]);
        assert j > k ==> Before(born, hit, xs[k], xs[j]);
      }
    }
  }

  /** Exactly when an eviction takes the least recently used. After any lookups that fill the
      cache, look at the head of the list and at the first board that stays: it does so if and
      only if that board has been hit, and the head was last used before it. */
  lemma EvictsLeastRecentIff(n: nat, boards: seq<Board>)
    requires n >= 3 && |Lookups(n, boards).cache.order| >= n - 1
    ensures var h, k := Lookups(n, boards), CleanCount(n);
            var o := h.cache.order;
            0 < k < |o| && Evict(n, h.cache).order == o[k..] && o[k] in h.hit
            && (LeastRecentFirst(o, k, h.born, h.hit) <==>
                  h.hit[o[k]] >= 0 && UsedBefore(h.born, h.hit, o[0], o[k]))
  {
    LookupsOrdered(n, boards);
    var h := Lookups(n, boards);
    hide Lookups, OrderedList, LeastRecentFirst, UsedBefore;
    SplitByUse(h.cache.order, CleanCount(n), h.born, h.hit, h.clock);
  }

  // ---- Not by recency of use ----

  /** Lookups of the first k boards, the first one twice. */
  function Twice(xs: seq<Board>, k: nat): seq<Board>
    requires 0 < k <= |xs|
  {
    [xs[0]] + xs[..k]
  }

  /** The list these leave: the later boards newest first, the twice-used one last. */
  function NewestFirst(xs: seq<Board>, k: nat): seq<Board>
    requires 0 < k <= |xs|
  {
    if k == 1 then [xs[0]] else [xs[k - 1]] + NewestFirst(xs, k - 1)
  }

  lemma {:induction false} NewestFirstHolds(xs: seq<Board>, k: nat)
    requires 0 < k <= |xs|
    ensures |NewestFirst(xs, k)| == k && NewestFirst(xs, k)[0] == xs[k - 1] && NewestFirst(xs, k)[k - 1] == xs[0]
    ensures forall b :: b in NewestFirst(xs, k) <==> b in xs[..k]
  {
    if k > 1 {
      NewestFirstHolds(xs, k - 1);
      assert xs[..k] == xs[..k - 1] + [xs[k - 1]];
    }
  }

  lemma LookupsLast(n: nat, boards: seq<Board>, b: Board)
    ensures Lookups(n, boards + [b]) == FindAt(n, Lookups(n, boards), b)
  {
    hide Find;
    assert (boards + [b])[..|boards|] == boards;
  }

  lemma MissInserts(n: nat, c: Cache, b: Board)
    requires b !in c.order && |c.order| < n - 1
    ensures Find(n, c, b).order == [b] + c.order
  {
  }

  lemma TwiceFirst(n: nat, b: Board)
    requires n >= 2
    ensures Lookups(n, [b, b]).cache.order == [b]
  {
    var none: seq<Board> := [];
    LookupsLast(n, none, b);
    LookupsLast(n, [b], b);
    MissInserts(n, Lookups(n, none).cache, b);
    assert none + [b] == [b] && [b] + [b] == [b, b];
    assert Position([b], b) == 0;
  }

  lemma {:induction false} TwiceLeaves(n: nat, xs: seq<Board>, k: nat)
    requires Distinct(xs) && 0 < k <= |xs| <= n - 1
    ensures Lookups(n, Twice(xs, k)).cache.order == NewestFirst(xs, k)
  {
    hide Find, Lookups;
    if k == 1 {
      TwiceFirst(n, xs[0]);
      assert Twice(xs, 1) == [xs[0], xs[0]];
    } else {
      TwiceLeaves(n, xs, k - 1);
      NewestFirstHolds(xs, k - 1);
      LookupsLast(n, Twice(xs, k - 1), xs[k - 1]);
      assert Twice(xs, k) == Twice(xs, k - 1) + [xs[k - 1]];
      MissInserts(n, Lookups(n, Twice(xs, k - 1)).cache, xs[k - 1]);
    }
  }

  /** When each of these boards was inserted and hit. */
  lemma {:induction false} TwiceTimes(n: nat, xs: seq<Board>, k: nat)
    requires Distinct(xs) && 0 < k <= |xs| <= n - 1
    ensures var h := Lookups(n, Twice(xs, k));
            h.clock == k + 1 && xs[0] in h.born && xs[0] in h.hit && h.hit[xs[0]] == 1
            && forall i :: 1 <= i < k ==>
                 xs[i] in h.born && xs[i] in h.hit && h.born[xs[i]] == i + 1 && h.hit[xs[i]] == -1
  {
    hide Find, Lookups;
    if k == 1 {
      TwiceFirstTimes(n, xs[0]);
      assert Twice(xs, 1) == [xs[0], xs[0]];
    } else {
      TwiceTimes(n, xs, k - 1);
      TwiceLeaves(n, xs, k - 1);
      NewestFirstHolds(xs, k - 1);
      LookupsLast(n, Twice(xs, k - 1), xs[k - 1]);
      assert Twice(xs, k) == Twice(xs, k - 1) + [xs[k - 1]];
    }
  }

  lemma TwiceFirstTimes(n: nat, b: Board)
    requires n >= 2
    ensures var h := Lookups(n, [b, b]); h.clock == 2 && b in h.born && b in h.hit && h.hit[b] == 1
  {
    var none: seq<Board> := [];
    LookupsLast(n, none, b);
    LookupsLast(n, [b], b);
    MissInserts(n, Lookups(n, none).cache, b);
    assert none + [b] == [b] && [b] + [b] == [b, b];
    hide Find;
  }

  /** Not every eviction does: fill the cache with distinct boards, using the first one twice and
      every other once after that. The next miss drops the board used last and keeps the one
      used longest ago. */
  lemma NotLeastRecentlyUsed(n: nat, xs: seq<Board>, d: Board)
    requires n >= 3 && Distinct(xs) && |xs| == n - 1 && d !in xs
    ensures var h := Lookups(n, Twice(xs, n - 1));
            var after := Find(n, h.cache, d);
            xs[0] in h.cache.order && xs[n - 2] in h.cache.order
            && xs[0] in after.order && xs[n - 2] !in after.order
  {
    hide InitialScores, Find, Lookups;
    TwiceLeaves(n, xs, n - 1);
    NewestFirstHolds(xs, n - 1);
    LookupsOrdered(n, Twice(xs, n - 1));
    var c := Lookups(n, Twice(xs, n - 1)).cache;
    EvictsEnds(n, c, d);
  }

  /** On a full cache a miss drops the head of the list and keeps its tail. */
  lemma EvictsEnds(n: nat, c: Cache, d: Board)
    requires n >= 3 && Valid(n, c) && |c.order| == n - 1 && d !in c.order
    ensures c.order[0] !in Find(n, c, d).order && c.order[n - 2] in Find(n, c, d).order
  {
    hide InitialScores;
    EvictExact(n, c);
    EvictValid(n, c);
    assert 1 <= CleanCount(n) <= n - 2;
    assert c.order[0] in c.order;
  }

  // ---- Boards enough ----

  const MAX_STATES: nat := 16384

  function Pow3(k: nat): (p: nat)
    ensures p > 0
  {
    if k == 0 then 1 else 3 * Pow3(k - 1)
  }

  function Digit(i: nat): Cell {
    if i % 3 == 0 then Empty else if i % 3 == 1 then O else X
  }

  /** The k lowest base-3 digits of i, as cells. */
  function Digits(i: nat, k: nat): (cells: seq<Cell>)
    ensures |cells| == k
  {
    if k == 0 then [] else [Digit(i)] + Digits(i / 3, k - 1)
  }

  lemma {:induction false} DigitsDiffer(i: nat, j: nat, k: nat)
    requires i < Pow3(k) && j < Pow3(k) && i != j
    ensures Digits(i, k) != Digits(j, k)
    decreases k
  {
    assert k > 0;
    if i % 3 == j % 3 {
      DigitsDiffer(i / 3, j / 3, k - 1);
      assert Digits(i, k)[1..] == Digits(i / 3, k - 1) && Digits(j, k)[1..] == Digits(j / 3, k - 1);
    } else {
      assert Digits(i, k)[0] == Digit(i) && Digits(j, k)[0] == Digit(j);
    }
  }

  function NthBoard(i: nat): Board {
    Digits(i, N_GRIDS)
  }

  lemma NthBoardsDiffer(i: nat, j: nat)
    requires i < Pow3(N_GRIDS) && j < Pow3(N_GRIDS) && i != j
    ensures NthBoard(i) != NthBoard(j)
  {
    DigitsDiffer(i, j, N_GRIDS);
  }

  lemma {:induction false} Pow3Grows(k: nat, m: nat)
    requires k <= m
    ensures Pow3(k) <= Pow3(m)
  {
    if k < m {
      Pow3Grows(k, m - 1);
    }
  }

  /** The capacity in use is one of those the next lemma covers. */
  lemma CapacityCovered()
    ensures 3 <= MAX_STATES <= Pow3(N_GRIDS)
  {
    assert Pow3(9) == 19683;
    Pow3Grows(9, N_GRIDS);
  }

  lemma DropsLaterUse(n: nat, xs: seq<Board>)
    requires n >= 3 && Distinct(xs) && |xs| == n - 1
    ensures var h := Lookups(n, Twice(xs, n - 1));
            UsedBefore(h.born, h.hit, xs[0], xs[n - 2])
            && !LeastRecentFirst(h.cache.order, CleanCount(n), h.born, h.hit)
  {
    hide Lookups;
    TwiceLeaves(n, xs, n - 1);
    NewestFirstHolds(xs, n - 1);
    TwiceTimes(n, xs, n - 1);
    var h := Lookups(n, Twice(xs, n - 1));
    assert 1 <= CleanCount(n) <= n - 2;
    assert !UsedBefore(h.born, h.hit, h.cache.order[0], h.cache.order[n - 2]);
  }

  /** At every capacity for which there are boards enough, there are lookups that fill the cache
      so that the next miss drops a board used after one it keeps. */
  lemma LruFails(n: nat) returns (boards: seq<Board>, d: Board, gone: Board, kept: Board)
    requires 3 <= n <= Pow3(N_GRIDS)
    ensures var h := Lookups(n, boards);
            |h.cache.order| == n - 1 && d !in h.cache.order
            && gone in h.cache.order && gone !in Find(n, h.cache, d).order
            && kept in h.cache.order && kept in Find(n, h.cache, d).order
            && UsedBefore(h.born, h.hit, kept, gone)
            && !LeastRecentFirst(h.cache.order, CleanCount(n), h.born, h.hit)
  {
    hide Find, Lookups, UsedBefore, LeastRecentFirst, Distinct, Pow3;
    var xs;
    xs, d := DistinctBoards(n);
    boards := Twice(xs, n - 1);
    gone, kept := xs[n - 2], xs[0];
    NotLeastRecentlyUsed(n, xs, d);
    TwiceLeaves(n, xs, n - 1);
    NewestFirstHolds(xs, n - 1);
    DropsLaterUse(n, xs);
  }

  lemma DistinctBoards(n: nat) returns (xs: seq<Board>, d: Board)
    requires 0 < n <= Pow3(N_GRIDS)
    ensures |xs| == n - 1 && Distinct(xs) && d !in xs
  {
    hide NthBoard, Pow3;
    xs := seq(n - 1, i requires 0 <= i < n - 1 => NthBoard(i));
    d := NthBoard(n - 1);
    forall i, j | 0 <= i < j < n
      ensures NthBoard(i) != NthBoard(j)
    {
      NthBoardsDiffer(i, j);
    }
  }
}
