/** What the backward update of an episode leaves in the cache, stated over the result. */
module EpisodeValues {
  import opened Basics
  import opened Game
  import opened RecencyMap
  import opened RlFixed
  import opened Learning

  /** Where the update stops short of the steps it skips: the first step after i, below j, that
      was recorded; j when there is none. */
  function NextRecorded(boards: seq<Board>, i: nat, j: nat): (k: nat)
    requires i < j <= |boards|
    ensures i < k <= j
    ensures k < j ==> boards[k] != EMPTY_BOARD
    ensures forall h :: i < h < k ==> boards[h] == EMPTY_BOARD
    decreases j - i
  {
    if i + 1 == j || boards[i + 1] != EMPTY_BOARD then i + 1 else NextRecorded(boards, i + 1, j)
  }

  ghost predicate RecordedOnce(boards: seq<Board>, j: nat)
    requires j <= |boards|
  {
    forall i, k :: 0 <= i < k < j && boards[i] != EMPTY_BOARD ==> boards[i] != boards[k]
  }

  /** The board is one of those recorded below j. */
  ghost predicate Among(boards: seq<Board>, j: nat, b: Board)
    requires j <= |boards|
  {
    exists i :: 0 <= i < j && boards[i] == b && b != EMPTY_BOARD
  }

  /** A board's scores before the episode: those held, or the initial ones. */
  function ScoresSoFar(c: Cache, b: Board): Scores {
    if b in c.scores then c.scores[b] else InitialScores(b)
  }

  /** The learning rule: a fiftieth of the way, rounding apart, from the old score to the reward
      less the discounted value of what came next. */
  function Target(s: int, reward: int, v: int): int {
    (65536 - 1310) * s / 65536 + 1310 * (reward - 64880 * v / 65536) / 65536
  }

  lemma BlendIsTarget(s: int, reward: int, v: int)
    requires InBound(s) && InBound(v) && 0 <= reward <= ONE
    ensures Blend(s, Current(reward, v)) == Target(s, reward, v)
  {
    UpdateNoOverflow(s, reward, v);
  }

  /** A lookup with room to spare brings in one board and disturbs no other. */
  lemma FindGrows(n: nat, c: Cache, b: Board)
    requires n >= 2 && Valid(n, c) && Bounded(c) && |c.order| < n - 1
    ensures var f := Find(n, c, b);
            Valid(n, f) && b in f.scores && f.scores[b] == ScoresSoFar(c, b) && |f.order| <= |c.order| + 1
            && InBound(f.scores[b].o) && InBound(f.scores[b].x)
            && (forall d :: d != b ==> (d in f.scores <==> d in c.scores))
            && (forall d :: d != b && d in c.scores ==> f.scores[d] == c.scores[d])
  {
    FindKeepsBound(n, c, b);
    FindIsLookup(n, c, b);
    hide InitialScores;
  }

  /** What one update leaves of the cache. */
  ghost predicate Taught(c: Cache, b: Board, reward: int, v: int, p: Player, result: Cache) {
    b in result.scores
    && ScoreOf(result.scores[b], p) == Target(ScoreOf(ScoresSoFar(c, b), p), reward, v)
    && ScoreOf(result.scores[b], Other(p)) == ScoreOf(ScoresSoFar(c, b), Other(p))
  }

  ghost predicate SameAt(c: Cache, d: Board, result: Cache) {
    (d in result.scores <==> d in c.scores) && (d in c.scores ==> result.scores[d] == c.scores[d])
  }

  lemma StepTeaches(n: nat, c: Cache, b: Board, reward: int, v: int, p: Player)
    requires n >= 2 && Valid(n, c) && Bounded(c) && InBound(v) && 0 <= reward <= ONE && |c.order| < n - 1
    ensures var r := Step(n, c, b, reward, v, p);
            Taught(c, b, reward, v, p, r.0) && r.1 == ScoreOf(r.0.scores[b], p) && |r.0.order| <= |c.order| + 1
            && forall d :: d != b ==> SameAt(c, d, r.0)
  {
    FindGrows(n, c, b);
    var f := Find(n, c, b);
    hide Find, InitialScores, Blend, Current, Target, Bounded, Valid, InBound, ScoresSoFar, Taught, SameAt;
    var s := ScoreOf(f.scores[b], p);
    assert InBound(s);
    BlendIsTarget(s, reward, v);
    PutTeaches(n, c, f, b, reward, v, p);
  }

  lemma PutTeaches(n: nat, c: Cache, f: Cache, b: Board, reward: int, v: int, p: Player)
    requires Valid(n, f) && b in f.scores && f.scores[b] == ScoresSoFar(c, b)
    requires forall d :: d != b ==> (d in f.scores <==> d in c.scores)
    requires forall d :: d != b && d in c.scores ==> f.scores[d] == c.scores[d]
    ensures var r := Put(f, b, p, Target(ScoreOf(f.scores[b], p), reward, v));
            Taught(c, b, reward, v, p, r) && ScoreOf(r.scores[b], p) == Target(ScoreOf(f.scores[b], p), reward, v)
            && r.order == f.order && forall d :: d != b ==> SameAt(c, d, r)
  {
    hide InitialScores, Target, Valid, ScoresSoFar;
    PutIsWrite(n, f, b, p, Target(ScoreOf(f.scores[b], p), reward, v));
  }

  // ---- The whole episode ----

  lemma {:induction false} NextRecordedShorter(boards: seq<Board>, i: nat, j: nat)
    requires i + 1 < j <= |boards|
    ensures NextRecorded(boards, i, j) == if NextRecorded(boards, i, j - 1) < j - 1 then NextRecorded(boards, i, j - 1)
                                          else if boards[j - 1] != EMPTY_BOARD then j - 1
                                          else j
    decreases j - i
  {
    if i + 2 < j && boards[i + 1] == EMPTY_BOARD {
      NextRecordedShorter(boards, i + 1, j);
    }
  }

  /** The value found for the next recorded step after i, in the cache the update leaves; `next`
      when i is the last. */
  ghost function ValueAfter(boards: seq<Board>, i: nat, j: nat, next: int, p: Player, result: Cache): int
    requires i < j <= |boards|
  {
    var k := NextRecorded(boards, i, j);
    if k < j && boards[k] in result.scores then ScoreOf(result.scores[boards[k]], p) else next
  }

  ghost predicate TaughtAll(c: Cache, boards: seq<Board>, rewards: seq<int>, j: nat, next: int, p: Player,
                            result: Cache)
    requires j <= |boards| && j <= |rewards|
  {
    (forall i :: 0 <= i < j && boards[i] != EMPTY_BOARD ==>
       Taught(c, boards[i], rewards[i], ValueAfter(boards, i, j, next, p, result), p, result))
    && (forall d :: !Among(boards, j, d) ==> SameAt(c, d, result))
  }

  lemma AmongMore(boards: seq<Board>, j: nat, d: Board)
    requires 0 < j <= |boards|
    ensures Among(boards, j - 1, d) ==> Among(boards, j, d)
  {
  }

  lemma TaughtBlank(c: Cache, boards: seq<Board>, rewards: seq<int>, j: nat, next: int, p: Player, result: Cache)
    requires 0 < j <= |boards| && j <= |rewards| && boards[j - 1] == EMPTY_BOARD
    requires TaughtAll(c, boards, rewards, j - 1, next, p, result)
    ensures TaughtAll(c, boards, rewards, j, next, p, result)
  {
    hide Taught, SameAt;
    forall i | 0 <= i < j && boards[i] != EMPTY_BOARD
      ensures ValueAfter(boards, i, j, next, p, result) == ValueAfter(boards, i, j - 1, next, p, result)
    {
      NextRecordedShorter(boards, i, j);
    }
    assert forall d :: Among(boards, j - 1, d) ==> Among(boards, j, d);
  }

  lemma TaughtMore(c: Cache, boards: seq<Board>, rewards: seq<int>, j: nat, next: int, p: Player, c1: Cache, v: int,
                   result: Cache)
    requires 0 < j <= |boards| && j <= |rewards| && boards[j - 1] != EMPTY_BOARD && RecordedOnce(boards, j)
    requires Taught(c, boards[j - 1], rewards[j - 1], next, p, c1) && v == ScoreOf(c1.scores[boards[j - 1]], p)
    requires forall d :: d != boards[j - 1] ==> SameAt(c, d, c1)
    requires TaughtAll(c1, boards, rewards, j - 1, v, p, result)
    ensures TaughtAll(c, boards, rewards, j, next, p, result)
  {
    hide Target, InitialScores;
    var last := boards[j - 1];
    assert !Among(boards, j - 1, last);
    assert SameAt(c1, last, result);
    forall i | 0 <= i < j && boards[i] != EMPTY_BOARD
      ensures Taught(c, boards[i], rewards[i], ValueAfter(boards, i, j, next, p, result), p, result)
    {
      if i < j - 1 {
        NextRecordedShorter(boards, i, j);
        assert boards[i] != last && SameAt(c, boards[i], c1);
        assert ValueAfter(boards, i, j, next, p, result) == ValueAfter(boards, i, j - 1, v, p, result);
      }
    }
    forall d | !Among(boards, j, d)
      ensures SameAt(c, d, result)
    {
      assert Among(boards, j, last);
      AmongMore(boards, j, d);
      assert SameAt(c, d, c1) && SameAt(c1, d, result);
    }
  }

  lemma {:induction false} BackwardTeaches(n: nat, c: Cache, boards: seq<Board>, rewards: seq<int>, j: nat, next: int,
                                           p: Player)
    requires n >= 2 && Valid(n, c) && Bounded(c) && InBound(next) && j <= |boards| && j <= |rewards|
    requires forall i :: 0 <= i < j ==> 0 <= rewards[i] <= ONE
    requires RecordedOnce(boards, j) && |c.order| + j <= n - 1
    ensures TaughtAll(c, boards, rewards, j, next, p, Backward(n, c, boards, rewards, j, next, p))
    decreases j
  {
    hide Step, Taught, SameAt, TaughtAll;
    if j == 0 {
      NothingTaught(c, boards, rewards, next, p);
    } else if boards[j - 1] == EMPTY_BOARD {
      BackwardTeaches(n, c, boards, rewards, j - 1, next, p);
      TaughtBlank(c, boards, rewards, j, next, p, Backward(n, c, boards, rewards, j - 1, next, p));
    } else {
      var r := Step(n, c, boards[j - 1], rewards[j - 1], next, p);
      StepTeaches(n, c, boards[j - 1], rewards[j - 1], next, p);
      StepKeepsBound(n, c, boards[j - 1], rewards[j - 1], next, p);
      BackwardTeaches(n, r.0, boards, rewards, j - 1, r.1, p);
      TaughtMore(c, boards, rewards, j, next, p, r.0, r.1, Backward(n, r.0, boards, rewards, j - 1, r.1, p));
    }
  }

  lemma NothingTaught(c: Cache, boards: seq<Board>, rewards: seq<int>, next: int, p: Player)
    ensures TaughtAll(c, boards, rewards, 0, next, p, c)
  {
  }

  /** The update of an episode of distinct boards that the cache has room for, written out over
      the cache it leaves: each recorded board has moved towards its reward less the discounted
      final value of the next recorded board, nothing following the last; the other side's
      scores and all other boards are as they were. */
  lemma EpisodeTeaches(n: nat, c: Cache, boards: seq<Board>, rewards: seq<int>, steps: nat, p: Player)
    requires n >= 2 && Valid(n, c) && Bounded(c) && steps <= |boards| && steps <= |rewards|
    requires forall i :: 0 <= i < steps ==> 0 <= rewards[i] <= ONE
    requires RecordedOnce(boards, steps) && |c.order| + steps <= n - 1
    ensures var result := Backward(n, c, boards, rewards, steps, 0, p);
            (forall i :: 0 <= i < steps && boards[i] != EMPTY_BOARD ==>
               boards[i] in result.scores
               && ScoreOf(result.scores[boards[i]], p)
                  == Target(ScoreOf(ScoresSoFar(c, boards[i]), p), rewards[i],
                            ValueAfter(boards, i, steps, 0, p, result))
               && ScoreOf(result.scores[boards[i]], Other(p)) == ScoreOf(ScoresSoFar(c, boards[i]), Other(p)))
            && (forall d :: !Among(boards, steps, d) ==> (d in result.scores <==> d in c.scores))
            && (forall d :: !Among(boards, steps, d) && d in c.scores ==> result.scores[d] == c.scores[d])
  {
    hide Backward, Target, InitialScores, Among, ValueAfter;
    BackwardTeaches(n, c, boards, rewards, steps, 0, p);
    var result := Backward(n, c, boards, rewards, steps, 0, p);
    forall i | 0 <= i < steps && boards[i] != EMPTY_BOARD
      ensures Taught(c, boards[i], rewards[i], ValueAfter(boards, i, steps, 0, p, result), p, result)
    {
    }
    forall d | !Among(boards, steps, d)
      ensures SameAt(c, d, result)
    {
    }
  }
}
