/** The learning agent: greedy play over the state cache and the backward update of an
    episode, with the bound that keeps the arithmetic from overflowing. */
module Learning {
  import opened Basics
  import opened Game
  import opened RecencyMap
  import opened RlFixed
  import opened RlState

  /** Scores start below every score a cell can have. */
  const RL_FIXED_MIN: int := -0x8000_0000

  ghost predicate Bounded(c: Cache) {
    forall b :: b in c.scores ==> InBound(c.scores[b].o) && InBound(c.scores[b].x)
  }

  lemma FindKeepsBound(n: nat, c: Cache, b: Board)
    requires n >= 2 && Valid(n, c) && Bounded(c)
    ensures Valid(n, Find(n, c, b)) && Bounded(Find(n, c, b)) && b in Find(n, c, b).scores
  {
    FindValid(n, c, b);
    FindIsLookup(n, c, b);
    ScoreFacts(b, O);
    ScoreFacts(b, X);
    hide Find, Score;
  }

  lemma PutKeepsBound(n: nat, c: Cache, b: Board, p: Player, v: int)
    requires Valid(n, c) && Bounded(c) && b in c.scores && InBound(v)
    ensures Bounded(Put(c, b, p, v))
  {
  }

  // ---- One update ----

  /** `step_update_state_value`: look the board up, move its score towards what the step
      turned out to be worth. */
  function Step(n: nat, c: Cache, b: Board, reward: int, next: int, p: Player): (r: (Cache, int))
    requires n >= 2 && Valid(n, c)
  {
    FindValid(n, c, b);
    var f := Find(n, c, b);
    var v := Blend(ScoreOf(f.scores[b], p), Current(reward, next));
    (Put(f, b, p, v), v)
  }

  lemma StepKeepsBound(n: nat, c: Cache, b: Board, reward: int, next: int, p: Player)
    requires n >= 2 && Valid(n, c) && Bounded(c) && InBound(next) && 0 <= reward <= ONE
    ensures Valid(n, Step(n, c, b, reward, next, p).0) && Bounded(Step(n, c, b, reward, next, p).0)
    ensures InBound(Step(n, c, b, reward, next, p).1)
  {
    hide Find, Blend, Current;
    FindKeepsBound(n, c, b);
    var f := Find(n, c, b);
    UpdateKeepsBound(ScoreOf(f.scores[b], p), reward, next);
    PutIsWrite(n, f, b, p, Blend(ScoreOf(f.scores[b], p), Current(reward, next)));
    PutKeepsBound(n, f, b, p, Blend(ScoreOf(f.scores[b], p), Current(reward, next)));
  }

  // ---- An episode ----

  /** `update_state_value` from step j down: blank entries are skipped, each value found
      feeds the step before. */
  function Backward(n: nat, c: Cache, boards: seq<Board>, rewards: seq<int>, j: nat, next: int, p: Player): Cache
    requires n >= 2 && Valid(n, c) && j <= |boards| && j <= |rewards|
    decreases j
  {
    if j == 0 then c
    else if boards[j - 1] == EMPTY_BOARD then Backward(n, c, boards, rewards, j - 1, next, p)
    else
      var r := Step(n, c, boards[j - 1], rewards[j - 1], next, p);
      StepValid(n, c, boards[j - 1], rewards[j - 1], next, p);
      Backward(n, r.0, boards, rewards, j - 1, r.1, p)
  }

  lemma StepValid(n: nat, c: Cache, b: Board, reward: int, next: int, p: Player)
    requires n >= 2 && Valid(n, c)
    ensures Valid(n, Step(n, c, b, reward, next, p).0)
  {
    hide Find, Blend, Current;
    FindValid(n, c, b);
    var f := Find(n, c, b);
    PutIsWrite(n, f, b, p, Blend(ScoreOf(f.scores[b], p), Current(reward, next)));
  }

  lemma {:induction false} BackwardKeepsBound(n: nat, c: Cache, boards: seq<Board>, rewards: seq<int>, j: nat,
                                              next: int, p: Player)
    requires n >= 2 && Valid(n, c) && j <= |boards| && j <= |rewards|
    requires Bounded(c) && InBound(next) && forall i :: 0 <= i < j ==> 0 <= rewards[i] <= ONE
    ensures Valid(n, Backward(n, c, boards, rewards, j, next, p))
    ensures Bounded(Backward(n, c, boards, rewards, j, next, p))
    decreases j
  {
    hide Step;
    if j > 0 {
      if boards[j - 1] == EMPTY_BOARD {
        BackwardKeepsBound(n, c, boards, rewards, j - 1, next, p);
      } else {
        var r := Step(n, c, boards[j - 1], rewards[j - 1], next, p);
        StepKeepsBound(n, c, boards[j - 1], rewards[j - 1], next, p);
        BackwardKeepsBound(n, r.0, boards, rewards, j - 1, r.1, p);
      }
    }
  }

  // ---- Runs ----

  /** What can happen to the cache: a lookup, or the update after an episode. */
  datatype Op = Look(b: Board) | Episode(boards: seq<Board>, rewards: seq<int>, steps: nat, p: Player)

  predicate OpOk(op: Op) {
    op.Episode? ==>
      op.steps <= |op.boards| && op.steps <= |op.rewards| && forall i :: 0 <= i < op.steps ==> 0 <= op.rewards[i] <= ONE
  }

  predicate OpsOk(ops: seq<Op>) {
    forall i :: 0 <= i < |ops| ==> OpOk(ops[i])
  }

  /** The cache after the operations, from the empty one. */
  ghost function After(n: nat, ops: seq<Op>): (c: Cache)
    requires n >= 2 && OpsOk(ops)
    ensures Valid(n, c)
  {
    if ops == [] then Cache([], map[])
    else
      var last := |ops| - 1;
      var c := After(n, ops[..last]);
      match ops[last]
      case Look(b) => FindValid(n, c, b); Find(n, c, b)
      case Episode(boards, rewards, steps, p) =>
        BackwardValid(n, c, boards, rewards, steps, 0, p);
        Backward(n, c, boards, rewards, steps, 0, p)
  }

  lemma {:induction false} BackwardValid(n: nat, c: Cache, boards: seq<Board>, rewards: seq<int>, j: nat,
                                         next: int, p: Player)
    requires n >= 2 && Valid(n, c) && j <= |boards| && j <= |rewards|
    ensures Valid(n, Backward(n, c, boards, rewards, j, next, p))
    decreases j
  {
    hide Step;
    if j > 0 {
      if boards[j - 1] == EMPTY_BOARD {
        BackwardValid(n, c, boards, rewards, j - 1, next, p);
      } else {
        var r := Step(n, c, boards[j - 1], rewards[j - 1], next, p);
        StepValid(n, c, boards[j - 1], rewards[j - 1], next, p);
        BackwardValid(n, r.0, boards, rewards, j - 1, r.1, p);
      }
    }
  }

  /** Over every run of lookups, evictions and updates, no score ever leaves the bound. */
  lemma {:induction false} RunsStayBounded(n: nat, ops: seq<Op>)
    requires n >= 2 && OpsOk(ops)
    ensures Bounded(After(n, ops))
  {
    hide Find, Backward, Bounded;
    if ops == [] {
      EmptyBounded();
    } else {
      var last := |ops| - 1;
      RunsStayBounded(n, ops[..last]);
      var c := After(n, ops[..last]);
      assert OpOk(ops[last]);
      match ops[last]
      case Look(b) => FindKeepsBound(n, c, b);
      case Episode(boards, rewards, steps, p) => BackwardKeepsBound(n, c, boards, rewards, steps, 0, p);
    }
  }

  lemma EmptyBounded()
    ensures Bounded(Cache([], map[]))
  {
  }

  // ---- Greedy play ----

  /** The cache after looking up the boards that playing on the empty cells below k leads to. */
  function Probe(n: nat, c: Cache, b: Board, p: Player, k: nat): Cache
    requires k <= N_GRIDS
  {
    if k == 0 then c
    else if b[k - 1] != Empty then Probe(n, c, b, p, k - 1)
    else Find(n, Probe(n, c, b, p, k - 1), Place(b, k - 1, p))
  }

  lemma {:induction false} ProbeKeepsBound(n: nat, c: Cache, b: Board, p: Player, k: nat)
    requires n >= 2 && Valid(n, c) && Bounded(c) && k <= N_GRIDS
    ensures Valid(n, Probe(n, c, b, p, k)) && Bounded(Probe(n, c, b, p, k))
  {
    hide Find;
    if k > 0 {
      ProbeKeepsBound(n, c, b, p, k - 1);
      if b[k - 1] == Empty {
        FindKeepsBound(n, Probe(n, c, b, p, k - 1), Place(b, k - 1, p));
      }
    }
  }

  /** The score the agent sees for playing on cell i, at the moment it looks. */
  function Seen(n: nat, c: Cache, b: Board, p: Player, i: nat): int
    requires i < N_GRIDS && Place(b, i, p) in Probe(n, c, b, p, i + 1).scores
  {
    ScoreOf(Probe(n, c, b, p, i + 1).scores[Place(b, i, p)], p)
  }

  ghost predicate CanSee(n: nat, c: Cache, b: Board, p: Player, i: nat) {
    i < N_GRIDS && b[i] == Empty && Place(b, i, p) in Probe(n, c, b, p, i + 1).scores
  }

  lemma SeenBound(n: nat, c: Cache, b: Board, p: Player, i: nat)
    requires n >= 2 && Valid(n, c) && Bounded(c) && i < N_GRIDS && b[i] == Empty
    ensures CanSee(n, c, b, p, i) && InBound(Seen(n, c, b, p, i))
  {
    hide Find;
    ProbeKeepsBound(n, c, b, p, i);
    FindKeepsBound(n, Probe(n, c, b, p, i), Place(b, i, p));
  }

  /** act is an empty cell below k of the highest score seen below k. */
  ghost predicate BestBelow(n: nat, c: Cache, b: Board, p: Player, k: nat, act: int, q: int) {
    0 <= act < k && CanSee(n, c, b, p, act) && Seen(n, c, b, p, act) == q
    && forall i: nat :: i < k && CanSee(n, c, b, p, i) ==> Seen(n, c, b, p, i) <= q
  }

  /** What the scan knows after the cells below k: nothing yet, or a best one. */
  ghost predicate Found(n: nat, c: Cache, b: Board, p: Player, k: nat, act: int, q: int)
    requires k <= N_GRIDS
  {
    if act == -1 then q == RL_FIXED_MIN && forall i :: 0 <= i < k ==> b[i] != Empty
    else 0 <= act < k && b[act] == Empty && BestBelow(n, c, b, p, k, act, q)
  }

  lemma FoundSkips(n: nat, c: Cache, b: Board, p: Player, i: nat, act: int, q: int)
    requires i < N_GRIDS && b[i] != Empty && Found(n, c, b, p, i, act, q)
    ensures Found(n, c, b, p, i + 1, act, q)
  {
    hide Probe, Seen;
  }

  /** A worse cell changes nothing, a better one takes over, and either of two equals will do. */
  lemma FoundStep(n: nat, c: Cache, b: Board, p: Player, i: nat, act: int, q: int)
    requires i < N_GRIDS && CanSee(n, c, b, p, i) && InBound(Seen(n, c, b, p, i)) && Found(n, c, b, p, i, act, q)
    ensures Seen(n, c, b, p, i) <= q ==> Found(n, c, b, p, i + 1, act, q)
    ensures Seen(n, c, b, p, i) >= q ==> Found(n, c, b, p, i + 1, i, Seen(n, c, b, p, i))
  {
    hide Probe, Seen;
  }

  class Agent {
    const cache: StateCache

    constructor (cache: StateCache)
      ensures this.cache == cache
    {
      this.cache := cache;
    }

    ghost function Frame(): set<object> {
      {cache, cache.stMap, cache.buff, cache.states}
    }

    /** The cache is well formed and all its scores are in bound. */
    ghost predicate Ready()
      reads cache, cache.stMap, cache.buff, cache.states
    {
      cache.Ok() && Bounded(cache.Value())
    }

    /** `play_rl`: an empty cell of maximal score, ties broken at random; -1 exactly on a
        full board. */
    method Play(b: Board, p: Player) returns (act: int)
      requires Ready()
      modifies Frame()
      ensures Ready() && cache.Value() == Probe(cache.n, old(cache.Value()), b, p, N_GRIDS)
      ensures act == -1 <==> !HasEmpty(b)
      ensures HasEmpty(b) ==> 0 <= act < N_GRIDS && b[act] == Empty
      ensures HasEmpty(b) ==> exists q :: BestBelow(cache.n, old(cache.Value()), b, p, N_GRIDS, act, q)
    {
      hide Agree, Abs, Find, Bounded, Score, ScoreOf, BestBelow, CanSee;
      ghost var c := cache.Value();
      act := -1;
      var maxQ, candidates := RL_FIXED_MIN, 1;
      for i := 0 to N_GRIDS
        invariant Ready() && cache.Value() == Probe(cache.n, c, b, p, i) && candidates >= 1
        invariant Found(cache.n, c, b, p, i, act, maxQ)
      {
        if b[i] != Empty {
          FoundSkips(cache.n, c, b, p, i, act, maxQ);
        } else {
          var next := Place(b, i, p);
          SeenBound(cache.n, c, b, p, i);
          FoundStep(cache.n, c, b, p, i, act, maxQ);
          ProbeKeepsBound(cache.n, c, b, p, i + 1);
          var newQ := Peek(next, p);
          assert newQ == Seen(cache.n, c, b, p, i);
          if newQ == maxQ {
            candidates := candidates + 1;
            var random: nat := *;
            if random % candidates == 0 {
              act := i;
            }
          } else if newQ > maxQ {
            candidates := 1;
            maxQ := newQ;
            act := i;
          }
        }
      }
    }

    /** Looking a board up and reading one side's score. */
    method Peek(b: Board, p: Player) returns (q: int)
      requires cache.Ok()
      modifies Frame()
      ensures cache.Ok() && cache.Value() == Find(cache.n, old(cache.Value()), b)
      ensures b in cache.Value().scores && q == ScoreOf(cache.Value().scores[b], p)
    {
      var slot := cache.FindState(b);
      cache.SlotScore(slot);
      q := ScoreOf(cache.buff[slot].scores, p);
    }

    /** One step of the update; the value written is handed back. */
    method StepUpdate(b: Board, reward: int, next: int, p: Player) returns (v: int)
      requires Ready() && InBound(next) && 0 <= reward <= ONE
      modifies Frame()
      ensures Ready() && (cache.Value(), v) == Step(cache.n, old(cache.Value()), b, reward, next, p) && InBound(v)
    {
      hide Agree, Abs, Find, Bounded, Blend, Current, ScoreOf, WithScore;
      ghost var c := cache.Value();
      StepKeepsBound(cache.n, c, b, reward, next, p);
      FindValid(cache.n, c, b);
      var curr := Current(reward, next);
      var slot := cache.FindState(b);
      cache.SlotScore(slot);
      v := Blend(ScoreOf(cache.buff[slot].scores, p), curr);
      cache.WriteScore(slot, p, v);
    }

    /** `update_state_value`: the episode backwards. */
    method Update(boards: seq<Board>, rewards: seq<int>, steps: nat, p: Player)
      requires Ready() && steps <= |boards| && steps <= |rewards|
      requires forall i :: 0 <= i < steps ==> 0 <= rewards[i] <= ONE
      modifies Frame()
      ensures Ready() && cache.Value() == Backward(cache.n, old(cache.Value()), boards, rewards, steps, 0, p)
    {
      hide Agree, Abs, Find, Bounded, Step;
      ghost var c := cache.Value();
      var next, j := 0, steps;
      while j > 0
        invariant 0 <= j <= steps && Ready() && InBound(next)
        invariant Backward(cache.n, cache.Value(), boards, rewards, j, next, p)
               == Backward(cache.n, c, boards, rewards, steps, 0, p)
      {
        j := j - 1;
        if boards[j] != EMPTY_BOARD {
          next := StepUpdate(boards[j], rewards[j], next, p);
        }
      }
    }
  }
}
