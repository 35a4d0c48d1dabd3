/** The learning agent's choice, stated over the cache it starts from. */
module GreedyPlay {
  import opened Game
  import opened RecencyMap
  import opened Learning
  import opened EpisodeValues

  /** What the board after p's move on m is worth to p by what was learnt so far. */
  function Learnt(c: Cache, b: Board, p: Player, m: nat): int
    requires m < N_GRIDS
  {
    ScoreOf(ScoresSoFar(c, Place(b, m, p)), p)
  }

  /** While no eviction falls due, looking changes nothing of what there is to see. */
  lemma {:induction false} ProbeSeesBefore(n: nat, c: Cache, b: Board, p: Player, k: nat, d: Board)
    requires n >= 2 && Valid(n, c) && Bounded(c) && k <= N_GRIDS && |c.order| + k <= n - 1
    ensures Valid(n, Probe(n, c, b, p, k)) && Bounded(Probe(n, c, b, p, k))
    ensures |Probe(n, c, b, p, k).order| <= |c.order| + k
    ensures ScoresSoFar(Probe(n, c, b, p, k), d) == ScoresSoFar(c, d)
  {
    hide Find, InitialScores, Bounded, Valid;
    if k > 0 {
      ProbeSeesBefore(n, c, b, p, k - 1, d);
      ProbeKeepsBound(n, c, b, p, k);
      if b[k - 1] == Empty {
        ProbeSeesBefore(n, c, b, p, k - 1, Place(b, k - 1, p));
        FindGrows(n, Probe(n, c, b, p, k - 1), Place(b, k - 1, p));
      }
    }
  }

  lemma SeenIsLearnt(n: nat, c: Cache, b: Board, p: Player, i: nat)
    requires n >= 2 && Valid(n, c) && Bounded(c) && |c.order| + N_GRIDS <= n - 1 && i < N_GRIDS && b[i] == Empty
    ensures CanSee(n, c, b, p, i) && Seen(n, c, b, p, i) == Learnt(c, b, p, i)
  {
    hide Find, InitialScores, Bounded, Valid, Probe;
    SeenBound(n, c, b, p, i);
    ProbeSeesBefore(n, c, b, p, i + 1, Place(b, i, p));
  }

  /** The play is greedy: of all the moves there are, none leads to a board that was learnt, or
      at first estimated, to be worth more to the side that makes it. */
  lemma BestIsGreedy(n: nat, c: Cache, b: Board, p: Player, act: int, q: int, m: nat)
    requires n >= 2 && Valid(n, c) && Bounded(c) && |c.order| + N_GRIDS <= n - 1
    requires BestBelow(n, c, b, p, N_GRIDS, act, q) && m < N_GRIDS && b[m] == Empty
    ensures b[act] == Empty && Learnt(c, b, p, m) <= Learnt(c, b, p, act)
  {
    hide Find, InitialScores, Bounded, Valid, Probe, Learnt, Seen;
    SeenIsLearnt(n, c, b, p, m);
    SeenIsLearnt(n, c, b, p, act);
  }
}
