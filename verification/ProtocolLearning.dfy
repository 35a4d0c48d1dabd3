/** What the games hand the learner is what the learner's bound assumes. */
module ProtocolLearning {
  import opened Basics
  import opened Game
  import opened Record
  import opened Protocol
  import opened ProtocolSafety
  import RecencyMap
  import Learning
  import EpisodeValues
  import ProtocolEpisodes

  function AsEpisode(u: Update): Learning.Op
    requires u.win.Won?
  {
    Learning.Op.Episode(u.episode, u.reward, u.steps, u.win.winner)
  }

  /** Every update handed out is a well-formed episode with rewards between nothing and one. */
  lemma UpdateIsEpisode(run: seq<State>, events: seq<Event>, k: nat, i: nat)
    requires IsRun(run, events) && k < |run| && i < |run[k].updates|
    ensures run[k].updates[i].win.Won? && Learning.OpOk(AsEpisode(run[k].updates[i]))
  {
    UpdatesBelongToOneGame(run, events, k, i);
    hide IsRun, WinValue, CheckWin, LegalTo;
    var u := run[k].updates[i];
    forall j | 0 <= j < u.steps
      ensures 0 <= u.reward[j] <= ONE
    {
      WinValueShared(CheckWin(u.episode[j]), Mover(j));
    }
  }

  /** The operation is the i-th update of state k of some run of a game. */
  ghost predicate HandedOut(run: seq<State>, events: seq<Event>, k: nat, i: nat, op: Learning.Op) {
    IsRun(run, events) && k < |run| && i < |run[k].updates| && run[k].updates[i].win.Won?
    && op == AsEpisode(run[k].updates[i])
  }

  /** What reaches the learner's cache: lookups, and the updates of any games. */
  ghost predicate FromGames(op: Learning.Op) {
    op.Episode? ==> exists run, events, k, i :: HandedOut(run, events, k, i, op)
  }

  lemma FromGamesOk(op: Learning.Op)
    requires FromGames(op)
    ensures Learning.OpOk(op)
  {
    hide IsRun;
    if op.Episode? {
      var run, events, k, i :| HandedOut(run, events, k, i, op);
      UpdateIsEpisode(run, events, k, i);
    }
  }

  /** However many games run, however their workers interleave, and whatever is looked up in
      between: no score the learner keeps ever leaves its bound. */
  lemma GamesKeepBound(n: nat, ops: seq<Learning.Op>)
    requires n >= 2 && forall i :: 0 <= i < |ops| ==> FromGames(ops[i])
    ensures Learning.OpsOk(ops) && Learning.Bounded(Learning.After(n, ops))
  {
    hide FromGames, Learning.OpOk, Learning.Bounded;
    forall i | 0 <= i < |ops|
      ensures Learning.OpOk(ops[i])
    {
      FromGamesOk(ops[i]);
    }
    Learning.RunsStayBounded(n, ops);
  }

  // ---- What a won game teaches ----

  /** The boards of an episode are all different: each has one stone more than the one before. */
  lemma EpisodeBoardsDiffer(run: seq<State>, events: seq<Event>, k: nat, i: nat)
    requires IsRun(run, events) && k < |run| && i < |run[k].updates|
    ensures run[k].updates[i].steps <= N_GRIDS
    ensures EpisodeValues.RecordedOnce(run[k].updates[i].episode, run[k].updates[i].steps)
  {
    UpdatesBelongToOneGame(run, events, k, i);
    hide IsRun, WinValue, CheckWin, LegalTo;
    var u := run[k].updates[i];
    forall a, b | 0 <= a < b < u.steps && u.episode[a] != EMPTY_BOARD
      ensures u.episode[a] != u.episode[b]
    {
      if u.episode[b] != EMPTY_BOARD {
        ReplaysDiffer(u.moves, u.steps, a + 1, b + 1);
      }
    }
  }

  lemma ReplaysDiffer(r: Moves, steps: nat, a: nat, b: nat)
    requires a < b <= steps <= N_GRIDS && LegalTo(r, steps)
    ensures Replay(r, a) != Replay(r, b)
  {
    assert LegalTo(r, a) && LegalTo(r, b) by {
      hide Replay;
    }
    StonesAreSteps(r, a);
    StonesAreSteps(r, b);
  }

  lemma BlankFirst(r: Moves, steps: nat, k: nat)
    requires 0 < k <= steps <= N_GRIDS && LegalTo(r, steps)
    ensures Replay(r, k) != EMPTY_BOARD
  {
    ReplaysDiffer(r, steps, 0, k);
  }

  /** What the update leaves of the board after the winner's move j: the winner's score has moved
      from where it was towards what the board is worth, less the discounted score of the next
      recorded board, and the loser's score is untouched. */
  ghost predicate Taught(n: nat, c: RecencyMap.Cache, u: Update, j: nat)
    requires n >= 2 && RecencyMap.Valid(n, c) && Learning.Bounded(c) && Learning.OpOk(AsWonBy(u, Mover(j)))
    requires j < u.steps <= N_GRIDS
  {
    var p, b := Mover(j), Replay(u.moves, j + 1);
    var result := Learning.Backward(n, c, u.episode, u.reward, u.steps, 0, p);
    b in result.scores
    && RecencyMap.ScoreOf(result.scores[b], p)
       == EpisodeValues.Target(RecencyMap.ScoreOf(EpisodeValues.ScoresSoFar(c, b), p), WinValue(CheckWin(b), p),
                               EpisodeValues.ValueAfter(u.episode, j, u.steps, 0, p, result))
    && RecencyMap.ScoreOf(result.scores[b], Other(p)) == RecencyMap.ScoreOf(EpisodeValues.ScoresSoFar(c, b), Other(p))
  }

  function AsWonBy(u: Update, p: Player): Learning.Op {
    Learning.Op.Episode(u.episode, u.reward, u.steps, p)
  }

  lemma UpdateTeaches(n: nat, c: RecencyMap.Cache, u: Update, j: nat)
    requires n >= 2 && RecencyMap.Valid(n, c) && Learning.Bounded(c) && Learning.OpOk(AsWonBy(u, Mover(j)))
    requires j < u.steps <= N_GRIDS && |c.order| + u.steps <= n - 1 && EpisodeValues.RecordedOnce(u.episode, u.steps)
    requires u.episode[j] == Replay(u.moves, j + 1) != EMPTY_BOARD
    requires u.reward[j] == WinValue(CheckWin(Replay(u.moves, j + 1)), Mover(j))
    ensures Taught(n, c, u, j)
  {
    hide WinValue, CheckWin, EpisodeValues.Target, Learning.Bounded, RecencyMap.Valid, Learning.Backward, Replay,
         EpisodeValues.ValueAfter, EpisodeValues.ScoresSoFar, EpisodeValues.RecordedOnce, EpisodeValues.Among;
    EpisodeValues.EpisodeTeaches(n, c, u.episode, u.reward, u.steps, Mover(j));
  }

  /** A game the winner's agent learns from, given to a cache with room for it, teaches the board
      after every one of the winner's moves. */
  lemma WonGameTeaches(run: seq<State>, events: seq<Event>, k: nat, i: nat, n: nat, c: RecencyMap.Cache, j: nat)
    requires IsRun(run, events) && k < |run| && i < |run[k].updates|
    requires n >= 2 && RecencyMap.Valid(n, c) && Learning.Bounded(c) && |c.order| + run[k].updates[i].steps <= n - 1
    requires j < run[k].updates[i].steps && run[k].updates[i].win == Won(Mover(j))
    ensures Learning.OpOk(AsWonBy(run[k].updates[i], Mover(j))) && run[k].updates[i].steps <= N_GRIDS
    ensures Taught(n, c, run[k].updates[i], j)
  {
    var u := run[k].updates[i];
    UpdateIsEpisode(run, events, k, i);
    EpisodeBoardsDiffer(run, events, k, i);
    UpdatesBelongToOneGame(run, events, k, i);
    ProtocolEpisodes.UpdatesComplete(run, events, k, i, j);
    hide IsRun, WinValue, CheckWin, LegalTo, RecencyMap.Valid, Learning.Bounded, EpisodeValues.RecordedOnce, Taught,
         Replay, EMPTY_BOARD;
    BlankFirst(u.moves, u.steps, j + 1);
    UpdateTeaches(n, c, u, j);
  }
}
