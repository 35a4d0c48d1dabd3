/** The move record of a game: replaying it rebuilds the board. */
module Record {
  import opened Game

  /** A 4-bit entry of the record. */
  type CellIndex = n: nat | n < N_GRIDS

  /** Sixteen entries: entry k is the cell of move k. */
  type Moves = r: seq<CellIndex> | |r| == N_GRIDS witness [0, 0, 0, 0, 0, 0, 0, 0, 0, 0, 0, 0, 0, 0, 0, 0]

  const NO_MOVES: Moves := [0, 0, 0, 0, 0, 0, 0, 0, 0, 0, 0, 0, 0, 0, 0, 0]

  /** The attribute word: game id, number of moves played, and the pair of agents. */
  datatype Attr = Attr(id: nat, steps: nat, alg: nat)

  /** O moves first. */
  function Mover(k: nat): Player {
    if k % 2 == 0 then O else X
  }

  function Replay(r: Moves, k: nat): Board
    requires k <= N_GRIDS
  {
    if k == 0 then EMPTY_BOARD else Place(Replay(r, k - 1), r[k - 1], Mover(k - 1))
  }

  /** Move j goes to a cell that is empty when it is played. */
  predicate PlaysEmpty(r: Moves, j: nat)
    requires j < N_GRIDS
  {
    Replay(r, j)[r[j]] == Empty
  }

  ghost predicate LegalTo(r: Moves, k: nat)
    requires k <= N_GRIDS
  {
    forall j :: 0 <= j < k ==> PlaysEmpty(r, j)
  }

  /** The record of `attr.steps` moves is legal and rebuilds the table. */
  ghost predicate RecordOk(attr: Attr, table: Board, r: Moves) {
    attr.steps <= N_GRIDS && table == Replay(r, attr.steps) && LegalTo(r, attr.steps)
  }

  lemma {:induction false} EmptyBoardBlanks(n: nat)
    requires n <= N_GRIDS
    ensures |EmptyCellsTo(EMPTY_BOARD, n)| == n
  {
    if n > 0 {
      EmptyBoardBlanks(n - 1);
    }
  }

  /** A legal record has as many stones on the board as moves. */
  lemma {:induction false} StonesAreSteps(r: Moves, k: nat)
    requires k <= N_GRIDS && LegalTo(r, k)
    ensures Blanks(Replay(r, k)) == N_GRIDS - k
  {
    if k == 0 {
      EmptyBoardBlanks(N_GRIDS);
    } else {
      StonesAreSteps(r, k - 1);
      assert PlaysEmpty(r, k - 1);
      PlaceTakesOne(Replay(r, k - 1), r[k - 1], Mover(k - 1));
    }
  }

  /** A stone stays where its move put it. */
  lemma {:induction false} StoneStays(r: Moves, i: nat, k: nat)
    requires i < k <= N_GRIDS && LegalTo(r, k)
    ensures Replay(r, k)[r[i]] == Mover(i)
  {
    hide EMPTY_BOARD;
    assert PlaysEmpty(r, k - 1);
    if i < k - 1 {
      StoneStays(r, i, k - 1);
    }
  }

  /** No cell is played twice. */
  lemma MovesDistinct(r: Moves, i: nat, j: nat, k: nat)
    requires i < j < k <= N_GRIDS && LegalTo(r, k)
    ensures r[i] != r[j]
  {
    StoneStays(r, i, j);
    assert PlaysEmpty(r, j);
  }

  lemma {:induction false} ReplayPrefix(r: Moves, q: Moves, k: nat)
    requires k <= N_GRIDS && forall j :: 0 <= j < k ==> r[j] == q[j]
    ensures Replay(r, k) == Replay(q, k)
  {
    if k > 0 {
      ReplayPrefix(r, q, k - 1);
    }
  }

  lemma ReplayUpdated(r: Moves, steps: nat, m: CellIndex)
    requires steps < N_GRIDS
    ensures forall k :: 0 <= k <= steps ==> Replay(r[steps := m], k) == Replay(r, k)
  {
    forall k | 0 <= k <= steps
      ensures Replay(r[steps := m], k) == Replay(r, k)
    {
      ReplayPrefix(r[steps := m], r, k);
    }
  }

  /** Appending a legal move extends the record by one step. */
  lemma AppendMove(attr: Attr, table: Board, r: Moves, m: CellIndex)
    requires RecordOk(attr, table, r) && table[m] == Empty
    ensures attr.steps < N_GRIDS
    ensures RecordOk(attr.(steps := attr.steps + 1), Place(table, m, Mover(attr.steps)), r[attr.steps := m])
  {
    hide EmptyCells, CheckWin, EMPTY_BOARD, Mover;
    StonesAreSteps(r, attr.steps);
    BlanksPositive(table);
    ReplayUpdated(r, attr.steps, m);
    var q := r[attr.steps := m];
    forall j | 0 <= j <= attr.steps
      ensures PlaysEmpty(q, j)
    {
      assert j < attr.steps ==> PlaysEmpty(r, j);
    }
  }

  lemma EmptyRecordOk(id: nat, alg: nat, r: Moves)
    ensures RecordOk(Attr(id, 0, alg), EMPTY_BOARD, r)
  {
  }

  lemma EmptyBoardOngoing()
    ensures CheckWin(EMPTY_BOARD) == Ongoing
  {
    var v := ScanDecides(EMPTY_BOARD, Lines(), 0);
    assert EMPTY_BOARD[0] == Empty;
  }

  // ---- The learning episode ----

  ghost predicate EntryOk(b: Board, reward: int, r: Moves, steps: nat, k: nat)
    requires k < N_GRIDS
  {
    (b == EMPTY_BOARD && reward == 0)
    || (k < steps && b == Replay(r, k + 1) && reward == WinValue(CheckWin(b), Mover(k)))
  }

  type Episode = e: seq<Board> | |e| == N_GRIDS witness [
    EMPTY_BOARD, EMPTY_BOARD, EMPTY_BOARD, EMPTY_BOARD, EMPTY_BOARD, EMPTY_BOARD, EMPTY_BOARD, EMPTY_BOARD,
    EMPTY_BOARD, EMPTY_BOARD, EMPTY_BOARD, EMPTY_BOARD, EMPTY_BOARD, EMPTY_BOARD, EMPTY_BOARD, EMPTY_BOARD]
  type Rewards = w: seq<int> | |w| == N_GRIDS witness [0, 0, 0, 0, 0, 0, 0, 0, 0, 0, 0, 0, 0, 0, 0, 0]

  const NO_EPISODE: Episode := [
    EMPTY_BOARD, EMPTY_BOARD, EMPTY_BOARD, EMPTY_BOARD, EMPTY_BOARD, EMPTY_BOARD, EMPTY_BOARD, EMPTY_BOARD,
    EMPTY_BOARD, EMPTY_BOARD, EMPTY_BOARD, EMPTY_BOARD, EMPTY_BOARD, EMPTY_BOARD, EMPTY_BOARD, EMPTY_BOARD]
  const NO_REWARDS: Rewards := [0, 0, 0, 0, 0, 0, 0, 0, 0, 0, 0, 0, 0, 0, 0, 0]

  /** Every entry is blank, or the board after that step of this very record together with
      what that board is worth to the side that moved. */
  ghost predicate EpisodeOk(e: Episode, w: Rewards, r: Moves, steps: nat) {
    forall k :: 0 <= k < N_GRIDS ==> EntryOk(e[k], w[k], r, steps, k)
  }

  lemma BlankEpisodeOk(r: Moves, steps: nat)
    ensures EpisodeOk(NO_EPISODE, NO_REWARDS, r, steps)
  {
  }

  lemma EpisodeKeepsPrefix(e: Episode, w: Rewards, r: Moves, steps: nat, m: CellIndex)
    requires EpisodeOk(e, w, r, steps) && steps < N_GRIDS
    ensures EpisodeOk(e, w, r[steps := m], steps)
  {
    hide CheckWin, WinValue;
    ReplayUpdated(r, steps, m);
    forall k | 0 <= k < N_GRIDS
      ensures EntryOk(e[k], w[k], r[steps := m], steps, k)
    {
      assert EntryOk(e[k], w[k], r, steps, k);
    }
  }

  lemma EpisodeOneMore(e: Episode, w: Rewards, r: Moves, steps: nat)
    requires EpisodeOk(e, w, r, steps)
    ensures EpisodeOk(e, w, r, steps + 1)
  {
    hide CheckWin, WinValue;
    forall k | 0 <= k < N_GRIDS
      ensures EntryOk(e[k], w[k], r, steps + 1, k)
    {
      assert EntryOk(e[k], w[k], r, steps, k);
    }
  }

  lemma EpisodeRecorded(e: Episode, w: Rewards, r: Moves, steps: nat, b: Board)
    requires EpisodeOk(e, w, r, steps) && steps < N_GRIDS && b == Replay(r, steps + 1)
    ensures EpisodeOk(e[steps := b], w[steps := WinValue(CheckWin(b), Mover(steps))], r, steps + 1)
  {
    hide CheckWin, WinValue;
    forall k | 0 <= k < N_GRIDS && k != steps
      ensures EntryOk(e[k], w[k], r, steps + 1, k)
    {
      assert EntryOk(e[k], w[k], r, steps, k);
    }
  }
}
