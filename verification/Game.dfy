/** The 4x4, three-in-a-row game on abstract boards: moves, verdicts and the
    static score that the search uses. */
module Game {
  import opened Basics
  import WinLines

  const BOARD_SIZE: nat := 4
  const GOAL: nat := 3
  const N_GRIDS: nat := 16
  const N_LINES: nat := 24

  datatype Cell = Empty | O | X

  type Player = c: Cell | c != Empty witness O

  type Board = b: seq<Cell> | |b| == N_GRIDS witness seq(N_GRIDS, _ => Empty)

  datatype Verdict = Ongoing | Won(winner: Player) | Drawn

  const EMPTY_BOARD: Board := [
    Empty, Empty, Empty, Empty, Empty, Empty, Empty, Empty,
    Empty, Empty, Empty, Empty, Empty, Empty, Empty, Empty]

  function Other(p: Player): Player {
    if p == O then X else O
  }

  function Place(b: Board, i: nat, c: Cell): Board
    requires i < N_GRIDS
  {
    b[i := c]
  }

  // ---- Lines and verdicts ----

  /** One entry of the segment table: the cells of a run. */
  type Line = l: seq<nat> | |l| == GOAL && forall k :: 0 <= k < GOAL ==> l[k] < N_GRIDS witness [0, 1, 2]

  function LineCell(w: nat, k: nat): (c: nat)
    requires w < N_LINES && k < GOAL
    ensures c < N_GRIDS
  {
    assert 0 <= WinLines.RunCell(BOARD_SIZE, GOAL, WinLines.StartAt(BOARD_SIZE, GOAL, w), k) < N_GRIDS by {
      WinLines.SegmentsInRange(BOARD_SIZE, GOAL, w, k);
      assert WinLines.Segment(BOARD_SIZE, GOAL, w)[k]
          == WinLines.RunCell(BOARD_SIZE, GOAL, WinLines.StartAt(BOARD_SIZE, GOAL, w), k);
    }
    WinLines.RunCell(BOARD_SIZE, GOAL, WinLines.StartAt(BOARD_SIZE, GOAL, w), k)
  }

  /** The segment table of this board size and goal. */
  function Lines(): (table: seq<Line>)
    ensures |table| == N_LINES
  {
    seq(N_LINES, w requires 0 <= w < N_LINES => LineAt(w))
  }

  function LineAt(w: nat): Line
    requires w < N_LINES
  {
    [LineCell(w, 0), LineCell(w, 1), LineCell(w, 2)]
  }

  /** The table used by the game is the one the general set-up computes. */
  lemma LinesAreSegments(w: nat)
    requires w < N_LINES
    ensures Lines()[w] == WinLines.Segment(BOARD_SIZE, GOAL, w)
  {
    assert Lines()[w] == LineAt(w);
  }

  predicate HasLine(b: Board, line: Line, p: Player) {
    b[line[0]] == p && b[line[1]] == p && b[line[2]] == p
  }

  predicate HasEmpty(b: Board) {
    exists i :: 0 <= i < N_GRIDS && b[i] == Empty
  }

  /** The scan of `check_win` from the w-th pattern on: O is tried before X. */
  function VerdictFrom(b: Board, lines: seq<Line>, w: nat): Verdict
    requires w <= |lines|
    decreases |lines| - w
  {
    if w == |lines| then (if HasEmpty(b) then Ongoing else Drawn)
    else if HasLine(b, lines[w], O) then Won(O)
    else if HasLine(b, lines[w], X) then Won(X)
    else VerdictFrom(b, lines, w + 1)
  }

  function CheckWin(b: Board): Verdict {
    VerdictFrom(b, Lines(), 0)
  }

  ghost predicate AnyLine(b: Board, lines: seq<Line>, p: Player) {
    exists w: nat :: w < |lines| && HasLine(b, lines[w], p)
  }

  ghost predicate NoLine(b: Board, lines: seq<Line>, from: nat, to: nat)
    requires to <= |lines|
  {
    forall u :: from <= u < to ==> !HasLine(b, lines[u], O) && !HasLine(b, lines[u], X)
  }

  /** Pattern v decides the scan that starts at pattern w, in favour of p. */
  ghost predicate Decides(b: Board, lines: seq<Line>, w: nat, v: nat, p: Player) {
    w <= v < |lines| && HasLine(b, lines[v], p) && (p == X ==> !HasLine(b, lines[v], O)) && NoLine(b, lines, w, v)
  }

  lemma {:induction false} ScanDecides(b: Board, lines: seq<Line>, w: nat) returns (v: nat)
    requires w <= |lines|
    ensures VerdictFrom(b, lines, w).Won? ==> Decides(b, lines, w, v, VerdictFrom(b, lines, w).winner)
    ensures !VerdictFrom(b, lines, w).Won? ==> NoLine(b, lines, w, |lines|)
    ensures !VerdictFrom(b, lines, w).Won? ==> VerdictFrom(b, lines, w) == if HasEmpty(b) then Ongoing else Drawn
    decreases |lines| - w
  {
    v := w;
    if w < |lines| && !HasLine(b, lines[w], O) && !HasLine(b, lines[w], X) {
      v := ScanDecides(b, lines, w + 1);
    }
  }

  lemma {:induction false} DecidesScan(b: Board, lines: seq<Line>, w: nat, v: nat, p: Player)
    requires Decides(b, lines, w, v, p)
    ensures VerdictFrom(b, lines, w) == Won(p)
    decreases v - w
  {
    if w < v {
      DecidesScan(b, lines, w + 1, v, p);
    }
  }

  /** On any board the verdict is that of the first pattern either side holds, and
      it is a draw or still open exactly when no pattern is held. */
  lemma CheckWinFirstLine(b: Board, p: Player)
    ensures CheckWin(b) == Won(p) <==> exists v: nat :: Decides(b, Lines(), 0, v, p)
    ensures CheckWin(b) == Drawn <==> NoLine(b, Lines(), 0, N_LINES) && !HasEmpty(b)
    ensures CheckWin(b) == Ongoing <==> NoLine(b, Lines(), 0, N_LINES) && HasEmpty(b)
  {
    var lines := Lines();
    var v := ScanDecides(b, lines, 0);
    if u: nat :| Decides(b, lines, 0, u, p) {
      DecidesScan(b, lines, 0, u, p);
    }
  }

  // ---- The cell-by-cell reading ----

  /** Three in a row, cell by cell: a straight run of the board all held by p. */
  ghost predicate StraightLine(b: Board, p: Player) {
    exists i, j, di, dj :: HoldsRun(b, p, i, j, di, dj)
  }

  ghost predicate HoldsRun(b: Board, p: Player, i: int, j: int, di: int, dj: int) {
    WinLines.IsStraightRun(BOARD_SIZE, GOAL, i, j, di, dj)
    && HoldsAll(b, p, WinLines.Run(BOARD_SIZE, GOAL, i, j, di, dj))
  }

  ghost predicate HoldsAll(b: Board, p: Player, cells: seq<int>) {
    forall c :: c in cells ==> 0 <= c < N_GRIDS && b[c] == p
  }

  lemma LineIsSegment(b: Board, w: nat, p: Player)
    requires w < N_LINES
    ensures HasLine(b, Lines()[w], p) <==> HoldsAll(b, p, WinLines.Segment(BOARD_SIZE, GOAL, w))
  {
    LinesAreSegments(w);
    var line := Lines()[w];
    assert line == [line[0], line[1], line[2]];
  }

  lemma ReverseSame(s: seq<int>)
    ensures forall c :: c in WinLines.Reverse(s) <==> c in s
  {
    forall c | c in s
      ensures c in WinLines.Reverse(s)
    {
      var k :| 0 <= k < |s| && s[k] == c;
      assert WinLines.Reverse(s)[|s| - 1 - k] == c;
    }
  }

  lemma LineIsStraight(b: Board, p: Player, w: nat)
    requires w < N_LINES && HasLine(b, Lines()[w], p)
    ensures StraightLine(b, p)
  {
    LineIsSegment(b, w, p);
    var i, j, di, dj := WinLines.SegmentIsRun(BOARD_SIZE, GOAL, w);
    assert HoldsRun(b, p, i, j, di, dj);
  }

  lemma StraightIsLine(b: Board, p: Player, i: int, j: int, di: int, dj: int)
    requires HoldsRun(b, p, i, j, di, dj)
    ensures AnyLine(b, Lines(), p)
  {
    var w := WinLines.EveryRunListed(BOARD_SIZE, GOAL, i, j, di, dj);
    ReverseSame(WinLines.Run(BOARD_SIZE, GOAL, i, j, di, dj));
    LineIsSegment(b, w, p);
  }

  /** The pattern table sees exactly the straight lines of the board. */
  lemma AnyLineIsStraightLine(b: Board, p: Player)
    ensures AnyLine(b, Lines(), p) <==> StraightLine(b, p)
  {
    if AnyLine(b, Lines(), p) {
      var w: nat :| w < N_LINES && HasLine(b, Lines()[w], p);
      LineIsStraight(b, p, w);
    }
    if StraightLine(b, p) {
      var i, j, di, dj :| HoldsRun(b, p, i, j, di, dj);
      StraightIsLine(b, p, i, j, di, dj);
    }
  }

  /** While at most one side has a line, the scan order does not show: the verdict
      is the cell-by-cell one. */
  lemma CheckWinCellByCell(b: Board)
    requires !(StraightLine(b, O) && StraightLine(b, X))
    ensures CheckWin(b) == Won(O) <==> StraightLine(b, O)
    ensures CheckWin(b) == Won(X) <==> StraightLine(b, X)
    ensures CheckWin(b) == Drawn <==> !StraightLine(b, O) && !StraightLine(b, X) && !HasEmpty(b)
    ensures CheckWin(b) == Ongoing <==> !StraightLine(b, O) && !StraightLine(b, X) && HasEmpty(b)
  {
    AnyLineIsStraightLine(b, O);
    AnyLineIsStraightLine(b, X);
    var v := ScanDecides(b, Lines(), 0);
  }

  // ---- Empty cells ----

  /** The empty cells below n, ascending. */
  function EmptyCellsTo(b: Board, n: nat): (cells: seq<nat>)
    requires n <= N_GRIDS
    ensures |cells| <= n
  {
    if n == 0 then []
    else if b[n - 1] == Empty then EmptyCellsTo(b, n - 1) + [n - 1]
    else EmptyCellsTo(b, n - 1)
  }

  function EmptyCells(b: Board): seq<nat> {
    EmptyCellsTo(b, N_GRIDS)
  }

  function Blanks(b: Board): (n: nat)
    ensures n <= N_GRIDS
  {
    |EmptyCells(b)|
  }

  lemma {:induction false} EmptyCellsToAre(b: Board, n: nat)
    requires n <= N_GRIDS
    ensures forall c :: c in EmptyCellsTo(b, n) <==> 0 <= c < n && b[c] == Empty
    ensures forall i, j :: 0 <= i < j < |EmptyCellsTo(b, n)| ==> EmptyCellsTo(b, n)[i] < EmptyCellsTo(b, n)[j]
  {
    if n > 0 {
      EmptyCellsToAre(b, n - 1);
      var before := EmptyCellsTo(b, n - 1);
      assert forall i :: 0 <= i < |before| ==> before[i] in before;
    }
  }

  lemma {:induction false} PlaceTakesOneTo(b: Board, m: nat, c: Cell, n: nat)
    requires m < N_GRIDS && n <= N_GRIDS && b[m] == Empty && c != Empty
    ensures |EmptyCellsTo(b, n)| == |EmptyCellsTo(Place(b, m, c), n)| + (if m < n then 1 else 0)
  {
    if n > 0 {
      PlaceTakesOneTo(b, m, c, n - 1);
    }
  }

  /** Putting a stone on an empty cell uses up exactly one empty cell. */
  lemma PlaceTakesOne(b: Board, m: nat, c: Cell)
    requires m < N_GRIDS && b[m] == Empty && c != Empty
    ensures Blanks(b) == Blanks(Place(b, m, c)) + 1
  {
    PlaceTakesOneTo(b, m, c, N_GRIDS);
  }

  lemma BlanksPositive(b: Board)
    ensures 0 < Blanks(b) <==> HasEmpty(b)
  {
    EmptyCellsToAre(b, N_GRIDS);
    if 0 < Blanks(b) {
      assert EmptyCells(b)[0] in EmptyCells(b);
    }
  }

  /** An unfinished board has a move. */
  lemma OngoingHasMove(b: Board)
    requires CheckWin(b) == Ongoing
    ensures HasEmpty(b) && 0 < Blanks(b)
  {
    var v := ScanDecides(b, Lines(), 0);
    BlanksPositive(b);
  }

  /** `available_moves`: the empty cells in ascending order, then a -1 mark when
      there is room, then the zeros of the fresh buffer. */
  method AvailableMoves(b: Board) returns (moves: array<int>)
    ensures fresh(moves) && moves.Length == N_GRIDS
    ensures moves[..Blanks(b)] == EmptyCells(b)
    ensures Blanks(b) < N_GRIDS ==> moves[Blanks(b)] == -1
    ensures forall k :: Blanks(b) < k < N_GRIDS ==> moves[k] == 0
  {
    moves := new int[N_GRIDS](_ => 0);
    var m := 0;
    for i := 0 to N_GRIDS
      invariant m == |EmptyCellsTo(b, i)|
      invariant moves[..m] == EmptyCellsTo(b, i)
      invariant forall k :: m <= k < N_GRIDS ==> moves[k] == 0
    {
      if b[i] == Empty {
        moves[m] := i;
        m := m + 1;
      }
    }
    if m < N_GRIDS {
      moves[m] := -1;
    }
  }

  /** The counting loop every user of the list runs: it recovers the number of moves. */
  method CountMoves(b: Board, moves: array<int>) returns (n: nat)
    requires moves.Length == N_GRIDS && moves[..Blanks(b)] == EmptyCells(b)
    requires Blanks(b) < N_GRIDS ==> moves[Blanks(b)] == -1
    ensures n == Blanks(b)
  {
    assert forall k :: 0 <= k < Blanks(b) ==> moves[k] == EmptyCells(b)[k];
    n := 0;
    while n < N_GRIDS && moves[n] != -1
      invariant n <= Blanks(b)
    {
      n := n + 1;
    }
  }

  // ---- Static score ----

  /** How many of the first n cells of the line hold c. */
  function CountTo(b: Board, line: Line, c: Cell, n: nat): nat
    requires n <= GOAL
  {
    if n == 0 then 0 else CountTo(b, line, c, n - 1) + (if b[line[n - 1]] == c then 1 else 0)
  }

  function Tenfold(n: nat): int {
    if n == 0 then 1 else 10 * Tenfold(n - 1)
  }

  /** What a line is worth to a side with `mine` stones of its own in it and
      `theirs` of the other's: nothing once both sides are in it. */
  function Worth(mine: nat, theirs: nat): int {
    if mine > 0 && theirs > 0 then 0
    else if mine > 0 then Tenfold(mine - 1)
    else if theirs > 0 then -Tenfold(theirs - 1)
    else 0
  }

  function LineScore(b: Board, p: Player, line: Line): int {
    Worth(CountTo(b, line, p, GOAL), CountTo(b, line, Other(p), GOAL))
  }

  function ScoreTo(b: Board, p: Player, lines: seq<Line>, n: nat): int
    requires n <= |lines|
  {
    if n == 0 then 0 else ScoreTo(b, p, lines, n - 1) + LineScore(b, p, lines[n - 1])
  }

  function Score(b: Board, p: Player): int {
    ScoreTo(b, p, Lines(), N_LINES)
  }

  lemma TenfoldSmall()
    ensures Tenfold(0) == 1 && Tenfold(1) == 10 && Tenfold(2) == 100
  {
    assert Tenfold(1) == 10 * Tenfold(0);
  }

  lemma CountBound(b: Board, line: Line, p: Player, n: nat)
    requires n <= GOAL
    ensures CountTo(b, line, p, n) + CountTo(b, line, Other(p), n) <= n
  {
  }

  lemma LineScoreFacts(b: Board, p: Player, line: Line)
    ensures LineScore(b, Other(p), line) == -LineScore(b, p, line)
    ensures -100 <= LineScore(b, p, line) <= 100
  {
    TenfoldSmall();
    CountBound(b, line, p, GOAL);
    var mine, theirs := CountTo(b, line, p, GOAL), CountTo(b, line, Other(p), GOAL);
    assert mine == 0 || mine == 1 || mine == 2 || mine == 3;
    assert theirs == 0 || theirs == 1 || theirs == 2 || theirs == 3;
  }

  lemma {:induction false} ScoreToFacts(b: Board, p: Player, lines: seq<Line>, n: nat)
    requires n <= |lines|
    ensures ScoreTo(b, Other(p), lines, n) == -ScoreTo(b, p, lines, n)
    ensures -100 * n <= ScoreTo(b, p, lines, n) <= 100 * n
  {
    if n > 0 {
      ScoreToFacts(b, p, lines, n - 1);
      LineScoreFacts(b, p, lines[n - 1]);
    }
  }

  /** The static score is zero-sum and bounded by a hundred per line. */
  lemma ScoreFacts(b: Board, p: Player)
    ensures Score(b, Other(p)) == -Score(b, p)
    ensures -2400 <= Score(b, p) <= 2400
  {
    ScoreToFacts(b, p, Lines(), N_LINES);
  }

  /** The accumulating loop over one line, with its early exits. */
  method EvalLineSegmentScore(b: Board, p: Player, line: Line) returns (score: int)
    ensures score == LineScore(b, p, line)
  {
    TenfoldSmall();
    score := 0;
    for j := 0 to GOAL
      invariant CountTo(b, line, p, j) == 0 || CountTo(b, line, Other(p), j) == 0
      invariant score == Worth(CountTo(b, line, p, j), CountTo(b, line, Other(p), j))
      invariant CountTo(b, line, p, j) + CountTo(b, line, Other(p), j) <= j
      invariant score > 0 <==> CountTo(b, line, p, j) > 0
      invariant score < 0 <==> CountTo(b, line, Other(p), j) > 0
    {
      var curr := b[line[j]];
      if curr == p {
        if score < 0 {
          CountGrows(b, line, j + 1);
          return 0;
        }
        if score != 0 {
          score := score * 10;
        } else {
          score := 1;
        }
      } else if curr != Empty {
        if score > 0 {
          CountGrows(b, line, j + 1);
          return 0;
        }
        if score != 0 {
          score := score * 10;
        } else {
          score := -1;
        }
      }
    }
  }

  lemma CountGrows(b: Board, line: Line, n: nat)
    requires n <= GOAL
    ensures forall c :: CountTo(b, line, c, n) <= CountTo(b, line, c, GOAL)
    decreases GOAL - n
  {
    if n < GOAL {
      CountGrows(b, line, n + 1);
    }
  }

  method GetScore(b: Board, p: Player) returns (score: int)
    ensures score == Score(b, p)
  {
    var lines := Lines();
    score := 0;
    for i := 0 to N_LINES
      invariant score == ScoreTo(b, p, lines, i)
    {
      var s := EvalLineSegmentScore(b, p, lines[i]);
      score := score + s;
    }
  }

  // ---- Value of a finished game ----

  const FIXED_HALF: int := 32768

  /** One for the winner, nothing for the loser, a half otherwise. */
  function WinValue(v: Verdict, p: Player): int {
    if v == Won(p) then ONE
    else if v == Won(Other(p)) then 0
    else FIXED_HALF
  }

  /** Whatever the verdict, the two sides share one unit. */
  lemma WinValueShared(v: Verdict, p: Player)
    ensures WinValue(v, p) + WinValue(v, Other(p)) == ONE
    ensures 0 <= WinValue(v, p) <= ONE
  {
  }
}
