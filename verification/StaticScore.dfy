/** What the static score and the value of a finished game say, read off the cells. */
module StaticScore {
  import opened Basics
  import opened Game

  // ---- One line ----

  /** Some cell of the line holds c. */
  ghost predicate Touches(b: Board, line: Line, c: Cell) {
    exists k: nat :: k < GOAL && b[line[k]] == c
  }

  /** Both sides have a stone in the line: nobody can complete it. */
  ghost predicate Mixed(b: Board, line: Line) {
    Touches(b, line, O) && Touches(b, line, X)
  }

  lemma {:induction false} CountTouches(b: Board, line: Line, c: Cell, n: nat)
    requires n <= GOAL
    ensures CountTo(b, line, c, n) > 0 <==> exists k: nat :: k < n && b[line[k]] == c
    ensures CountTo(b, line, c, n) == n <==> forall k: nat :: k < n ==> b[line[k]] == c
    ensures CountTo(b, line, c, n) <= n
  {
    if n > 0 {
      CountTouches(b, line, c, n - 1);
    }
  }

  /** How many of its three cells c holds. */
  function Stones(b: Board, line: Line, c: Cell): (n: nat)
    ensures n <= 3
  {
    (if b[line[0]] == c then 1 else 0) + (if b[line[1]] == c then 1 else 0) + (if b[line[2]] == c then 1 else 0)
  }

  lemma CountStones(b: Board, line: Line, c: Cell)
    ensures CountTo(b, line, c, GOAL) == Stones(b, line, c)
  {
    assert CountTo(b, line, c, 1) == if b[line[0]] == c then 1 else 0;
    assert CountTo(b, line, c, 2) == CountTo(b, line, c, 1) + if b[line[1]] == c then 1 else 0;
  }

  /** Whose line it is gives the sign: positive when only p is in it, negative when only the
      other side is, nothing when both or neither are. */
  lemma LineScoreSign(b: Board, p: Player, line: Line)
    ensures LineScore(b, p, line) > 0 <==> Touches(b, line, p) && !Touches(b, line, Other(p))
    ensures LineScore(b, p, line) < 0 <==> Touches(b, line, Other(p)) && !Touches(b, line, p)
    ensures LineScore(b, p, line) == 0 <==> (Touches(b, line, p) <==> Touches(b, line, Other(p)))
  {
    CountTouches(b, line, p, GOAL);
    CountTouches(b, line, Other(p), GOAL);
    TenfoldPositive(CountTo(b, line, p, GOAL));
    TenfoldPositive(CountTo(b, line, Other(p), GOAL));
  }

  lemma TenfoldPositive(n: nat)
    requires n <= GOAL
    ensures n > 0 ==> Tenfold(n - 1) in {1, 10, 100}
  {
    TenfoldSmall();
    assert n == 0 || n == 1 || n == 2 || n == 3;
  }

  /** How far along it is gives the size: in a line the other side is not in, one stone is worth
      one, two are worth ten, and a line held whole is worth a hundred. */
  lemma LineScoreSize(b: Board, p: Player, line: Line)
    requires !Touches(b, line, Other(p))
    ensures Stones(b, line, p) == 1 ==> LineScore(b, p, line) == 1
    ensures Stones(b, line, p) == 2 ==> LineScore(b, p, line) == 10
    ensures HasLine(b, line, p) ==> LineScore(b, p, line) == 100
    ensures LineScore(b, p, line) == 100 ==> HasLine(b, line, p)
  {
    CountTouches(b, line, p, GOAL);
    CountTouches(b, line, Other(p), GOAL);
    CountStones(b, line, p);
    TenfoldSmall();
  }

  // ---- A move ----

  /** The line goes through cell m. */
  predicate Through(line: Line, m: nat) {
    line[0] == m || line[1] == m || line[2] == m
  }

  /** A stone of p's own never costs it anything on any line, and gains on each line through the
      cell that is not already mixed. */
  lemma LineScoreGrows(b: Board, p: Player, line: Line, m: nat)
    requires m < N_GRIDS && b[m] == Empty
    ensures LineScore(Place(b, m, p), p, line) >= LineScore(b, p, line)
    ensures LineScore(Place(b, m, p), p, line) > LineScore(b, p, line) <==> Through(line, m) && !Mixed(b, line)
  {
    var after := Place(b, m, p);
    CountStones(b, line, p);
    CountStones(b, line, Other(p));
    CountStones(after, line, p);
    CountStones(after, line, Other(p));
    CountTouches(b, line, p, GOAL);
    CountTouches(b, line, Other(p), GOAL);
    TenfoldSmall();
    assert Stones(after, line, Other(p)) == Stones(b, line, Other(p));
    assert !Through(line, m) ==> Stones(after, line, p) == Stones(b, line, p);
    assert Through(line, m) ==> Stones(after, line, p) > Stones(b, line, p);
  }

  lemma {:induction false} ScoreToGrows(b: Board, p: Player, lines: seq<Line>, m: nat, n: nat)
    requires m < N_GRIDS && b[m] == Empty && n <= |lines|
    ensures ScoreTo(Place(b, m, p), p, lines, n) >= ScoreTo(b, p, lines, n)
    ensures ScoreTo(Place(b, m, p), p, lines, n) > ScoreTo(b, p, lines, n) <==>
              exists w: nat :: w < n && Through(lines[w], m) && !Mixed(b, lines[w])
  {
    hide LineScore, Place, Through, Mixed;
    if n > 0 {
      ScoreToGrows(b, p, lines, m, n - 1);
      LineScoreGrows(b, p, lines[n - 1], m);
    }
  }

  /** A move never lowers its own side's score, and raises it exactly when some line through the
      cell is not already blocked for both. */
  lemma MoveGains(b: Board, p: Player, m: nat)
    requires m < N_GRIDS && b[m] == Empty
    ensures Score(Place(b, m, p), p) >= Score(b, p)
    ensures Score(Place(b, m, p), p) > Score(b, p) <==>
              exists w: nat :: w < N_LINES && Through(Lines()[w], m) && !Mixed(b, Lines()[w])
  {
    ScoreToGrows(b, p, Lines(), m, N_LINES);
  }

  /** The other side loses exactly what the mover gains. */
  lemma MoveCosts(b: Board, p: Player, m: nat)
    requires m < N_GRIDS && b[m] == Empty
    ensures Score(Place(b, m, p), Other(p)) <= Score(b, Other(p))
    ensures Score(b, Other(p)) - Score(Place(b, m, p), Other(p)) == Score(Place(b, m, p), p) - Score(b, p)
  {
    hide Score;
    MoveGains(b, p, m);
    ScoreFacts(b, p);
    ScoreFacts(Place(b, m, p), p);
  }

  // ---- A finished game ----

  /** A line wins the whole unit, the lack of one leaves half to each, read off the cells. */
  lemma WinValueOfLines(b: Board, p: Player)
    ensures StraightLine(b, p) && !StraightLine(b, Other(p)) ==>
              WinValue(CheckWin(b), p) == ONE && WinValue(CheckWin(b), Other(p)) == 0
    ensures !StraightLine(b, p) && !StraightLine(b, Other(p)) ==>
              2 * WinValue(CheckWin(b), p) == ONE && 2 * WinValue(CheckWin(b), Other(p)) == ONE
  {
    hide CheckWin, StraightLine;
    if !(StraightLine(b, O) && StraightLine(b, X)) {
      CheckWinCellByCell(b);
    }
  }
}
