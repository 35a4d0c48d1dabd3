/** What depth-limited search is meant to compute: the value of a board by
    exhaustive play, and the lines of play that reach a given score. */
module Minimax {
  import opened Game

  /** Below every score a board can have: the search starts each node with it. */
  const WORST: int := -10000

  /** The search stops on a finished board or at depth exactly zero. */
  predicate IsLeaf(b: Board, depth: int) {
    CheckWin(b) != Ongoing || depth == 0
  }

  /** Value of the board for p, who moves next, `depth` plies deep. */
  function Value(b: Board, depth: int, p: Player): int
    decreases Blanks(b), N_GRIDS + 1
  {
    if IsLeaf(b, depth) then Score(b, p) else BestTo(b, depth, p, N_GRIDS)
  }

  /** The best of the moves on the cells below n. */
  function BestTo(b: Board, depth: int, p: Player, n: nat): int
    requires n <= N_GRIDS
    decreases Blanks(b), n
  {
    if n == 0 then WORST
    else if b[n - 1] != Empty then BestTo(b, depth, p, n - 1)
    else Max(BestTo(b, depth, p, n - 1), MoveValue(b, depth, p, n - 1))
  }

  /** Value for p of playing on cell m. */
  function MoveValue(b: Board, depth: int, p: Player, m: nat): int
    requires m < N_GRIDS && b[m] == Empty
    decreases Blanks(b), 0
  {
    PlaceTakesOne(b, m, p);
    -Value(Place(b, m, p), depth - 1, Other(p))
  }

  function Max(x: int, y: int): int {
    if x < y then y else x
  }

  /** The best move below n, if there is a move there at all. */
  lemma {:induction false} BestToIsMax(b: Board, depth: int, p: Player, n: nat) returns (best: int)
    requires n <= N_GRIDS
    ensures best == -1 ==> BestTo(b, depth, p, n) == WORST
    ensures best == -1 || (0 <= best < n && b[best] == Empty && MoveValue(b, depth, p, best) == BestTo(b, depth, p, n))
    ensures forall m :: 0 <= m < n && b[m] == Empty ==> MoveValue(b, depth, p, m) <= BestTo(b, depth, p, n)
  {
    hide Score, CheckWin, Blanks;
    best := -1;
    if n > 0 {
      best := BestToIsMax(b, depth, p, n - 1);
      if b[n - 1] == Empty && BestTo(b, depth, p, n - 1) < MoveValue(b, depth, p, n - 1) {
        best := n - 1;
      }
    }
  }

  /** Every value is the static score of some board, hence small. */
  lemma {:induction false} ValueBound(b: Board, depth: int, p: Player)
    ensures -2400 <= Value(b, depth, p) <= 2400
    decreases Blanks(b), 1
  {
    if IsLeaf(b, depth) {
      ScoreFacts(b, p);
    } else {
      OngoingHasMove(b);
      var m :| 0 <= m < N_GRIDS && b[m] == Empty;
      MoveValueBound(b, depth, p, m);
      var best := BestToIsMax(b, depth, p, N_GRIDS);
      if best != -1 {
        MoveValueBound(b, depth, p, best);
      }
    }
  }

  lemma {:induction false} MoveValueBound(b: Board, depth: int, p: Player, m: nat)
    requires m < N_GRIDS && b[m] == Empty
    ensures -2400 <= MoveValue(b, depth, p, m) <= 2400
    decreases Blanks(b), 0
  {
    PlaceTakesOne(b, m, p);
    ValueBound(Place(b, m, p), depth - 1, Other(p));
  }

  /** At an inner node the value is the maximum over the moves, and one attains it. */
  lemma ValueIsMax(b: Board, depth: int, p: Player) returns (best: int)
    requires !IsLeaf(b, depth)
    ensures forall m :: 0 <= m < N_GRIDS && b[m] == Empty ==> MoveValue(b, depth, p, m) <= Value(b, depth, p)
    ensures 0 <= best < N_GRIDS && b[best] == Empty && MoveValue(b, depth, p, best) == Value(b, depth, p)
  {
    OngoingHasMove(b);
    var m :| 0 <= m < N_GRIDS && b[m] == Empty;
    MoveValueBound(b, depth, p, m);
    best := BestToIsMax(b, depth, p, N_GRIDS);
  }

  // ---- The two-player reading ----

  /** Minimax with one fixed point of view: O picks the largest outcome for O,
      X picks the smallest. */
  function Outcome(b: Board, depth: int, p: Player): int
    decreases Blanks(b), N_GRIDS + 1
  {
    if IsLeaf(b, depth) then Score(b, O) else PickTo(b, depth, p, N_GRIDS)
  }

  function PickTo(b: Board, depth: int, p: Player, n: nat): int
    requires n <= N_GRIDS
    decreases Blanks(b), n
  {
    if n == 0 then (if p == O then WORST else -WORST)
    else if b[n - 1] != Empty then PickTo(b, depth, p, n - 1)
    else
      PlaceTakesOne(b, n - 1, p);
      var here := Outcome(Place(b, n - 1, p), depth - 1, Other(p));
      var rest := PickTo(b, depth, p, n - 1);
      if p == O then (if rest < here then here else rest)
      else (if here < rest then here else rest)
  }

  /** For p's own view of an outcome for O. */
  function Sided(x: int, p: Player): int {
    if p == O then x else -x
  }

  lemma {:induction false} PickIsBest(b: Board, depth: int, p: Player, n: nat)
    requires n <= N_GRIDS
    ensures BestTo(b, depth, p, n) == Sided(PickTo(b, depth, p, n), p)
    decreases Blanks(b), n
  {
    if n > 0 {
      PickIsBest(b, depth, p, n - 1);
      if b[n - 1] == Empty {
        PlaceTakesOne(b, n - 1, p);
        ValueIsMinimax(Place(b, n - 1, p), depth - 1, Other(p));
      }
    }
  }

  /** The negamax value is the two-player minimax outcome, seen from the side to move. */
  lemma {:induction false} ValueIsMinimax(b: Board, depth: int, p: Player)
    ensures Value(b, depth, p) == Sided(Outcome(b, depth, p), p)
    decreases Blanks(b), N_GRIDS + 1
  {
    if IsLeaf(b, depth) {
      ScoreFacts(b, O);
    } else {
      PickIsBest(b, depth, p, N_GRIDS);
    }
  }

  // ---- What a windowed search may answer ----

  /** A fail-soft answer to a search with the window (alpha, beta): a bound on the
      value when it falls outside the window, the value itself inside. */
  predicate Brackets(value: int, alpha: int, beta: int, answer: int) {
    (answer <= alpha ==> value <= answer)
    && (answer >= beta ==> value >= answer)
    && (alpha < answer < beta ==> value == answer)
  }

  /** A null-window probe followed, when it lands strictly inside, by a search above the
      probe answers for the full window. */
  lemma ProbeThenResearch(value: int, alpha: int, beta: int, probe: int, research: int)
    requires alpha < beta
    requires Brackets(value, alpha, alpha + 1, probe)
    requires alpha < probe < beta ==> Brackets(value, probe, beta, research)
    ensures Brackets(value, alpha, beta, if alpha < probe < beta then research else probe)
  {
  }

  /** Seen from the other side, the window and the answer change sign. */
  lemma BracketsNegated(value: int, alpha: int, beta: int, answer: int)
    ensures Brackets(value, alpha, beta, answer) <==> Brackets(-value, -beta, -alpha, -answer)
  {
  }

  // ---- Lines of play ----

  /** Some line of play of the allowed length from b ends on a board whose static
      score, for p, is s. */
  ghost predicate Reaches(b: Board, depth: int, p: Player, s: int)
    decreases Blanks(b)
  {
    if IsLeaf(b, depth) then s == Score(b, p)
    else exists m: nat :: m < N_GRIDS && b[m] == Empty && ReachesBy(b, depth, p, m, s)
  }

  ghost predicate ReachesBy(b: Board, depth: int, p: Player, m: nat, s: int)
    requires m < N_GRIDS && b[m] == Empty
    decreases Blanks(b), 0
  {
    PlaceTakesOne(b, m, p);
    Reaches(Place(b, m, p), depth - 1, Other(p), -s)
  }

  /** A score and a move that belong together: at a leaf the static score and no move,
      elsewhere a legal move from which the score is reached. */
  ghost predicate Attained(b: Board, depth: int, p: Player, s: int, move: int) {
    if IsLeaf(b, depth) then s == Score(b, p) && move == -1
    else 0 <= move < N_GRIDS && b[move] == Empty && ReachesBy(b, depth, p, move, s)
  }
}
