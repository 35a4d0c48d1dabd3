/** The search tree as a value: nodes numbered in the order they were made, and the
    conservation laws that expansion and backpropagation keep. */
module MctsTree {
  import opened Basics
  import opened Game
  import FixedPoint
  import StaticScore

  const ITERATIONS: nat := 100000

  /** One node. The children are the `kids` nodes made from number `first` on. `board`,
      `own` and `ownScore` record the position the node stands for and what its own visits
      (rollouts, or terminal scores) brought in, apart from its children's. */
  datatype Rec = Rec(move: int, player: Player, visits: nat, score: nat, parent: int, first: nat, kids: nat,
                     board: Board, own: nat, ownScore: nat)

  type Tree = seq<Rec>

  function SumVisits(a: Tree, lo: nat, n: nat): nat
    requires lo + n <= |a|
  {
    if n == 0 then 0 else SumVisits(a, lo, n - 1) + a[lo + n - 1].visits
  }

  /** What the children hand up: for each visit one unit, less what the child kept. */
  function SumGain(a: Tree, lo: nat, n: nat): int
    requires lo + n <= |a|
  {
    if n == 0 then 0 else SumGain(a, lo, n - 1) + (ONE * a[lo + n - 1].visits - a[lo + n - 1].score)
  }

  predicate Terminal(r: Rec) {
    CheckWin(r.board) != Ongoing
  }

  // ---- Shape ----

  predicate IsKid(a: Tree, i: nat, c: nat)
    requires i < |a|
  {
    a[i].first <= c < a[i].first + a[i].kids
  }

  /** Child number k of node i: the k-th empty cell of the board, played by the side to
      move at i. */
  ghost predicate KidOk(a: Tree, i: nat, k: nat)
    requires i < |a| && k < Blanks(a[i].board) && a[i].first + k < |a|
  {
    var c := a[a[i].first + k];
    var m := EmptyCells(a[i].board)[k];
    c.parent == i && c.move == m && c.player == Other(a[i].player)
    && m < N_GRIDS && a[i].board[m] == Empty && c.board == Place(a[i].board, m, a[i].player)
  }

  ghost predicate KidsOk(a: Tree, i: nat)
    requires i < |a|
  {
    a[i].first + a[i].kids <= |a| && a[i].kids <= Blanks(a[i].board) && (a[i].kids > 0 ==> i < a[i].first)
    && forall k: nat :: k < a[i].kids ==> KidOk(a, i, k)
  }

  ghost predicate Linked(a: Tree, c: nat)
    requires c < |a|
  {
    if c == 0 then a[c].parent == -1 && a[c].move == -1
    else 0 <= a[c].parent < c && IsKid(a, a[c].parent, c)
  }

  /** Every node has the children its board calls for, or none yet. */
  ghost predicate Shape(a: Tree) {
    |a| > 0
    && (forall i :: 0 <= i < |a| ==> KidsOk(a, i))
    && (forall c :: 0 <= c < |a| ==> Linked(a, c))
  }

  // ---- What a visit earns ----

  /** s is what some random game from b, with `mover` to move, can be worth to `player`. */
  ghost predicate RolloutValue(b: Board, mover: Player, player: Player, s: int)
    decreases Blanks(b)
  {
    if !HasEmpty(b) then s == FIXED_HALF
    else exists m: nat :: m < N_GRIDS && b[m] == Empty && RolloutBy(b, mover, player, m, s)
  }

  ghost predicate RolloutBy(b: Board, mover: Player, player: Player, m: nat, s: int)
    requires m < N_GRIDS && b[m] == Empty
    decreases Blanks(b), 0
  {
    PlaceTakesOne(b, m, mover);
    var b' := Place(b, m, mover);
    if CheckWin(b') != Ongoing then s == WinValue(CheckWin(b'), player) else RolloutValue(b', Other(mover), player, s)
  }

  /** What a finished board is worth to the side that has just moved. */
  function FinalValue(r: Rec): int {
    WinValue(CheckWin(r.board), Other(r.player))
  }

  /** What a visit that ends at this node may bring in: a finished board its value, any other
      that of a random game to the side to move. */
  ghost predicate EarnedBy(r: Rec, s: int) {
    if Terminal(r) then s == FinalValue(r)
    else RolloutValue(r.board, r.player, r.player, s)
  }

  // ---- Conservation ----

  ghost predicate Balanced(a: Tree, i: nat)
    requires Shape(a) && i < |a|
  {
    KidsFit(a, i);
    a[i].visits == a[i].own + SumVisits(a, a[i].first, a[i].kids)
    && a[i].score == a[i].ownScore + SumGain(a, a[i].first, a[i].kids)
  }

  /** A finished board has its value for each visit. Any other visited node brought in one
      random game; all its other visits and the rest of its score came up from its children,
      a unit a visit less what each child kept. */
  ghost predicate ScoreLaw(a: Tree, i: nat)
    requires i < |a| && a[i].first + a[i].kids <= |a|
  {
    var r := a[i];
    var visits, gain := SumVisits(a, r.first, r.kids), SumGain(a, r.first, r.kids);
    r.score <= ONE * r.visits
    && (Terminal(r) ==> r.score == r.visits * FinalValue(r))
    && (!Terminal(r) && r.visits > 0 ==> r.visits == 1 + visits && EarnedBy(r, r.score - gain))
  }

  lemma ConservedScores(a: Tree, i: nat)
    requires Conserved(a) && i < |a|
    ensures a[i].first + a[i].kids <= |a| && ScoreLaw(a, i)
  {
    hide RolloutValue, FinalValue, CheckWin, Shape;
    KidsFit(a, i);
    assert Own(a[i]) && Balanced(a, i);
  }

  /** Read off the cells: where the side that has just moved has won, and only it, every visit
      counts a whole unit; where the other has, nothing; on a full board without a line, half. */
  lemma FinishedScores(a: Tree, i: nat)
    requires Conserved(a) && i < |a|
    ensures var r, mover := a[i], Other(a[i].player);
            (StraightLine(r.board, mover) && !StraightLine(r.board, r.player) ==> r.score == ONE * r.visits)
            && (StraightLine(r.board, r.player) && !StraightLine(r.board, mover) ==> r.score == 0)
            && (!StraightLine(r.board, r.player) && !StraightLine(r.board, mover) && !HasEmpty(r.board) ==>
                  2 * r.score == ONE * r.visits)
  {
    hide CheckWin, StraightLine, Conserved, Shape, WinValue, RolloutValue;
    ConservedScores(a, i);
    StaticScore.WinValueOfLines(a[i].board, O);
    StaticScore.WinValueOfLines(a[i].board, X);
    if !(StraightLine(a[i].board, O) && StraightLine(a[i].board, X)) {
      CheckWinCellByCell(a[i].board);
    }
  }

  /** A random game from a board with one empty cell left: the mover's line wins it the unit. */
  lemma LastCellRollout(b: Board, p: Player, m: nat, s: int)
    requires m < N_GRIDS && b[m] == Empty && forall i :: 0 <= i < N_GRIDS && i != m ==> b[i] != Empty
    ensures var after := Place(b, m, p);
            StraightLine(after, p) && !StraightLine(after, Other(p)) ==> (RolloutValue(b, p, p, s) <==> s == ONE)
    ensures var after := Place(b, m, p);
            StraightLine(after, Other(p)) && !StraightLine(after, p) ==> (RolloutValue(b, p, p, s) <==> s == 0)
  {
    var after := Place(b, m, p);
    hide CheckWin, StraightLine, WinValue, EmptyCells;
    StaticScore.WinValueOfLines(after, O);
    StaticScore.WinValueOfLines(after, X);
    if !(StraightLine(after, O) && StraightLine(after, X)) {
      CheckWinCellByCell(after);
    }
    assert RolloutValue(b, p, p, s) <==> RolloutBy(b, p, p, m, s);
  }

  lemma KidsFit(a: Tree, i: nat)
    requires Shape(a) && i < |a|
    ensures a[i].first + a[i].kids <= |a|
  {
    assert KidsOk(a, i);
  }

  ghost predicate Own(r: Rec) {
    r.score <= ONE * r.visits
    && (r.visits == 0 ==> r.own == 0 && r.ownScore == 0 && r.kids == 0)
    && (Terminal(r) ==> r.own == r.visits && r.kids == 0)
    && (Terminal(r) ==> r.ownScore == r.visits * FinalValue(r))
    && (!Terminal(r) && r.visits > 0 ==> r.own == 1 && RolloutValue(r.board, r.player, r.player, r.ownScore))
    && (r.kids != 0 ==> r.kids == Blanks(r.board))
  }

  /** Between iterations: shape, per-node facts, and every node balanced. */
  ghost predicate Conserved(a: Tree) {
    |a| > 0 && Shape(a) && (forall i :: 0 <= i < |a| ==> Own(a[i])) && (forall i :: 0 <= i < |a| ==> Balanced(a, i))
  }

  /** During backpropagation: node i is one visit and `s` short, all others balanced. */
  ghost predicate Short(a: Tree, i: nat, s: int) {
    Shape(a) && i < |a|
    && (KidsFit(a, i);
        a[i].visits + 1 == a[i].own + SumVisits(a, a[i].first, a[i].kids)
        && a[i].score + s == a[i].ownScore + SumGain(a, a[i].first, a[i].kids))
    && forall j :: 0 <= j < |a| && j != i ==> Balanced(a, j)
  }

  function Credited(r: Rec, s: nat): Rec {
    r.(visits := r.visits + 1, score := r.score + s)
  }

  /** Parents are made before their children. */
  predicate ParentsOlder(a: Tree) {
    forall c :: 0 <= c < |a| ==> a[c].parent < c
  }

  /** `backpropagate`: one visit more for the node and each ancestor, the score flipping
      between the sides. */
  function Backprop(a: Tree, i: int, s: nat): Tree
    requires s <= ONE && i < |a| && ParentsOlder(a)
    decreases i
  {
    if i < 0 then a else Backprop(a[i := Credited(a[i], s)], a[i].parent, ONE - s)
  }

  lemma {:induction false} SumsAfterCredit(a: Tree, i: nat, s: nat, lo: nat, n: nat)
    requires i < |a| && lo + n <= |a|
    ensures SumVisits(a[i := Credited(a[i], s)], lo, n) == SumVisits(a, lo, n) + (if lo <= i < lo + n then 1 else 0)
    ensures SumGain(a[i := Credited(a[i], s)], lo, n) == SumGain(a, lo, n) + (if lo <= i < lo + n then ONE - s else 0)
  {
    if n > 0 {
      SumsAfterCredit(a, i, s, lo, n - 1);
    }
  }

  lemma {:induction false} SumsAgree(a: Tree, b: Tree, lo: nat, n: nat)
    requires lo + n <= |a| && lo + n <= |b|
    requires forall c :: lo <= c < lo + n ==> a[c].visits == b[c].visits && a[c].score == b[c].score
    ensures SumVisits(a, lo, n) == SumVisits(b, lo, n) && SumGain(a, lo, n) == SumGain(b, lo, n)
  {
    if n > 0 {
      SumsAgree(a, b, lo, n - 1);
    }
  }

  /** The same tree but for visit counts and scores. */
  ghost predicate SameShape(a: Tree, b: Tree) {
    |a| == |b|
    && forall i :: 0 <= i < |a| ==>
         b[i] == a[i].(visits := b[i].visits, score := b[i].score, own := b[i].own, ownScore := b[i].ownScore)
  }

  lemma SameShapeKeepsShape(a: Tree, b: Tree)
    requires Shape(a) && SameShape(a, b)
    ensures Shape(b)
  {
    hide EmptyCells, Blanks, CheckWin;
    forall i | 0 <= i < |b|
      ensures KidsOk(b, i)
    {
      assert KidsOk(a, i);
      forall k: nat | k < b[i].kids
        ensures KidOk(b, i, k)
      {
        assert KidOk(a, i, k);
      }
    }
    forall c | 0 <= c < |b|
      ensures Linked(b, c)
    {
      assert Linked(a, c);
    }
  }

  lemma CreditSameShape(a: Tree, i: nat, s: nat)
    requires Shape(a) && i < |a|
    ensures SameShape(a, a[i := Credited(a[i], s)]) && Shape(a[i := Credited(a[i], s)])
  {
    SameShapeKeepsShape(a, a[i := Credited(a[i], s)]);
  }

  /** A node is a child of its parent and of no other node. */
  lemma OnlyParent(a: Tree, c: nat, j: nat)
    requires Shape(a) && c < |a| && j < |a|
    ensures IsKid(a, j, c) <==> j == a[c].parent
  {
    hide EmptyCells, Blanks, CheckWin;
    assert Linked(a, c);
    if IsKid(a, j, c) {
      assert KidsOk(a, j);
      assert KidOk(a, j, c - a[j].first);
    }
  }

  /** Crediting the short node moves the shortage to its parent, or ends it at the root. */
  lemma CreditMovesShortage(a: Tree, i: nat, s: nat)
    requires Short(a, i, s) && s <= ONE
    ensures var b := a[i := Credited(a[i], s)];
            Shape(b)
            && (a[i].parent >= 0 ==> Short(b, a[i].parent, ONE - s))
            && (a[i].parent < 0 ==> forall j :: 0 <= j < |b| ==> Balanced(b, j))
  {
    hide EmptyCells, Blanks, CheckWin;
    var b := a[i := Credited(a[i], s)];
    CreditSameShape(a, i, s);
    forall j | 0 <= j < |b| && j != a[i].parent
      ensures Balanced(b, j)
    {
      KidsFit(a, j);
      OnlyParent(a, i, j);
      SumsAfterCredit(a, i, s, a[j].first, a[j].kids);
      if j != i {
        assert Balanced(a, j);
      }
    }
    assert Linked(a, i);
    if a[i].parent >= 0 {
      var j := a[i].parent;
      KidsFit(a, j);
      OnlyParent(a, i, j);
      assert Balanced(a, j);
      SumsAfterCredit(a, i, s, a[j].first, a[j].kids);
    }
  }

  lemma ParentsBelow(a: Tree)
    requires Shape(a)
    ensures ParentsOlder(a)
  {
    forall c | 0 <= c < |a|
      ensures a[c].parent < c
    {
      assert Linked(a, c);
    }
  }

  ghost predicate ScoresFit(a: Tree) {
    forall i :: 0 <= i < |a| ==> a[i].score <= ONE * a[i].visits
  }

  /** Backpropagating into the short node balances the whole tree, adds one visit at the
      root and one at most anywhere, and changes nothing else. */
  lemma {:induction false} BackpropBalances(a: Tree, i: nat, s: nat)
    requires Short(a, i, s) && s <= ONE && ScoresFit(a)
    ensures ParentsOlder(a)
    ensures var b := Backprop(a, i, s);
            SameShape(a, b) && Shape(b) && ScoresFit(b)
            && (forall j :: 0 <= j < |b| ==> Balanced(b, j))
            && (forall j :: 0 <= j < |b| ==> b[j].own == a[j].own && b[j].ownScore == a[j].ownScore)
            && (forall j :: 0 <= j < |b| ==> a[j].visits <= b[j].visits)
            && b[i].visits > 0
            && b[0].visits == a[0].visits + 1
            && (forall j :: 0 <= j < |b| && j > i ==> b[j] == a[j])
            && (forall j :: 0 <= j < |b| && j != i && a[j].kids == 0 ==> b[j] == a[j])
            && b[i] == Credited(a[i], s)
    decreases i
  {
    hide EmptyCells, Blanks, CheckWin, Balanced, KidsOk;
    ParentsBelow(a);
    CreditMovesShortage(a, i, s);
    var b := a[i := Credited(a[i], s)];
    CreditSameShape(a, i, s);
    assert Linked(a, i);
    if a[i].parent >= 0 {
      BackpropBalances(b, a[i].parent, ONE - s);
    }
  }

  /** The leaf of a descent takes a score of its own. */
  function Scored(a: Tree, i: nat, s: nat): Tree
    requires i < |a|
  {
    a[i := a[i].(own := a[i].own + 1, ownScore := a[i].ownScore + s)]
  }

  lemma ScoredIsShort(a: Tree, i: nat, s: nat)
    requires Conserved(a) && i < |a|
    ensures Short(Scored(a, i, s), i, s) && ScoresFit(Scored(a, i, s))
  {
    hide EmptyCells, Blanks, CheckWin;
    var b := Scored(a, i, s);
    SameShapeKeepsShape(a, b);
    forall j | 0 <= j < |a| && j != i
      ensures Balanced(b, j)
    {
      KidsFit(a, j);
      SumsAgree(a, b, a[j].first, a[j].kids);
      assert Balanced(a, j);
    }
    KidsFit(a, i);
    SumsAgree(a, b, a[i].first, a[i].kids);
    assert Balanced(a, i);
    assert forall j :: 0 <= j < |a| ==> Own(a[j]);
  }

  /** A descent that ends on a finished board, or on a node never visited, keeps the laws
      and counts one visit at the root. */
  lemma VisitConserves(a: Tree, i: nat, s: nat)
    requires Conserved(a) && i < |a| && s <= ONE
    requires Terminal(a[i]) || a[i].visits == 0
    requires EarnedBy(a[i], s)
    ensures ParentsOlder(Scored(a, i, s))
    ensures var b := Backprop(Scored(a, i, s), i, s);
            Conserved(b) && |b| == |a| && b[0].visits == a[0].visits + 1 && b[0].board == a[0].board
            && b[0].player == a[0].player
  {
    hide EmptyCells, Blanks, CheckWin, Balanced, KidsOk;
    ScoredIsShort(a, i, s);
    BackpropBalances(Scored(a, i, s), i, s);
    var b := Backprop(Scored(a, i, s), i, s);
    forall j | 0 <= j < |b|
      ensures Own(b[j])
    {
      assert Own(a[j]);
    }
  }

  // ---- Expansion ----

  function NewKid(r: Rec, i: nat, k: nat): Rec
    requires k < Blanks(r.board)
  {
    EmptyCellsToAre(r.board, N_GRIDS);
    var m := EmptyCells(r.board)[k];
    assert m in EmptyCells(r.board);
    Rec(m, Other(r.player), 0, 0, i, 0, 0, Place(r.board, m, r.player), 0, 0)
  }

  /** Node i with its first n children made, at the end of the tree. */
  function ExpandTo(a: Tree, i: nat, n: nat): Tree
    requires i < |a| && n <= Blanks(a[i].board)
  {
    a[i := a[i].(first := |a|, kids := n)] + seq(n, k requires 0 <= k < n => NewKid(a[i], i, k))
  }

  function Expanded(a: Tree, i: nat): Tree
    requires i < |a|
  {
    ExpandTo(a, i, Blanks(a[i].board))
  }

  lemma NewKidOk(a: Tree, i: nat, k: nat)
    requires i < |a| && k < Blanks(a[i].board)
    ensures KidOk(Expanded(a, i), i, k)
  {
    EmptyCellsToAre(a[i].board, N_GRIDS);
    assert EmptyCells(a[i].board)[k] in EmptyCells(a[i].board);
  }

  lemma ExpandShape(a: Tree, i: nat)
    requires Shape(a) && i < |a| && a[i].kids == 0
    ensures Shape(Expanded(a, i))
  {
    hide EmptyCells, CheckWin, KidOk;
    var b := Expanded(a, i);
    forall j | 0 <= j < |b|
      ensures KidsOk(b, j)
    {
      if j == i {
        forall k: nat | k < b[i].kids
          ensures KidOk(b, i, k)
        {
          NewKidOk(a, i, k);
        }
      } else if j < |a| {
        assert KidsOk(a, j);
        forall k: nat | k < b[j].kids
          ensures KidOk(b, j, k)
        {
          OldKidOk(a, i, j, k);
        }
      }
    }
    forall c | 0 <= c < |b|
      ensures Linked(b, c)
    {
      if c < |a| {
        assert Linked(a, c);
      }
    }
  }

  lemma OldKidOk(a: Tree, i: nat, j: nat, k: nat)
    requires Shape(a) && i < |a| && a[i].kids == 0 && j < |a| && j != i && k < a[j].kids
    ensures a[j].first + k < |a| && k < Blanks(a[j].board) && KidOk(Expanded(a, i), j, k)
  {
    hide CheckWin;
    assert KidsOk(a, j);
    assert KidOk(a, j, k);
  }

  lemma {:induction false} FreshSumsZero(b: Tree, lo: nat, n: nat)
    requires lo + n <= |b| && forall c :: lo <= c < lo + n ==> b[c].visits == 0 && b[c].score == 0
    ensures SumVisits(b, lo, n) == 0 && SumGain(b, lo, n) == 0
  {
    if n > 0 {
      FreshSumsZero(b, lo, n - 1);
    }
  }

  /** Expanding a visited, unfinished node keeps the laws and makes one child per empty cell. */
  lemma ExpandConserves(a: Tree, i: nat)
    requires Conserved(a) && i < |a| && a[i].kids == 0 && a[i].visits > 0 && !Terminal(a[i])
    ensures Conserved(Expanded(a, i)) && Expanded(a, i)[0].visits == a[0].visits
    ensures Expanded(a, i)[i].kids == Blanks(a[i].board) > 0
    ensures |Expanded(a, i)| == |a| + Blanks(a[i].board)
  {
    hide EmptyCells, KidsOk;
    var b := Expanded(a, i);
    ExpandShape(a, i);
    OngoingHasMove(a[i].board);
    forall j | 0 <= j < |b|
      ensures Own(b[j]) && Balanced(b, j)
    {
      KidsFit(b, j);
      if j == i {
        FreshSumsZero(b, |a|, b[i].kids);
        assert Balanced(a, i) && Own(a[i]);
      } else if j < |a| {
        KidsFit(a, j);
        SumsAgree(a, b, a[j].first, a[j].kids);
        assert Balanced(a, j) && Own(a[j]);
      }
    }
  }

  // ---- Visit counts along the tree ----

  lemma {:induction false} SumCoversKid(a: Tree, lo: nat, n: nat, c: nat)
    requires lo + n <= |a| && lo <= c < lo + n
    ensures a[c].visits <= SumVisits(a, lo, n)
  {
    if c < lo + n - 1 {
      SumCoversKid(a, lo, n - 1, c);
    }
  }

  /** A child has strictly fewer visits than its parent. */
  lemma KidVisitedLess(a: Tree, i: nat, c: nat)
    requires Conserved(a) && i < |a| && c < |a| && IsKid(a, i, c)
    ensures a[c].visits < a[i].visits
  {
    hide EmptyCells, CheckWin, KidOk;
    KidsFit(a, i);
    assert Own(a[i]) && Balanced(a, i);
    SumCoversKid(a, a[i].first, a[i].kids, c);
  }

  lemma {:induction false} RootVisitedMost(a: Tree, c: nat)
    requires Conserved(a) && c < |a|
    ensures a[c].visits <= a[0].visits
    decreases c
  {
    hide EmptyCells, CheckWin, KidsOk, Balanced;
    assert Linked(a, c);
    if c > 0 {
      KidVisitedLess(a, a[c].parent, c);
      RootVisitedMost(a, a[c].parent);
    }
  }

  /** The tree of a search that has not started. */
  function Start(board: Board, player: Player): Tree {
    [Rec(-1, player, 0, 0, -1, 0, 0, board, 0, 0)]
  }

  lemma StartConserved(board: Board, player: Player)
    ensures Conserved(Start(board, player))
  {
  }

  /** After two visits an unfinished root has its children. */
  lemma RootExpanded(a: Tree)
    requires Conserved(a) && !Terminal(a[0]) && a[0].visits >= 2
    ensures a[0].kids == Blanks(a[0].board) > 0
  {
    hide CheckWin, EmptyCells, KidsOk;
    assert Own(a[0]) && Balanced(a, 0);
    KidsFit(a, 0);
  }

  // ---- The final choice ----

  /** Visits of child k of the root. */
  function RootKidVisits(a: Tree, k: nat): nat
    requires |a| > 0 && a[0].first + k < |a|
  {
    a[a[0].first + k].visits
  }

  /** First child of most visits among the first n, or -1. */
  function MostVisited(a: Tree, n: nat): (best: int)
    requires |a| > 0 && a[0].first + n <= |a|
    ensures -1 <= best < n && (n > 0 ==> best >= 0)
  {
    if n == 0 then -1
    else
      var best := MostVisited(a, n - 1);
      if best < 0 || RootKidVisits(a, n - 1) > RootKidVisits(a, best) then n - 1 else best
  }

  lemma {:induction false} MostVisitedIsMax(a: Tree, n: nat)
    requires |a| > 0 && a[0].first + n <= |a|
    ensures forall k :: 0 <= k < n ==> RootKidVisits(a, k) <= RootKidVisits(a, MostVisited(a, n))
    ensures forall k :: 0 <= k < MostVisited(a, n) ==> RootKidVisits(a, k) < RootKidVisits(a, MostVisited(a, n))
  {
    if n > 0 {
      MostVisitedIsMax(a, n - 1);
    }
  }

  /** `move` is an empty cell of the root board, and the child of the root it leads to has as
      many visits as any. */
  ghost predicate MovesMostVisited(a: Tree, move: int)
    requires |a| > 0 && a[0].first + a[0].kids <= |a|
  {
    0 <= move < N_GRIDS && a[0].board[move] == Empty
    && exists b: nat :: b < a[0].kids && a[a[0].first + b].move == move
                        && forall k: nat :: k < a[0].kids ==> RootKidVisits(a, k) <= RootKidVisits(a, b)
  }

  // ---- Selection ----

  function KidScore(a: Tree, i: nat, k: nat): nat
    requires i < |a| && a[i].first + k < |a|
  {
    FixedPoint.UctScore(a[i].visits, a[a[i].first + k].visits, a[a[i].first + k].score)
  }

  function ScoreOr0(a: Tree, i: nat, k: int): nat
    requires i < |a| && a[i].first + k < |a|
  {
    if k < 0 then 0 else KidScore(a, i, k)
  }

  /** The scan of `select_move` over the first n children. */
  function Select(a: Tree, i: nat, n: nat): (best: int)
    requires i < |a| && a[i].first + n <= |a|
    ensures -1 <= best < n
  {
    if n == 0 then -1
    else
      var best := Select(a, i, n - 1);
      if KidScore(a, i, n - 1) > ScoreOr0(a, i, best) then n - 1 else best
  }

  lemma {:induction false} SelectIsMax(a: Tree, i: nat, n: nat)
    requires i < |a| && a[i].first + n <= |a|
    ensures forall k :: 0 <= k < n ==> KidScore(a, i, k) <= ScoreOr0(a, i, Select(a, i, n))
    ensures forall k :: 0 <= k < Select(a, i, n) ==> KidScore(a, i, k) < KidScore(a, i, Select(a, i, n))
  {
    hide FixedPoint.UctScore;
    if n > 0 {
      SelectIsMax(a, i, n - 1);
    }
  }

  lemma KidScorePositive(a: Tree, i: nat, k: nat)
    requires Conserved(a) && i < |a| && k < a[i].kids && a[0].visits <= ITERATIONS
    ensures a[i].first + a[i].kids <= |a| && KidScore(a, i, k) > 0
  {
    hide FixedPoint.UctScore, EmptyCells, CheckWin, KidsOk, Balanced;
    KidsFit(a, i);
    var c := a[i].first + k;
    KidVisitedLess(a, i, c);
    RootVisitedMost(a, i);
    assert Own(a[c]);
    if a[c].visits == 0 {
      FixedPoint.UctUnvisited(a[i].visits, a[c].score);
    } else {
      FixedPoint.UctPositive(a[i].visits, a[c].visits, a[c].score);
    }
  }

  /** Selection on an expanded node never comes back empty-handed, and picks the first child
      of highest score, each child scored by its own visits and score and its parent's visits. */
  lemma SelectNeverStuck(a: Tree, i: nat)
    requires Conserved(a) && i < |a| && a[i].kids > 0 && a[0].visits <= ITERATIONS
    ensures a[i].first + a[i].kids <= |a|
    ensures var best := Select(a, i, a[i].kids);
            0 <= best < a[i].kids
            && var top := a[a[i].first + best];
               (forall j :: a[i].first <= j < a[i].first + a[i].kids ==>
                  FixedPoint.UctScore(a[i].visits, a[j].visits, a[j].score)
                  <= FixedPoint.UctScore(a[i].visits, top.visits, top.score))
               && (forall j :: a[i].first <= j < a[i].first + best ==>
                     FixedPoint.UctScore(a[i].visits, a[j].visits, a[j].score)
                     < FixedPoint.UctScore(a[i].visits, top.visits, top.score))
  {
    hide FixedPoint.UctScore, EmptyCells, CheckWin, KidsOk, Balanced;
    KidsFit(a, i);
    SelectIsMax(a, i, a[i].kids);
    KidScorePositive(a, i, 0);
    forall j | a[i].first <= j < a[i].first + a[i].kids
      ensures FixedPoint.UctScore(a[i].visits, a[j].visits, a[j].score) == KidScore(a, i, j - a[i].first)
    {
    }
  }
}
