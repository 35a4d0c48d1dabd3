/** The Monte Carlo tree search on the heap: nodes with parent pointers and child arrays,
    updated in place, proved against the tree values of MctsTree. */
module Mcts {
  import opened Basics
  import opened Game
  import opened MctsTree
  import FixedPoint

  class Node {
    const move: int
    const player: Player
    var nVisits: nat
    var score: nat
    const parent: Node?
    const children: array<Node?>

    constructor (move: int, player: Player, parent: Node?)
      ensures this.move == move && this.player == player && this.parent == parent
      ensures nVisits == 0 && score == 0
      ensures fresh(children) && children.Length == N_GRIDS
      ensures forall k :: 0 <= k < N_GRIDS ==> children[k] == null
    {
      this.move, this.player, this.parent := move, player, parent;
      nVisits, score := 0, 0;
      children := new Node?[N_GRIDS](_ => null);
    }
  }

  ghost function Footprint(nodes: seq<Node>): set<object> {
    (set n | n in nodes :: n as object) + (set n | n in nodes :: n.children as object)
  }

  ghost function NodeAt(nodes: seq<Node>, i: int): Node? {
    if 0 <= i < |nodes| then nodes[i] else null
  }

  /** Heap node i holds what record i of the tree value says. */
  ghost predicate NodeIs(nodes: seq<Node>, a: Tree, i: nat)
    requires i < |nodes| == |a|
    reads nodes[i], nodes[i].children
  {
    var n, r := nodes[i], a[i];
    n.move == r.move && n.player == r.player && n.nVisits == r.visits && n.score == r.score
    && n.parent == NodeAt(nodes, r.parent)
    && n.children.Length == N_GRIDS
    && forall k :: 0 <= k < N_GRIDS ==> n.children[k] == if k < r.kids then NodeAt(nodes, r.first + k) else null
  }

  ghost predicate Represents(nodes: seq<Node>, a: Tree)
    reads nodes, set n | n in nodes :: n.children
  {
    |nodes| == |a|
    && (forall i :: 0 <= i < |nodes| ==> NodeIs(nodes, a, i))
    && Separate(nodes)
  }

  ghost predicate Separate(nodes: seq<Node>) {
    forall i, j :: 0 <= i < j < |nodes| ==> nodes[i] != nodes[j] && nodes[i].children != nodes[j].children
  }

  method Backpropagate(leaf: Node, s0: nat, ghost nodes: seq<Node>, ghost a: Tree, ghost i0: nat)
    requires Represents(nodes, a) && i0 < |a| && leaf == nodes[i0] && s0 <= ONE && ParentsOlder(a)
    modifies nodes
    ensures Represents(nodes, Backprop(a, i0, s0))
  {
    var node: Node?, s: nat := leaf, s0;
    ghost var b, i: int := a, i0;
    while node != null
      invariant i < |nodes| && node == NodeAt(nodes, i) && (node == null ==> i < 0)
      invariant s <= ONE && ParentsOlder(b) && Represents(nodes, b)
      invariant Backprop(b, i, s) == Backprop(a, i0, s0)
      decreases i
    {
      assert NodeIs(nodes, b, i);
      ghost var b0 := b;
      label credit:
      node.nVisits := node.nVisits + 1;
      node.score := node.score + s;
      b := b[i := Credited(b[i], s)];
      forall j | 0 <= j < |nodes|
        ensures NodeIs(nodes, b, j)
      {
        assert old@credit(NodeIs(nodes, b0, j));
        assert j != i ==> nodes[j] != nodes[i];
      }
      node := node.parent;
      s := ONE - s;
      i := b[i].parent;
    }
  }

  // ---- Expansion ----

  ghost predicate Grown(before: seq<Node>, after: seq<Node>) {
    |before| <= |after| && after[..|before|] == before
  }

  /** Nothing in the tree points past its end. */
  ghost predicate Closed(t: Tree) {
    forall j :: 0 <= j < |t| ==> t[j].parent < |t| && t[j].first + t[j].kids <= |t|
  }

  lemma ExpandToStep(a: Tree, i: nat, k: nat)
    requires Shape(a) && i < |a| && k < Blanks(a[i].board)
    ensures var t := ExpandTo(a, i, k);
            Closed(t) && |t| == |a| + k
            && t[i] == a[i].(first := |a|, kids := k)
            && ExpandTo(a, i, k + 1) == t[i := a[i].(first := |a|, kids := k + 1)] + [NewKid(a[i], i, k)]
  {
    hide CheckWin, EmptyCells, KidOk;
    forall j | 0 <= j < |a|
      ensures a[j].parent < |a| && a[j].first + a[j].kids <= |a|
    {
      assert Linked(a, j) && KidsOk(a, j);
    }
  }

  /** The k-th child of node i made and linked, in both directions. */
  method AddKid(node: Node, move: int, ghost nodes0: seq<Node>, ghost a: Tree, ghost i: nat, k: nat)
    returns (ghost nodes: seq<Node>)
    requires Shape(a) && i < |a| <= |nodes0| && k < Blanks(a[i].board) && a[i].kids == 0
    requires Represents(nodes0, ExpandTo(a, i, k)) && node == nodes0[i]
    requires move == EmptyCells(a[i].board)[k]
    modifies node.children
    ensures Grown(nodes0, nodes) && |nodes| == |nodes0| + 1
    ensures fresh(nodes[|nodes0|]) && fresh(nodes[|nodes0|].children)
    ensures Represents(nodes, ExpandTo(a, i, k + 1))
  {
    hide CheckWin, EmptyCells;
    ghost var t, t' := ExpandTo(a, i, k), ExpandTo(a, i, k + 1);
    ExpandToStep(a, i, k);
    assert NodeIs(nodes0, t, i);
    label before:
    var kid := new Node(move, Other(node.player), node);
    node.children[k] := kid;
    nodes := nodes0 + [kid];
    forall j | 0 <= j < |nodes|
      ensures NodeIs(nodes, t', j)
    {
      if j < |nodes0| {
        assert old@before(NodeIs(nodes0, t, j));
        assert j != i ==> nodes0[j].children != node.children;
      }
    }
  }

  /** `expand`: one child per empty cell, in the order of the move list. */
  method Expand(node: Node, board: Board, ghost nodes0: seq<Node>, ghost a: Tree, ghost i: nat)
    returns (made: nat, ghost nodes: seq<Node>)
    requires Shape(a) && Represents(nodes0, a) && i < |a| && node == nodes0[i] && board == a[i].board && a[i].kids == 0
    modifies node.children
    ensures made == Blanks(board)
    ensures Represents(nodes, Expanded(a, i)) && Grown(nodes0, nodes)
    ensures forall j :: |nodes0| <= j < |nodes| ==> fresh(nodes[j]) && fresh(nodes[j].children)
  {
    hide CheckWin, EmptyCells;
    var moves := AvailableMoves(board);
    var nMoves := CountMoves(board, moves);
    nodes := nodes0;
    made := 0;
    NoKidsYet(nodes0, a, i);
    while made < nMoves
      invariant 0 <= made <= nMoves == Blanks(board) && moves[..nMoves] == EmptyCells(board) && moves.Length == N_GRIDS
      invariant Represents(nodes, ExpandTo(a, i, made)) && Grown(nodes0, nodes) && |nodes| == |nodes0| + made
      invariant forall j :: |nodes0| <= j < |nodes| ==> fresh(nodes[j]) && fresh(nodes[j].children)
    {
      assert moves[made] == moves[..nMoves][made];
      nodes := AddKid(node, moves[made], nodes, a, i, made);
      made := made + 1;
    }
  }

  lemma NoKidsYet(nodes: seq<Node>, a: Tree, i: nat)
    requires Represents(nodes, a) && i < |a| && a[i].kids == 0
    ensures Represents(nodes, ExpandTo(a, i, 0))
  {
    forall j | 0 <= j < |nodes|
      ensures NodeIs(nodes, ExpandTo(a, i, 0), j)
    {
      assert NodeIs(nodes, a, j);
    }
  }

  // ---- Selection and rollout ----

  /** `select_move`: the scan over all sixteen child slots. */
  method SelectMove(node: Node, ghost nodes: seq<Node>, ghost a: Tree, ghost i: nat) returns (best: Node?)
    requires Shape(a) && Represents(nodes, a) && i < |a| && node == nodes[i]
    ensures a[i].first + a[i].kids <= |a|
    ensures best == NodeAt(nodes, if Select(a, i, a[i].kids) < 0 then -1 else a[i].first + Select(a, i, a[i].kids))
  {
    hide CheckWin, EmptyCells, FixedPoint.UctScore, KidOk, Separate;
    assert NodeIs(nodes, a, i);
    assert KidsOk(a, i);
    var bestScore: nat := 0;
    best := null;
    for k := 0 to N_GRIDS
      invariant var n := if k < a[i].kids then k else a[i].kids;
                var b := Select(a, i, n);
                bestScore == ScoreOr0(a, i, b) && best == NodeAt(nodes, if b < 0 then -1 else a[i].first + b)
    {
      var kid := node.children[k];
      if kid != null {
        assert NodeIs(nodes, a, a[i].first + k);
        var score := FixedPoint.UctScore(node.nVisits, kid.nVisits, kid.score);
        if score > bestScore {
          bestScore := score;
          best := kid;
        }
      }
    }
  }

  /** `simulate`: random legal moves until the game is over. */
  method Simulate(board: Board, player: Player) returns (s: nat)
    ensures s <= ONE && RolloutValue(board, player, player, s)
  {
    hide CheckWin, EmptyCells, WinValue;
    var mover, t := player, board;
    while true
      invariant forall v :: RolloutValue(t, mover, player, v) ==> RolloutValue(board, player, player, v)
      decreases Blanks(t)
    {
      BlanksPositive(t);
      var moves := AvailableMoves(t);
      if moves[0] == -1 {
        FirstMoveMark(t, moves[..]);
        break;
      }
      var nMoves := CountMoves(t, moves);
      FirstMoveMark(t, moves[..]);
      var pick: nat := *;
      var move := moves[pick % nMoves];
      assert move == moves[..nMoves][pick % nMoves];
      EmptyCellsAre(t, pick % nMoves);
      PlaceTakesOne(t, move, mover);
      ghost var t0 := t;
      t := Place(t, move, mover);
      var win := CheckWin(t);
      if win != Ongoing {
        WinValueShared(win, player);
        assert RolloutBy(t0, mover, player, move, WinValue(win, player));
        return WinValue(win, player);
      }
      assert forall v :: RolloutValue(t, Other(mover), player, v) ==> RolloutBy(t0, mover, player, move, v);
      mover := Other(mover);
    }
    return FIXED_HALF;
  }

  lemma EmptyCellsAre(b: Board, k: nat)
    requires k < Blanks(b)
    ensures EmptyCells(b)[k] < N_GRIDS && b[EmptyCells(b)[k]] == Empty
  {
    EmptyCellsToAre(b, N_GRIDS);
    assert EmptyCells(b)[k] in EmptyCells(b);
  }

  /** The first entry of a move list is the end mark exactly on a full board. */
  lemma FirstMoveMark(b: Board, moves: seq<int>)
    requires |moves| == N_GRIDS && moves[..Blanks(b)] == EmptyCells(b)
    requires Blanks(b) < N_GRIDS ==> moves[Blanks(b)] == -1
    ensures moves[0] == -1 <==> Blanks(b) == 0
  {
    if Blanks(b) > 0 {
      assert moves[0] == moves[..Blanks(b)][0];
    }
  }

  // ---- The search ----

  lemma ScoredRepresented(nodes: seq<Node>, a: Tree, i: nat, s: nat)
    requires Represents(nodes, a) && i < |a|
    ensures Represents(nodes, Scored(a, i, s))
  {
    forall j | 0 <= j < |nodes|
      ensures NodeIs(nodes, Scored(a, i, s), j)
    {
      assert NodeIs(nodes, a, j);
    }
  }

  lemma ExpandedRoot(a: Tree, i: nat)
    requires Shape(a) && i < |a|
    ensures var b := Expanded(a, i); b[0].board == a[0].board && b[0].player == a[0].player && b[i].board == a[i].board
  {
    hide CheckWin, EmptyCells;
  }

  /** A child is its parent with one stone more. */
  lemma KidBoard(a: Tree, i: nat, k: nat)
    requires Shape(a) && i < |a| && k < a[i].kids
    ensures a[i].first + k < |a|
    ensures var c := a[a[i].first + k];
            0 <= c.move < N_GRIDS && a[i].board[c.move] == Empty
            && c.board == Place(a[i].board, c.move, Other(c.player))
            && Blanks(c.board) < Blanks(a[i].board)
  {
    hide CheckWin, EmptyCells;
    assert KidsOk(a, i);
    assert KidOk(a, i, k);
    PlaceTakesOne(a[i].board, EmptyCells(a[i].board)[k], a[i].player);
  }

  lemma RootMove(a: Tree)
    requires Shape(a)
    ensures a[0].move == -1 && a[0].kids <= N_GRIDS
  {
    assert Linked(a, 0) && KidsOk(a, 0);
  }

  lemma RootAlone(nodes: seq<Node>)
    requires |nodes| == 1
    ensures Separate(nodes)
  {
  }

  /** The scan of the root's first n children has settled on `best`. */
  ghost predicate Leading(nodes: seq<Node>, a: Tree, n: nat, best: Node, most: int)
    requires |nodes| == |a| > 0 && a[0].first + n <= |a|
  {
    var b := MostVisited(a, n);
    if b < 0 then best == nodes[0] && most == -1
    else best == nodes[a[0].first + b] && most == RootKidVisits(a, b)
  }

  lemma LeadingStart(nodes: seq<Node>, a: Tree)
    requires |nodes| == |a| > 0 && a[0].first <= |a|
    ensures Leading(nodes, a, 0, nodes[0], -1)
  {
  }

  /** Slot k of the root: its child k, which leads from now on if it has more visits, or nothing. */
  lemma LeadingStep(nodes: seq<Node>, a: Tree, k: nat, best: Node, most: int)
    requires Represents(nodes, a) && |a| > 0 && k < N_GRIDS && a[0].first + a[0].kids <= |a|
    requires Leading(nodes, a, if k < a[0].kids then k else a[0].kids, best, most)
    ensures nodes[0].children.Length == N_GRIDS
    ensures k >= a[0].kids ==> nodes[0].children[k] == null
    ensures k < a[0].kids ==>
              var kid := nodes[0].children[k];
              kid != null
              && if kid.nVisits > most then Leading(nodes, a, k + 1, kid, kid.nVisits)
                 else Leading(nodes, a, k + 1, best, most)
  {
    hide Separate;
    assert NodeIs(nodes, a, 0);
    if k < a[0].kids {
      assert NodeIs(nodes, a, a[0].first + k);
    }
  }

  lemma LeadingEnd(nodes: seq<Node>, a: Tree, best: Node, most: int)
    requires |a| > 0 && Represents(nodes, a) && Shape(a) && a[0].kids <= N_GRIDS && a[0].first + a[0].kids <= |a|
    requires Leading(nodes, a, a[0].kids, best, most)
    ensures a[0].kids == 0 ==> best.move == -1
    ensures a[0].kids > 0 ==> MovesMostVisited(a, best.move)
  {
    hide CheckWin, EmptyCells, Blanks, Separate, Shape;
    RootMove(a);
    assert NodeIs(nodes, a, 0);
    if a[0].kids > 0 {
      var b := MostVisited(a, a[0].kids);
      assert NodeIs(nodes, a, a[0].first + b);
      KidBoard(a, 0, b);
      MostVisitedIsMax(a, a[0].kids);
    }
  }

  /** At a visited, unfinished node: no first child means no children, and then expansion will do. */
  lemma ReadyToDescend(nodes: seq<Node>, a: Tree, i: nat)
    requires Represents(nodes, a) && Conserved(a) && i < |a| && !Terminal(a[i]) && a[i].visits > 0
    ensures Shape(a) && a[i].first + a[i].kids <= |a| && nodes[i].children.Length == N_GRIDS
    ensures nodes[i].children[0] == null <==> a[i].kids == 0
  {
    hide CheckWin, EmptyCells, Balanced, Blanks, Separate, Shape, RolloutValue, FinalValue;
    assert NodeIs(nodes, a, i) && Own(a[i]);
    KidsFit(a, i);
  }

  class Engine {
    var nrActiveNodes: nat

    /** One iteration: descend from the root, score where the descent ends, hand the score
        up. The tree keeps its laws, gains exactly one visit at the root, and the node
        counter keeps counting its nodes. */
    method Iterate(root: Node, board: Board, ghost nodes0: seq<Node>, ghost a0: Tree)
      returns (ghost nodes: seq<Node>, ghost a: Tree)
      requires Represents(nodes0, a0) && Conserved(a0) && root == nodes0[0]
      requires a0[0].board == board && a0[0].visits < ITERATIONS && nrActiveNodes == |a0|
      requires this !in Footprint(nodes0)
      modifies this, nodes0, set n | n in nodes0 :: n.children
      ensures Represents(nodes, a) && Conserved(a) && Grown(nodes0, nodes) && nrActiveNodes == |a|
      ensures a[0].board == a0[0].board && a[0].player == a0[0].player && a[0].visits == a0[0].visits + 1
      ensures forall j :: |nodes0| <= j < |nodes| ==> fresh(nodes[j]) && fresh(nodes[j].children)
    {
      hide CheckWin, EmptyCells, FixedPoint.UctScore, Balanced, Shape, WinValue, Blanks, Separate, Expanded,
           RolloutValue, Select, Own;
      nodes, a := nodes0, a0;
      var node, t := root, board;
      ghost var i := 0;
      while true
        invariant 0 <= i < |a| && Represents(nodes, a) && Conserved(a) && Grown(nodes0, nodes) && nrActiveNodes == |a|
        invariant a[0].board == a0[0].board && a[0].player == a0[0].player && a[0].visits == a0[0].visits
        invariant forall j :: |nodes0| <= j < |nodes| ==> fresh(nodes[j]) && fresh(nodes[j].children)
        invariant node == nodes[i] && t == a[i].board
        decreases Blanks(t)
      {
        assert NodeIs(nodes, a, i);
        var win := CheckWin(t);
        if win != Ongoing {
          var s := WinValue(win, Other(node.player));
          WinValueShared(win, Other(node.player));
          a := FinishVisit(node, s, nodes, a, i);
          break;
        }
        if node.nVisits == 0 {
          var s := Simulate(t, node.player);
          a := FinishVisit(node, s, nodes, a, i);
          break;
        }
        node, nodes, a, i := Descend(node, t, nodes, a, i);
        t := Place(t, node.move, Other(node.player));
      }
    }

    /** One step down from a visited, unfinished node: expand it if it has no children yet,
        then select. */
    method Descend(node: Node, t: Board, ghost nodes0: seq<Node>, ghost a0: Tree, ghost i: nat)
      returns (next: Node, ghost nodes: seq<Node>, ghost a: Tree, ghost c: nat)
      requires Represents(nodes0, a0) && Conserved(a0) && i < |a0| && node == nodes0[i] && t == a0[i].board
      requires a0[0].visits < ITERATIONS && nrActiveNodes == |a0|
      requires CheckWin(t) == Ongoing && a0[i].visits > 0
      modifies this, node.children
      ensures Represents(nodes, a) && Conserved(a) && Grown(nodes0, nodes) && nrActiveNodes == |a|
      ensures a[0].board == a0[0].board && a[0].player == a0[0].player && a[0].visits == a0[0].visits
      ensures forall j :: |nodes0| <= j < |nodes| ==> fresh(nodes[j]) && fresh(nodes[j].children)
      ensures c < |a| && next == nodes[c] && 0 <= next.move < N_GRIDS && next.player == a[c].player
      ensures a[c].board == Place(t, next.move, Other(next.player)) && Blanks(a[c].board) < Blanks(t)
      ensures a == if a0[i].kids == 0 then Expanded(a0, i) else a0
      ensures a[i].first + a[i].kids <= |a| && c == a[i].first + Select(a, i, a[i].kids)
    {
      hide CheckWin, EmptyCells, FixedPoint.UctScore, Shape, Blanks, Expanded, Separate, Own, Balanced, Select;
      nodes, a := nodes0, a0;
      ReadyToDescend(nodes, a, i);
      if node.children[0] == null {
        var made;
        ExpandConserves(a, i);
        ExpandedRoot(a, i);
        made, nodes := Expand(node, t, nodes, a, i);
        nrActiveNodes := nrActiveNodes + made;
        a := Expanded(a, i);
      }
      SelectNeverStuck(a, i);
      var chosen := SelectMove(node, nodes, a, i);
      ghost var k := Select(a, i, a[i].kids);
      KidBoard(a, i, k);
      c := a[i].first + k;
      assert NodeIs(nodes, a, c);
      next := chosen;
    }

    /** The end of a descent: the score goes to the node and, flipping, to its ancestors. */
    method FinishVisit(node: Node, s: nat, ghost nodes: seq<Node>, ghost a: Tree, ghost i: nat)
      returns (ghost b: Tree)
      requires Represents(nodes, a) && Conserved(a) && i < |a| && node == nodes[i] && s <= ONE
      requires Terminal(a[i]) || a[i].visits == 0
      requires EarnedBy(a[i], s)
      modifies nodes
      ensures Represents(nodes, b) && Conserved(b) && |b| == |a|
      ensures b[0].visits == a[0].visits + 1 && b[0].board == a[0].board && b[0].player == a[0].player
    {
      hide CheckWin, EmptyCells, Balanced, KidsOk, Conserved, EarnedBy;
      ScoredRepresented(nodes, a, i, s);
      VisitConserves(a, i, s);
      Backpropagate(node, s, nodes, Scored(a, i, s), i);
      b := Backprop(Scored(a, i, s), i, s);
    }

    /** `mcts`: up to ITERATIONS descents, stopping early when the module shuts down, then the
        most visited child of the root. The ghost results are the final tree and the number
        of completed iterations. */
    method Play(board: Board, player: Player) returns (move: int, ghost a: Tree, ghost done: nat)
      modifies this
      ensures Conserved(a) && a[0].board == board && a[0].player == player
      ensures a[0].visits == done <= ITERATIONS && nrActiveNodes == |a|
      ensures a[0].first + a[0].kids <= |a|
      ensures a[0].kids == 0 ==> move == -1
      ensures a[0].kids > 0 ==> MovesMostVisited(a, move)
      ensures CheckWin(board) != Ongoing ==> move == -1
      ensures CheckWin(board) == Ongoing && done >= 2 ==> 0 <= move < N_GRIDS && board[move] == Empty
    {
      hide CheckWin, EmptyCells, FixedPoint.UctScore, Balanced, Shape, Blanks, Expanded, Separate, RolloutValue,
           WinValue;
      var root := new Node(-1, player, null);
      ghost var nodes := [root];
      a := Start(board, player);
      StartConserved(board, player);
      assert NodeIs(nodes, a, 0);
      RootAlone(nodes);
      nrActiveNodes := 1;
      done := 0;
      var i := 0;
      while i < ITERATIONS
        invariant 0 <= i <= ITERATIONS && done == i
        invariant |nodes| > 0 && nodes[0] == root && this !in Footprint(nodes)
        invariant forall j :: 0 <= j < |nodes| ==> fresh(nodes[j]) && fresh(nodes[j].children)
        invariant Represents(nodes, a) && Conserved(a) && nrActiveNodes == |a|
        invariant a[0].board == board && a[0].player == player && a[0].visits == done
      {
        var stopWork: bool := *;
        if stopWork {
          break;
        }
        nodes, a := Iterate(root, board, nodes, a);
        i := i + 1;
        done := done + 1;
      }
      move := Choose(root, nodes, a);
      assert Own(a[0]);
      if CheckWin(board) == Ongoing && done >= 2 {
        RootExpanded(a);
      }
    }

    /** The scan for the most visited child. */
    method Choose(root: Node, ghost nodes: seq<Node>, ghost a: Tree) returns (move: int)
      requires |a| > 0 && Represents(nodes, a) && Shape(a) && root == nodes[0]
      ensures a[0].first + a[0].kids <= |a|
      ensures a[0].kids == 0 ==> move == -1
      ensures a[0].kids > 0 ==> MovesMostVisited(a, move)
    {
      hide Shape, Separate, Leading, MovesMostVisited;
      KidsFit(a, 0);
      RootMove(a);
      var best: Node, mostVisits: int := root, -1;
      LeadingStart(nodes, a);
      for k := 0 to N_GRIDS
        invariant Represents(nodes, a) && Leading(nodes, a, if k < a[0].kids then k else a[0].kids, best, mostVisits)
      {
        LeadingStep(nodes, a, k, best, mostVisits);
        var kid := root.children[k];
        if kid != null {
          if kid.nVisits > mostVisits {
            mostVisits := kid.nVisits;
            best := kid;
          }
        }
      }
      move := best.move;
      LeadingEnd(nodes, a, best, mostVisits);
    }
  }
}
