/** The principal variation search: in-place board and hash, null windows and
    re-search, and the transposition table. */
module Negamax {
  import opened Game
  import opened Minimax
  import opened Keys
  import opened XorWords
  import Zobrist

  const MAX_SEARCH_DEPTH: int := 6

  /** A completed call that stored its result. */
  datatype Call = Call(board: Board, depth: int, player: Player, score: int, move: int)

  /** The entry is the result of this call, and the call belongs to the search. */
  ghost predicate StoredBy(z: Words, q: Search, c: Call, e: Zobrist.Entry) {
    e == Zobrist.Entry(Key(z, q.root, c.board), c.score, c.move)
    && OnSearch(q, c.board, c.depth, c.player)
    && !IsLeaf(c.board, c.depth)
    && -2400 <= c.score <= 2400
    && (CollisionFree(z, q.root) ==> Attained(c.board, c.depth, c.player, c.score, c.move))
  }

  /** Without key collisions a hit answers the very question that was asked: same board,
      same remaining depth, same side. */
  lemma HitIsSameCall(z: Words, q: Search, c: Call, e: Zobrist.Entry, b: Board, depth: int, p: Player)
    requires StoredBy(z, q, c, e) && OnSearch(q, b, depth, p)
    requires CollisionFree(z, q.root) && e.key == Key(z, q.root, b)
    ensures c == Call(b, depth, p, e.score, e.move)
    ensures Attained(b, depth, p, e.score, e.move)
  {
    hide Score, CheckWin, Blanks, Attained, Key;
  }

  // ---- The move loop, on values ----

  ghost predicate Legal(b: Board, move: int) {
    0 <= move < N_GRIDS && b[move] == Empty
  }

  /** What the loop knows after trying `tried`, against the window it was given. */
  ghost predicate Tally(b: Board, depth: int, p: Player, tried: seq<int>, alpha: int, beta: int, score: int,
                        move: int)
  {
    (forall k :: 0 <= k < |tried| ==> Legal(b, tried[k]))
    && (|tried| > 0 && score < beta ==> forall k :: 0 <= k < |tried| ==> MoveValue(b, depth, p, tried[k]) <= score)
    && (|tried| > 0 && score > alpha ==> Legal(b, move) && MoveValue(b, depth, p, move) >= score)
  }

  /** The lower end of the window once the loop has tried some moves. */
  function Raised(alpha: int, score: int, tried: nat): int {
    if tried == 0 then alpha else Max(alpha, score)
  }

  /** One more move, answered for the window the loop has reached. */
  lemma TallyStep(b: Board, depth: int, p: Player, tried: seq<int>, alpha: int, beta: int, score: int, move: int,
                  m: nat, s: int)
    requires Tally(b, depth, p, tried, alpha, beta, score, move)
    requires Legal(b, m) && Raised(alpha, score, |tried|) < beta
    requires |tried| == 0 ==> s > score
    requires Brackets(MoveValue(b, depth, p, m), Raised(alpha, score, |tried|), beta, s)
    ensures Tally(b, depth, p, tried + [m], alpha, beta, if s > score then s else score, if s > score then m else move)
  {
    var tried' := tried + [m];
    var score' := if s > score then s else score;
    if score' < beta {
      forall k | 0 <= k < |tried'|
        ensures MoveValue(b, depth, p, tried'[k]) <= score'
      {
        if k < |tried| {
          assert tried'[k] == tried[k];
        }
      }
    }
  }

  /** When the loop has cut off or run out of moves, its best score answers for the node. */
  lemma TallyAnswers(b: Board, depth: int, p: Player, tried: seq<int>, alpha: int, beta: int, score: int, move: int)
    requires Tally(b, depth, p, tried, alpha, beta, score, move) && !IsLeaf(b, depth) && |tried| > 0
    requires alpha < beta
    requires score >= beta || forall m :: Legal(b, m) ==> m in tried
    ensures Brackets(Value(b, depth, p), alpha, beta, score)
    ensures score > alpha ==> Legal(b, move) && MoveValue(b, depth, p, move) >= score
  {
    hide Score, CheckWin, Blanks;
    var best := ValueIsMax(b, depth, p);
    assert score < beta ==> MoveValue(b, depth, p, best) <= score by {
      if score < beta {
        assert Legal(b, best);
        var k :| 0 <= k < |tried| && tried[k] == best;
      }
    }
    assert score > alpha ==> MoveValue(b, depth, p, move) <= Value(b, depth, p);
  }

  lemma TallyEmpty(b: Board, depth: int, p: Player, alpha: int, beta: int)
    ensures Tally(b, depth, p, [], alpha, beta, WORST, -1)
  {
  }

  /** Doing a move on the board and the key reaches a node of the search one ply down;
      undoing it on both comes back. */
  lemma DoUndoMove(z: Words, q: Search, b: Board, depth: int, p: Player, m: nat)
    requires OnSearch(q, b, depth, p) && Legal(b, m)
    ensures var child := Place(b, m, p);
            OnSearch(q, child, depth - 1, Other(p))
            && Key(z, q.root, child) == Xor(Key(z, q.root, b), Word(z, m, p))
            && Xor(Key(z, q.root, child), Word(z, m, p)) == Key(z, q.root, b)
            && Place(child, m, Empty) == b
            && Blanks(child) < Blanks(b)
            && MoveValue(b, depth, p, m) == -Value(child, depth - 1, Other(p))
            && forall s :: ReachesBy(b, depth, p, m, s) <==> Reaches(child, depth - 1, Other(p), -s)
  {
    hide Score, CheckWin, Xor, Word, Blanks, Key;
    KeyDoUndo(z, q.root, b, m, p);
    ChildOnSearch(q, b, depth, p, m);
    PlaceTakesOne(b, m, p);
  }

  class Searcher {
    const words: Words
    const table: Zobrist.Table
    var hashValue: bv64
    /** The completed calls behind the entries of the table, put by put. */
    ghost var calls: seq<Call>

    ghost function Frame(): set<object> {
      {this} + table.Frame()
    }

    /** Between moves of the search `q`. */
    ghost predicate Ready(q: Search)
      reads Frame()
    {
      table.Valid()
      && |calls| == (if table.buckets == null then 0 else |table.puts|)
      && (forall k :: 0 <= k < |calls| ==> StoredBy(words, q, calls[k], table.puts[k]))
    }

    /** Between searches: nothing stored, hash at zero. */
    ghost predicate Idle()
      reads Frame()
    {
      table.Valid() && table.puts == [] && calls == [] && hashValue == 0
    }

    /** The table's newest entry for the current key is this answer. */
    ghost predicate Answered(score: int, move: int)
      reads Frame()
    {
      var k := Zobrist.Newest(table.puts, hashValue);
      k >= 0 && table.puts[k] == Zobrist.Entry(hashValue, score, move)
    }

    constructor (words: Words, hasTable: bool)
      ensures Idle() && this.words == words && (table.buckets != null <==> hasTable)
      ensures fresh(Frame() - {this})
    {
      this.words := words;
      table := new Zobrist.Table(hasTable);
      hashValue := 0;
      calls := [];
    }

    /** `sort` under an ordering that only the history tables know: any permutation of
        the first n moves. */
    method SortMoves(moves: array<int>, n: nat)
      requires n <= moves.Length
      modifies moves
      ensures multiset(moves[..n]) == multiset(old(moves[..n]))
      ensures moves[n..] == old(moves[n..])
    {
      ghost var was := moves[..];
      var swaps: nat := *;
      while swaps > 0
        invariant multiset(moves[..n]) == multiset(was[..n]) && moves[n..] == was[n..]
      {
        swaps := swaps - 1;
        var i: nat, j: nat := *, *;
        if i < n && j < n {
          SwapKeepsMultiset(moves[..n], i, j);
          ghost var before := moves[..n];
          moves[i], moves[j] := moves[j], moves[i];
          assert moves[..n] == before[i := before[j]][j := before[i]];
        }
      }
    }

    /** The move list of a node, counted and sorted. */
    method OrderedMoves(b: Board) returns (moves: array<int>, n: nat)
      requires CheckWin(b) == Ongoing
      ensures fresh(moves) && 0 < n <= moves.Length
      ensures forall m :: m in moves[..n] <==> Legal(b, m)
    {
      hide CheckWin;
      OngoingHasMove(b);
      moves := AvailableMoves(b);
      n := CountMoves(b, moves);
      SortMoves(moves, n);
      SortedAreEmpties(b, moves[..n]);
    }

    /** One move of the loop: put the stone on board and key, search, take it off again. */
    method TryMove(ghost q: Search, board: Board, depth: int, p: Player, m: nat, alpha: int, beta: int, first: bool)
      returns (after: Board, score: int)
      requires Ready(q) && OnSearch(q, board, depth, p) && hashValue == Key(words, q.root, board)
      requires Legal(board, m) && alpha < beta
      modifies Frame()
      ensures after == board
      ensures Ready(q) && hashValue == old(hashValue) && old(calls) <= calls
      ensures -2400 <= score <= 2400
      ensures CollisionFree(words, q.root) ==> ReachesBy(board, depth, p, m, score)
      ensures table.buckets == null ==> Brackets(MoveValue(board, depth, p, m), alpha, beta, score)
      decreases Blanks(board), 1
    {
      hide Score, CheckWin, Xor, Word, Zobrist.Table.Valid, Blanks, OnSearch, Key, Brackets, CollisionFree, StoredBy;
      DoUndoMove(words, q, board, depth, p, m);
      after := Place(board, m, p);
      hashValue := Xor(hashValue, Word(words, m, p));
      score := SearchMove(q, after, depth, p, alpha, beta, first);
      after := Place(after, m, Empty);
      hashValue := Xor(hashValue, Word(words, m, p));
    }

    /** The search below one move: full window for the first move, otherwise a null-window
        probe and, when the probe lands inside the window, a re-search above it. */
    method SearchMove(ghost q: Search, child: Board, depth: int, p: Player, alpha: int, beta: int, first: bool)
      returns (score: int)
      requires Ready(q) && OnSearch(q, child, depth - 1, Other(p)) && hashValue == Key(words, q.root, child)
      requires alpha < beta
      modifies Frame()
      ensures Ready(q) && hashValue == old(hashValue) && old(calls) <= calls
      ensures -2400 <= score <= 2400
      ensures CollisionFree(words, q.root) ==> Reaches(child, depth - 1, Other(p), -score)
      ensures table.buckets == null ==> Brackets(-Value(child, depth - 1, Other(p)), alpha, beta, score)
      decreases Blanks(child), 5
    {
      hide Score, CheckWin, Blanks, Attained, Zobrist.Table.Valid, StoredBy, OnSearch, Key, CollisionFree;
      var r, m;
      ghost var value := -Value(child, depth - 1, Other(p));
      if first {
        r, m := Search(q, child, depth - 1, Other(p), -beta, -alpha);
        score := -r;
        BracketsNegated(value, alpha, beta, score);
      } else {
        r, m := Search(q, child, depth - 1, Other(p), -alpha - 1, -alpha);
        score := -r;
        BracketsNegated(value, alpha, alpha + 1, score);
        if alpha < score < beta {
          var probe := score;
          score, m := Research(q, child, depth, p, probe, beta, m);
          if table.buckets == null {
            ProbeThenResearch(value, alpha, beta, probe, score);
          }
        } else if table.buckets == null {
          ProbeThenResearch(value, alpha, beta, score, score);
        }
      }
      AttainedReaches(child, depth - 1, Other(p), -score, m);
    }

    /** The re-search above a probe's score. Without a table it answers for the rest of the
        window. With one it never searches: the probe has left its own answer under the same
        key, and unless the child is a leaf that is what comes back, whatever the window. */
    method Research(ghost q: Search, child: Board, depth: int, p: Player, probe: int, beta: int,
                    ghost probed: int)
      returns (score: int, move: int)
      requires Ready(q) && OnSearch(q, child, depth - 1, Other(p)) && hashValue == Key(words, q.root, child)
      requires probe < beta
      requires table.buckets != null && !IsLeaf(child, depth - 1) ==> Answered(-probe, probed)
      modifies Frame()
      ensures Ready(q) && hashValue == old(hashValue) && old(calls) <= calls
      ensures -2400 <= score <= 2400
      ensures CollisionFree(words, q.root) ==> Attained(child, depth - 1, Other(p), -score, move)
      ensures table.buckets == null ==> Brackets(-Value(child, depth - 1, Other(p)), probe, beta, score)
      ensures table.buckets != null && !IsLeaf(child, depth - 1) ==>
                score == probe && move == probed && calls == old(calls)
      decreases Blanks(child), 4
    {
      hide Score, CheckWin, Blanks, Attained, Zobrist.Table.Valid, StoredBy, OnSearch, Key, CollisionFree;
      var r;
      r, move := Search(q, child, depth - 1, Other(p), -beta, -probe);
      score := -r;
      BracketsNegated(-Value(child, depth - 1, Other(p)), probe, beta, score);
    }

    /** `negamax`. */
    method Search(ghost q: Search, board: Board, depth: int, p: Player, alpha0: int, beta: int)
      returns (score: int, move: int)
      requires Ready(q) && OnSearch(q, board, depth, p) && hashValue == Key(words, q.root, board)
      requires alpha0 < beta
      modifies Frame()
      ensures Ready(q) && hashValue == old(hashValue) && old(calls) <= calls
      ensures -2400 <= score <= 2400
      ensures IsLeaf(board, depth) ==> score == Score(board, p) && move == -1 && calls == old(calls)
      ensures !IsLeaf(board, depth) && Zobrist.Newest(old(table.puts), old(hashValue)) >= 0 ==>
                calls == old(calls)
                && table.puts[Zobrist.Newest(old(table.puts), old(hashValue))] == Zobrist.Entry(hashValue, score, move)
      ensures !IsLeaf(board, depth) && Zobrist.Newest(old(table.puts), old(hashValue)) < 0 ==>
                0 <= move < N_GRIDS && board[move] == Empty
                && (table.buckets != null ==>
                      |calls| > |old(calls)| && calls[|calls| - 1] == Call(board, depth, p, score, move))
      ensures table.buckets != null && !IsLeaf(board, depth) ==> Answered(score, move)
      ensures !IsLeaf(board, depth) && Zobrist.Newest(old(table.puts), old(hashValue)) >= 0 ==>
                table.puts == old(table.puts)
      ensures CollisionFree(words, q.root) ==> Attained(board, depth, p, score, move)
      ensures table.buckets == null ==> Brackets(Value(board, depth, p), alpha0, beta, score)
      ensures table.buckets == null && !IsLeaf(board, depth) && score > alpha0 ==>
                MoveValue(board, depth, p, move) >= score
      decreases Blanks(board), 3
    {
      hide Score, CheckWin, Blanks, Zobrist.Table.Valid, Key, CollisionFree, OnSearch;
      if CheckWin(board) != Ongoing || depth == 0 {
        score := GetScore(board, p);
        ScoreFacts(board, p);
        return score, -1;
      }
      var found, cachedScore, cachedMove := table.Get(hashValue);
      if found {
        ghost var k := Zobrist.Newest(table.puts, hashValue);
        if CollisionFree(words, q.root) {
          HitIsSameCall(words, q, calls[k], table.puts[k], board, depth, p);
        }
        return cachedScore, cachedMove;
      }
      score, move := SearchMoves(q, board, depth, p, alpha0, beta);
      table.Put(hashValue, score, move);
      if table.buckets != null {
        calls := calls + [Call(board, depth, p, score, move)];
      }
    }

    /** The move loop of `negamax` at an inner node that missed the table. */
    method SearchMoves(ghost q: Search, board: Board, depth: int, p: Player, alpha0: int, beta: int)
      returns (score: int, move: int)
      requires Ready(q) && OnSearch(q, board, depth, p) && hashValue == Key(words, q.root, board)
      requires alpha0 < beta && !IsLeaf(board, depth)
      modifies Frame()
      ensures Ready(q) && hashValue == old(hashValue) && old(calls) <= calls
      ensures -2400 <= score <= 2400
      ensures 0 <= move < N_GRIDS && board[move] == Empty
      ensures CollisionFree(words, q.root) ==> Attained(board, depth, p, score, move)
      ensures table.buckets == null ==> Brackets(Value(board, depth, p), alpha0, beta, score)
      ensures table.buckets == null && score > alpha0 ==> MoveValue(board, depth, p, move) >= score
      decreases Blanks(board), 2
    {
      hide Score, CheckWin, Xor, Word, Zobrist.Table.Valid, Blanks, OnSearch, Key, Tally, Brackets, CollisionFree,
           StoredBy, EmptyCells;
      TallyEmpty(board, depth, p, alpha0, beta);
      var t, alpha := board, alpha0;
      score, move := WORST, -1;
      var moves, nMoves := OrderedMoves(t);
      ghost var order := moves[..nMoves];
      var i := 0;
      while i < nMoves
        invariant 0 <= i <= nMoves <= moves.Length && moves[..nMoves] == order && fresh(moves)
        invariant t == board && hashValue == old(hashValue) && Ready(q) && old(calls) <= calls
        invariant alpha == Raised(alpha0, score, i) && (i < nMoves ==> alpha < beta)
        invariant i == 0 ==> score == WORST
        invariant i > 0 ==> -2400 <= score <= 2400 && Legal(board, move)
        invariant i > 0 && CollisionFree(words, q.root) ==> ReachesBy(board, depth, p, move, score)
        invariant table.buckets == null ==> Tally(board, depth, p, order[..i], alpha0, beta, score, move)
      {
        var m := moves[i];
        assert m == order[i] && m in order;
        var s;
        t, s := TryMove(q, t, depth, p, m, alpha, beta, i == 0);
        if table.buckets == null {
          TallyStep(board, depth, p, order[..i], alpha0, beta, score, move, m, s);
          assert order[..i] + [m] == order[..i + 1];
        }
        if s > score {
          score := s;
          move := m;
        }
        i := i + 1;
        if s > alpha {
          alpha := s;
        }
        if alpha >= beta {
          break;
        }
      }
      if table.buckets == null {
        TallyAnswers(board, depth, p, order[..i], alpha0, beta, score, move);
      }
    }

    /** `negamax_predict`: iterative deepening over depths 2, 4, 6. Without a table the move
        is optimal under two-player minimax at the last depth; with one, whatever the keys, it
        is legal and the searcher is left as it was found. */
    method Predict(board: Board, p: Player) returns (move: int)
      requires Idle()
      modifies Frame()
      ensures Idle()
      ensures CheckWin(board) != Ongoing ==> move == -1
      ensures CheckWin(board) == Ongoing ==> Legal(board, move)
      ensures CheckWin(board) == Ongoing && table.buckets == null ==> OptimalMove(board, MAX_SEARCH_DEPTH, p, move)
    {
      hide Score, CheckWin, Blanks, Key, OnSearch, StoredBy, Brackets, OptimalMove;
      var depth := 2;
      var score;
      move := -1;
      while depth <= MAX_SEARCH_DEPTH
        invariant Idle() && 2 <= depth <= 8 && depth % 2 == 0
        invariant CheckWin(board) != Ongoing ==> move == -1
        invariant CheckWin(board) == Ongoing && depth > 2 ==> Legal(board, move)
        invariant CheckWin(board) == Ongoing && table.buckets == null && depth > 2 ==>
                    OptimalMove(board, depth - 2, p, move)
      {
        ghost var q := Keys.Search(board, depth, p);
        RootOnSearch(words, board, depth, p);
        score, move := Search(q, board, depth, p, -100000, 100000);
        if CheckWin(board) == Ongoing && table.buckets == null {
          WideWindowIsExact(board, depth, p, score);
          BestMoveIsOptimal(board, depth, p, move);
        }
        table.Clear();
        calls := [];
        depth := depth + 2;
      }
    }
  }

  lemma RootOnSearch(z: Words, b: Board, depth: int, p: Player)
    ensures OnSearch(Search(b, depth, p), b, depth, p) && Key(z, b, b) == 0
  {
    hide Blanks;
    KeyToRoot(z, b, N_GRIDS);
  }

  /** The root window is wider than any score, so the root answer is exact. */
  lemma WideWindowIsExact(b: Board, depth: int, p: Player, score: int)
    requires -2400 <= score <= 2400 && Brackets(Value(b, depth, p), -100000, 100000, score)
    ensures score == Value(b, depth, p)
  {
  }

  /** A move worth at least the value of its node is worth exactly that, and no move is better. */
  lemma BestMoveIsOptimal(b: Board, depth: int, p: Player, move: int)
    requires !IsLeaf(b, depth) && Legal(b, move) && MoveValue(b, depth, p, move) >= Value(b, depth, p)
    ensures OptimalMove(b, depth, p, move)
  {
    hide Score, CheckWin, Blanks;
    var best := ValueIsMax(b, depth, p);
    ValueIsMinimax(b, depth, p);
    PlaceTakesOne(b, move, p);
    ValueIsMinimax(Place(b, move, p), depth - 1, Other(p));
  }

  /** Playing `move` leads, under two-player minimax to the given depth, to the same outcome
      as best play from b. */
  ghost predicate OptimalMove(b: Board, depth: int, p: Player, move: int) {
    Legal(b, move) && Outcome(Place(b, move, p), depth - 1, Other(p)) == Outcome(b, depth, p)
  }

  lemma AttainedReaches(b: Board, depth: int, p: Player, s: int, move: int)
    ensures Attained(b, depth, p, s, move) ==> Reaches(b, depth, p, s)
  {
  }

  lemma SwapKeepsMultiset(s: seq<int>, i: nat, j: nat)
    requires i < |s| && j < |s|
    ensures multiset(s[i := s[j]][j := s[i]]) == multiset(s)
  {
  }

  /** A permutation of the move list still lists the empty cells and nothing else. */
  lemma SortedAreEmpties(b: Board, order: seq<int>)
    requires multiset(order) == multiset(EmptyCells(b))
    ensures forall m :: m in order <==> Legal(b, m)
  {
    EmptyCellsToAre(b, N_GRIDS);
    forall m
      ensures m in order <==> m in EmptyCells(b)
    {
      assert m in order <==> m in multiset(order);
      assert m in EmptyCells(b) <==> m in multiset(EmptyCells(b));
    }
  }
}
