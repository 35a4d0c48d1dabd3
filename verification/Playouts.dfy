/** A rollout of the tree search is a game played out: which games they are, move by move. */
module Playouts {
  import opened Game
  import opened Record
  import opened MctsTree

  /** Who makes move k, counted from 0, when p makes the first. */
  function Turn(p: Player, k: nat): Player {
    if k % 2 == 0 then p else Other(p)
  }

  function After(b: Board, p: Player, moves: seq<CellIndex>, k: nat): Board
    requires k <= |moves|
  {
    if k == 0 then b else Place(After(b, p, moves, k - 1), moves[k - 1], Turn(p, k - 1))
  }

  ghost predicate OnEmptyCells(b: Board, p: Player, moves: seq<CellIndex>) {
    forall k :: 0 <= k < |moves| ==> After(b, p, moves, k)[moves[k]] == Empty
  }

  /** The sides move in turn, p first, each on an empty cell; the game goes on until a move
      decides it, and is then worth s to `player`. */
  ghost predicate Playout(b: Board, p: Player, player: Player, moves: seq<CellIndex>, s: int) {
    moves != []
    && OnEmptyCells(b, p, moves)
    && (forall k :: 0 < k < |moves| ==> CheckWin(After(b, p, moves, k)) == Ongoing)
    && CheckWin(After(b, p, moves, |moves|)) != Ongoing
    && s == WinValue(CheckWin(After(b, p, moves, |moves|)), player)
  }

  /** The game after its first move. */
  lemma {:induction false} AfterFirst(b: Board, p: Player, m: CellIndex, rest: seq<CellIndex>, k: nat)
    requires k <= |rest|
    ensures After(b, p, [m] + rest, k + 1) == After(Place(b, m, p), Other(p), rest, k)
  {
    if k > 0 {
      AfterFirst(b, p, m, rest, k - 1);
      assert ([m] + rest)[k] == rest[k - 1];
      assert Turn(p, k) == Turn(Other(p), k - 1);
    } else {
      assert After(b, p, [m] + rest, 0) == b;
    }
  }

  lemma PlayoutFrom(b: Board, p: Player, player: Player, m: CellIndex, rest: seq<CellIndex>, s: int)
    requires b[m] == Empty && CheckWin(Place(b, m, p)) == Ongoing && Playout(Place(b, m, p), Other(p), player, rest, s)
    ensures Playout(b, p, player, [m] + rest, s)
  {
    hide After, CheckWin, WinValue, Place;
    var moves := [m] + rest;
    AfterNothing(b, p, moves);
    AfterNothing(Place(b, m, p), Other(p), rest);
    AfterFirst(b, p, m, rest, 0);
    AfterFirst(b, p, m, rest, |rest|);
    forall k | 0 <= k < |moves|
      ensures After(b, p, moves, k)[moves[k]] == Empty
      ensures k > 0 ==> CheckWin(After(b, p, moves, k)) == Ongoing
    {
      if k > 0 {
        AfterFirst(b, p, m, rest, k - 1);
        assert moves[k] == rest[k - 1];
      }
    }
  }

  lemma AfterNothing(b: Board, p: Player, moves: seq<CellIndex>)
    ensures After(b, p, moves, 0) == b
  {
  }

  lemma PlayoutRest(b: Board, p: Player, player: Player, moves: seq<CellIndex>, s: int)
    requires Playout(b, p, player, moves, s) && CheckWin(Place(b, moves[0], p)) == Ongoing
    ensures Playout(Place(b, moves[0], p), Other(p), player, moves[1..], s)
  {
    hide After, CheckWin, WinValue, Place;
    var m, rest := moves[0], moves[1..];
    assert moves == [m] + rest;
    AfterNothing(b, p, moves);
    AfterNothing(Place(b, m, p), Other(p), rest);
    AfterFirst(b, p, m, rest, 0);
    AfterFirst(b, p, m, rest, |rest|);
    assert rest != [];
    forall k | 0 <= k < |rest|
      ensures After(Place(b, m, p), Other(p), rest, k)[rest[k]] == Empty
      ensures k > 0 ==> CheckWin(After(Place(b, m, p), Other(p), rest, k)) == Ongoing
    {
      AfterFirst(b, p, m, rest, k);
      assert moves[k + 1] == rest[k];
    }
  }

  lemma PlayoutOfOne(b: Board, p: Player, player: Player, m: CellIndex, s: int)
    requires CheckWin(Place(b, m, p)) != Ongoing
    ensures Playout(b, p, player, [m], s) <==> b[m] == Empty && s == WinValue(CheckWin(Place(b, m, p)), player)
  {
    hide CheckWin, WinValue, Place, After;
    AfterNothing(b, p, [m]);
    AfterNothing(Place(b, m, p), Other(p), []);
    AfterFirst(b, p, m, [], 0);
    assert [m] + [] == [m];
  }

  lemma DecidedAtOnce(b: Board, p: Player, player: Player, moves: seq<CellIndex>, s: int)
    requires Playout(b, p, player, moves, s) && CheckWin(Place(b, moves[0], p)) != Ongoing
    ensures moves == [moves[0]]
  {
    hide CheckWin, WinValue, Place, After;
    AfterNothing(b, p, moves);
    AfterNothing(Place(b, moves[0], p), Other(p), moves[1..]);
    AfterFirst(b, p, moves[0], moves[1..], 0);
    assert [moves[0]] + moves[1..] == moves;
  }

  /** What a rollout can be worth is what some game from that board is worth: the sides take
      turns until a move decides it. */
  lemma {:induction false} RolloutIsPlayout(b: Board, p: Player, player: Player, s: int)
    requires HasEmpty(b)
    ensures RolloutValue(b, p, player, s) <==> exists moves :: Playout(b, p, player, moves, s)
    decreases Blanks(b)
  {
    if RolloutValue(b, p, player, s) {
      var m: nat :| m < N_GRIDS && b[m] == Empty && RolloutBy(b, p, player, m, s);
      RolloutHasPlayout(b, p, player, m, s);
    }
    forall moves | Playout(b, p, player, moves, s)
      ensures RolloutValue(b, p, player, s)
    {
      PlayoutIsRollout(b, p, player, moves, s);
    }
  }

  lemma {:induction false} RolloutHasPlayout(b: Board, p: Player, player: Player, m: CellIndex, s: int)
    requires b[m] == Empty && RolloutBy(b, p, player, m, s)
    ensures exists moves :: Playout(b, p, player, moves, s)
    decreases Blanks(b)
  {
    hide CheckWin, WinValue, Playout;
    PlaceTakesOne(b, m, p);
    var b' := Place(b, m, p);
    if CheckWin(b') != Ongoing {
      PlayoutOfOne(b, p, player, m, s);
      assert Playout(b, p, player, [m], s);
    } else {
      OngoingHasMove(b');
      var n: nat :| n < N_GRIDS && b'[n] == Empty && RolloutBy(b', Other(p), player, n, s);
      RolloutHasPlayout(b', Other(p), player, n, s);
      var rest :| Playout(b', Other(p), player, rest, s);
      PlayoutFrom(b, p, player, m, rest, s);
      assert Playout(b, p, player, [m] + rest, s);
    }
  }

  lemma {:induction false} PlayoutIsRollout(b: Board, p: Player, player: Player, moves: seq<CellIndex>, s: int)
    requires Playout(b, p, player, moves, s)
    ensures RolloutValue(b, p, player, s)
    decreases |moves|
  {
    var m := moves[0];
    FirstOnEmpty(b, p, player, moves, s);
    hide CheckWin, WinValue, Playout;
    PlaceTakesOne(b, m, p);
    var b' := Place(b, m, p);
    if CheckWin(b') != Ongoing {
      DecidedAtOnce(b, p, player, moves, s);
      PlayoutOfOne(b, p, player, m, s);
    } else {
      PlayoutRest(b, p, player, moves, s);
      PlayoutIsRollout(b', Other(p), player, moves[1..], s);
    }
    assert RolloutBy(b, p, player, m, s);
  }

  lemma FirstOnEmpty(b: Board, p: Player, player: Player, moves: seq<CellIndex>, s: int)
    requires Playout(b, p, player, moves, s)
    ensures b[moves[0]] == Empty
  {
    hide CheckWin, WinValue, Place;
    assert After(b, p, moves, 0) == b;
  }
}
