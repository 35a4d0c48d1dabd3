/** Zobrist keys: the running hash of a search is the XOR of the words of the
    cells filled since the root. */
module Keys {
  import opened Game
  import opened XorWords

  /** `zobrist_table`: for each cell a word for O and a word for X, arbitrary. */
  type Words = w: seq<(bv64, bv64)> | |w| == N_GRIDS witness seq(N_GRIDS, _ => (0, 0))

  function Word(z: Words, m: nat, c: Cell): bv64
    requires m < N_GRIDS
  {
    if c == X then z[m].1 else z[m].0
  }

  /** Key of the cells below n on which b differs from the root. */
  function KeyTo(z: Words, root: Board, b: Board, n: nat): bv64
    requires n <= N_GRIDS
  {
    if n == 0 then 0
    else if b[n - 1] == root[n - 1] then KeyTo(z, root, b, n - 1)
    else Xor(KeyTo(z, root, b, n - 1), Word(z, n - 1, b[n - 1]))
  }

  function Key(z: Words, root: Board, b: Board): bv64 {
    KeyTo(z, root, b, N_GRIDS)
  }

  /** b is the root with some more stones on it. */
  ghost predicate Extends(root: Board, b: Board) {
    forall i :: 0 <= i < N_GRIDS && root[i] != Empty ==> b[i] == root[i]
  }

  ghost predicate CollisionFree(z: Words, root: Board) {
    forall b1: Board, b2: Board ::
      Extends(root, b1) && Extends(root, b2) && Key(z, root, b1) == Key(z, root, b2) ==> b1 == b2
  }

  lemma {:induction false} KeyToPlace(z: Words, root: Board, b: Board, m: nat, p: Player, n: nat)
    requires m < N_GRIDS && n <= N_GRIDS && root[m] == Empty && b[m] == Empty
    ensures KeyTo(z, root, Place(b, m, p), n)
         == if m < n then Xor(KeyTo(z, root, b, n), Word(z, m, p)) else KeyTo(z, root, b, n)
  {
    hide Xor, Word;
    if n > 0 {
      KeyToPlace(z, root, b, m, p, n - 1);
      if m < n - 1 && b[n - 1] != root[n - 1] {
        XorSwap(KeyTo(z, root, b, n - 1), Word(z, n - 1, b[n - 1]), Word(z, m, p));
      }
    }
  }

  lemma {:induction false} KeyToRoot(z: Words, root: Board, n: nat)
    requires n <= N_GRIDS
    ensures KeyTo(z, root, root, n) == 0
  {
    if n > 0 {
      KeyToRoot(z, root, n - 1);
    }
  }

  /** A stone toggles its word into the key; toggling it again restores the key. */
  lemma KeyDoUndo(z: Words, root: Board, b: Board, m: nat, p: Player)
    requires m < N_GRIDS && b[m] == Empty && Extends(root, b)
    ensures Key(z, root, Place(b, m, p)) == Xor(Key(z, root, b), Word(z, m, p))
    ensures Word(z, m, p) == if p == O then z[m].0 else z[m].1
    ensures Xor(Key(z, root, Place(b, m, p)), Word(z, m, p)) == Key(z, root, b)
    ensures Extends(root, Place(b, m, p))
  {
    hide Xor;
    KeyToPlace(z, root, b, m, p, N_GRIDS);
    XorCancels(Key(z, root, b), Word(z, m, p));
  }

  // ---- Where in a search a board can occur ----

  /** One deepening iteration: the root board, its depth and the side to move. */
  datatype Search = Search(root: Board, depth: int, player: Player)

  /** A node of the search: the board reached, what is left of the depth, and the side
      to move, as the stones added since the root fix them. */
  ghost predicate OnSearch(q: Search, b: Board, depth: int, p: Player) {
    var added := Blanks(q.root) - Blanks(b);
    Extends(q.root, b)
    && depth == q.depth - added
    && p == if added % 2 == 0 then q.player else Other(q.player)
  }

  lemma ChildOnSearch(q: Search, b: Board, depth: int, p: Player, m: nat)
    requires OnSearch(q, b, depth, p) && m < N_GRIDS && b[m] == Empty
    ensures OnSearch(q, Place(b, m, p), depth - 1, Other(p))
  {
    PlaceTakesOne(b, m, p);
  }
}
