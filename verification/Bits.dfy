/** The packed words: two bits a cell, four bits a recorded move, and the attribute fields. */
module Bits {
  import opened Game
  import opened Record

  // ---- Field access ----

  function SetBits(x: bv32, value: bv32, mask: bv32, n: bv6): bv32
    requires n < 32
  {
    (x & !(mask << n)) | (value << n)
  }

  function GetBits(x: bv32, mask: bv32, n: bv6): bv32
    requires n < 32
  {
    (x & (mask << n)) >> n
  }

  function SetBits64(x: bv64, value: bv64, mask: bv64, n: bv7): bv64
    requires n < 64
  {
    (x & !(mask << n)) | (value << n)
  }

  function GetBits64(x: bv64, mask: bv64, n: bv7): bv64
    requires n < 64
  {
    (x & (mask << n)) >> n
  }

  // ---- The board word ----

  /** Cell numbers as the words see them. */
  type CellPlace = p: bv6 | p < 16

  const PLACES: seq<CellPlace> := [0, 1, 2, 3, 4, 5, 6, 7, 8, 9, 10, 11, 12, 13, 14, 15]

  function Place6(i: nat): (p: bv6)
    requires i < N_GRIDS
    ensures p < 16
  {
    PLACES[i]
  }

  lemma PlaceInjective(i: nat, j: nat)
    requires i < N_GRIDS && j < N_GRIDS && i != j
    ensures Place6(i) != Place6(j)
  {
  }

  function GetCell(t: bv32, p: bv6): bv32
    requires p < 16
  {
    GetBits(t, 3, p << 1)
  }

  function SetCell(t: bv32, p: bv6, v: bv32): bv32
    requires p < 16
  {
    SetBits(t, v, 3, p << 1)
  }

  function Code(c: Cell): bv32 {
    match c
    case Empty => 0
    case O => 1
    case X => 2
  }

  function Decode(v: bv32): Cell {
    if v == 1 then O else if v == 2 then X else Empty
  }

  /** No cell holds the code reserved for a draw. */
  ghost predicate NoDraw(t: bv32) {
    forall i :: 0 <= i < N_GRIDS ==> GetCell(t, Place6(i)) != 3
  }

  function Cells(t: bv32): Board {
    seq(N_GRIDS, i requires 0 <= i < N_GRIDS => Decode(GetCell(t, Place6(i))))
  }

  lemma GetSetSameCell(t: bv32, p: bv6, v: bv32)
    requires p < 16 && v <= 3
    ensures GetCell(SetCell(t, p, v), p) == v
  {
  }

  lemma DisjointFields(x: bv32, v: bv32, a: bv32, b: bv32)
    requires a & b == 0 && v & !a == 0
    ensures ((x & !a) | v) & b == x & b
  {
  }

  lemma CellsDisjoint(p: bv6, q: bv6)
    requires p < 16 && q < 16 && p != q
    ensures (3 as bv32 << (p << 1)) & (3 << (q << 1)) == 0
  {
  }

  lemma CodeInField(p: bv6, v: bv32)
    requires p < 16 && v <= 3
    ensures (v << (p << 1)) & !(3 << (p << 1)) == 0
  {
  }

  lemma GetSetOtherCell(t: bv32, p: bv6, q: bv6, v: bv32)
    requires p < 16 && q < 16 && p != q && v <= 3
    ensures GetCell(SetCell(t, p, v), q) == GetCell(t, q)
  {
    CellsDisjoint(p, q);
    CodeInField(p, v);
    DisjointFields(t, v << (p << 1), 3 << (p << 1), 3 << (q << 1));
  }

  lemma GetCellSmall(t: bv32, p: bv6)
    requires p < 16
    ensures GetCell(t, p) <= 3
  {
  }

  /** Writing a cell of the word is placing a stone on the board, and touches no other cell. */
  lemma SetCellIsPlace(t: bv32, i: nat, c: Cell)
    requires i < N_GRIDS && NoDraw(t)
    ensures Cells(SetCell(t, Place6(i), Code(c))) == Place(Cells(t), i, c)
    ensures NoDraw(SetCell(t, Place6(i), Code(c)))
  {
    hide GetCell, SetCell;
    forall j | 0 <= j < N_GRIDS
      ensures GetCell(SetCell(t, Place6(i), Code(c)), Place6(j)) == if i == j then Code(c) else GetCell(t, Place6(j))
    {
      if i == j {
        GetSetSameCell(t, Place6(i), Code(c));
      } else {
        PlaceInjective(i, j);
        GetSetOtherCell(t, Place6(i), Place6(j), Code(c));
      }
    }
  }

  lemma WordFromCells(t: bv32, u: bv32)
    requires GetCell(t, 0) == GetCell(u, 0) && GetCell(t, 1) == GetCell(u, 1) && GetCell(t, 2) == GetCell(u, 2)
    requires GetCell(t, 3) == GetCell(u, 3) && GetCell(t, 4) == GetCell(u, 4) && GetCell(t, 5) == GetCell(u, 5)
    requires GetCell(t, 6) == GetCell(u, 6) && GetCell(t, 7) == GetCell(u, 7) && GetCell(t, 8) == GetCell(u, 8)
    requires GetCell(t, 9) == GetCell(u, 9) && GetCell(t, 10) == GetCell(u, 10) && GetCell(t, 11) == GetCell(u, 11)
    requires GetCell(t, 12) == GetCell(u, 12) && GetCell(t, 13) == GetCell(u, 13)
    requires GetCell(t, 14) == GetCell(u, 14) && GetCell(t, 15) == GetCell(u, 15)
    ensures t == u
  {
  }

  lemma SameCell(t: bv32, u: bv32, i: nat)
    requires i < N_GRIDS && NoDraw(t) && NoDraw(u) && Cells(t) == Cells(u)
    ensures GetCell(t, Place6(i)) == GetCell(u, Place6(i))
  {
    hide GetCell;
    GetCellSmall(t, Place6(i));
    GetCellSmall(u, Place6(i));
    assert Cells(t)[i] == Cells(u)[i];
  }

  /** The word determines the board and the board the word: comparing words compares boards. */
  lemma CellsInjective(t: bv32, u: bv32)
    requires NoDraw(t) && NoDraw(u) && Cells(t) == Cells(u)
    ensures t == u
  {
    hide GetCell, Cells, NoDraw;
    SameCell(t, u, 0);
    SameCell(t, u, 1);
    SameCell(t, u, 2);
    SameCell(t, u, 3);
    SameCell(t, u, 4);
    SameCell(t, u, 5);
    SameCell(t, u, 6);
    SameCell(t, u, 7);
    SameCell(t, u, 8);
    SameCell(t, u, 9);
    SameCell(t, u, 10);
    SameCell(t, u, 11);
    SameCell(t, u, 12);
    SameCell(t, u, 13);
    SameCell(t, u, 14);
    SameCell(t, u, 15);
    WordFromCells(t, u);
  }

  /** The board packed cell by cell. */
  function PackTo(b: Board, k: nat): bv32
    requires k <= N_GRIDS
  {
    if k == 0 then 0 else SetCell(PackTo(b, k - 1), Place6(k - 1), Code(b[k - 1]))
  }

  lemma ZeroWord()
    ensures Cells(0) == EMPTY_BOARD && NoDraw(0)
  {
    forall i | 0 <= i < N_GRIDS
      ensures GetCell(0, Place6(i)) == 0
    {
      ZeroCell(Place6(i));
    }
  }

  lemma ZeroCell(p: bv6)
    requires p < 16
    ensures GetCell(0, p) == 0
  {
  }

  lemma OneMorePlaced(b: Board, e: Board, k: nat)
    requires 0 < k <= N_GRIDS
    ensures Place(b[..k - 1] + e[k - 1..], k - 1, b[k - 1]) == b[..k] + e[k..]
  {
  }

  lemma {:induction false} PackToCells(b: Board, k: nat)
    requires k <= N_GRIDS
    ensures NoDraw(PackTo(b, k))
    ensures Cells(PackTo(b, k)) == b[..k] + EMPTY_BOARD[k..]
  {
    hide GetCell, SetCell, Cells, NoDraw, Place, Place6, Code;
    if k == 0 {
      ZeroWord();
    } else {
      PackToCells(b, k - 1);
      SetCellIsPlace(PackTo(b, k - 1), k - 1, b[k - 1]);
      OneMorePlaced(b, EMPTY_BOARD, k);
    }
  }

  /** Every board has a word: packing and reading back is the identity. */
  lemma PackRoundTrip(b: Board)
    ensures NoDraw(PackTo(b, N_GRIDS)) && Cells(PackTo(b, N_GRIDS)) == b
  {
    hide PackTo, Cells, NoDraw;
    PackToCells(b, N_GRIDS);
    assert b[..N_GRIDS] + EMPTY_BOARD[N_GRIDS..] == b;
  }

  // ---- The move record ----

  /** The 4-bit entries as the record word sees them, and the shift of each. */
  type FourBits = v: bv64 | v <= 15

  const NIBBLES: seq<FourBits> := [0, 1, 2, 3, 4, 5, 6, 7, 8, 9, 10, 11, 12, 13, 14, 15]
  type NibbleShift = n: bv7 | n < 64 && n & 3 == 0

  const SHIFTS: seq<NibbleShift> := [0, 4, 8, 12, 16, 20, 24, 28, 32, 36, 40, 44, 48, 52, 56, 60]

  function Nibble(m: CellIndex): (v: bv64)
    ensures v <= 15
  {
    NIBBLES[m]
  }

  function Shift(k: nat): (n: bv7)
    requires k < N_GRIDS
    ensures n < 64 && n & 3 == 0
  {
    SHIFTS[k]
  }

  lemma ShiftInjective(i: nat, j: nat)
    requires i < N_GRIDS && j < N_GRIDS && i != j
    ensures Shift(i) != Shift(j)
  {
  }

  function SetRecordCell(moves: bv64, m: CellIndex, k: nat): bv64
    requires k < N_GRIDS
  {
    SetBits64(moves, Nibble(m), 15, Shift(k))
  }

  function GetRecordCell(moves: bv64, k: nat): bv64
    requires k < N_GRIDS
  {
    GetBits64(moves, 15, Shift(k))
  }

  /** The word holds the record: entry by entry. */
  ghost predicate Records(moves: bv64, r: Moves) {
    forall k :: 0 <= k < N_GRIDS ==> GetRecordCell(moves, k) == Nibble(r[k])
  }

  lemma GetSetSameNibble(x: bv64, v: bv64, n: bv7)
    requires n < 64 && n & 3 == 0 && v <= 15
    ensures GetBits64(SetBits64(x, v, 15, n), 15, n) == v
  {
  }

  lemma GetSetOtherNibble(x: bv64, v: bv64, n: bv7, m: bv7)
    requires n < 64 && m < 64 && n & 3 == 0 && m & 3 == 0 && n != m && v <= 15
    ensures GetBits64(SetBits64(x, v, 15, n), 15, m) == GetBits64(x, 15, m)
  {
    NibblesDisjoint(n, m);
    NibbleInField(v, n);
    DisjointFields64(x, v << n, 15 << n, 15 << m);
  }

  lemma NibblesDisjoint(n: bv7, m: bv7)
    requires n < 64 && m < 64 && n & 3 == 0 && m & 3 == 0 && n != m
    ensures (15 as bv64 << n) & (15 << m) == 0
  {
  }

  lemma NibbleInField(v: bv64, n: bv7)
    requires n < 64 && n & 3 == 0 && v <= 15
    ensures (v << n) & !(15 << n) == 0
  {
  }

  lemma DisjointFields64(x: bv64, v: bv64, a: bv64, b: bv64)
    requires a & b == 0 && v & !a == 0
    ensures ((x & !a) | v) & b == x & b
  {
  }

  /** Writing entry k of the word is updating entry k of the record, and no other. */
  lemma SetRecordCellIsUpdate(moves: bv64, r: Moves, m: CellIndex, k: nat)
    requires k < N_GRIDS && Records(moves, r)
    ensures Records(SetRecordCell(moves, m, k), r[k := m])
  {
    hide SetBits64, GetBits64, Nibble, Shift;
    forall j | 0 <= j < N_GRIDS
      ensures GetRecordCell(SetRecordCell(moves, m, k), j) == Nibble(r[k := m][j])
    {
      if j == k {
        GetSetSameNibble(moves, Nibble(m), Shift(k));
      } else {
        assert GetRecordCell(moves, j) == Nibble(r[j]);
        ShiftInjective(k, j);
        GetSetOtherNibble(moves, Nibble(m), Shift(k), Shift(j));
      }
    }
  }

  /** A worker's two writes, on the packed words: the board and the record stay in step. */
  lemma AppendMoveInWords(attr: Attr, t: bv32, moves: bv64, r: Moves, m: CellIndex)
    requires NoDraw(t) && Records(moves, r) && RecordOk(attr, Cells(t), r) && Cells(t)[m] == Empty
    ensures attr.steps < N_GRIDS
    ensures var after := SetCell(t, Place6(m), Code(Mover(attr.steps)));
            NoDraw(after) && RecordOk(attr.(steps := attr.steps + 1), Cells(after), r[attr.steps := m])
    ensures Records(SetRecordCell(moves, m, attr.steps), r[attr.steps := m])
  {
    hide GetCell, SetCell, Cells, NoDraw, Records, RecordOk;
    AppendMove(attr, Cells(t), r, m);
    SetCellIsPlace(t, m, Mover(attr.steps));
    SetRecordCellIsUpdate(moves, r, m, attr.steps);
  }

  // ---- The attribute word ----

  function AttrId(attr: bv32): bv32 {
    attr & 15
  }

  function AttrSteps(attr: bv32): bv32 {
    GetBits(attr, 31, 4)
  }

  function AttrAiAlg(attr: bv32): bv32 {
    GetBits(attr, 15, 9)
  }

  function SetAttrSteps(attr: bv32, steps: bv32): bv32 {
    SetBits(attr, steps, 31, 4)
  }

  function SetAttrAiAlg(attr: bv32, ai1: bv32, ai2: bv32): bv32 {
    SetBits(attr, ai1 | (ai2 << 2), 15, 9)
  }

  /** The step count is read back as written and leaves the other two fields alone. */
  lemma AttrStepsField(attr: bv32, steps: bv32)
    requires steps <= 31
    ensures AttrSteps(SetAttrSteps(attr, steps)) == steps
    ensures AttrId(SetAttrSteps(attr, steps)) == AttrId(attr)
    ensures AttrAiAlg(SetAttrSteps(attr, steps)) == AttrAiAlg(attr)
  {
  }

  /** The agent pair is recovered by its two low and two high bits, and the other two fields
      are left alone. */
  lemma AttrAiAlgField(attr: bv32, ai1: bv32, ai2: bv32)
    requires ai1 < 4 && ai2 < 4
    ensures AttrAiAlg(SetAttrAiAlg(attr, ai1, ai2)) & 3 == ai1
    ensures AttrAiAlg(SetAttrAiAlg(attr, ai1, ai2)) >> 2 == ai2
    ensures AttrId(SetAttrAiAlg(attr, ai1, ai2)) == AttrId(attr)
    ensures AttrSteps(SetAttrAiAlg(attr, ai1, ai2)) == AttrSteps(attr)
  {
  }

  /** As a number the pair is the first agent plus four times the second. */
  lemma AgentPairNumber(attr: bv32, ai1: bv32, ai2: bv32)
    requires ai1 < 4 && ai2 < 4
    ensures AttrAiAlg(SetAttrAiAlg(attr, ai1, ai2)) as nat == ai1 as nat + 4 * ai2 as nat
  {
    PairBits(attr, ai1, ai2);
    assert AttrAiAlg(SetAttrAiAlg(attr, ai1, ai2)) == ai1 + 4 * ai2;
  }

  lemma PairBits(attr: bv32, ai1: bv32, ai2: bv32)
    requires ai1 < 4 && ai2 < 4
    ensures AttrAiAlg(SetAttrAiAlg(attr, ai1, ai2)) == ai1 + 4 * ai2
  {
  }
}
