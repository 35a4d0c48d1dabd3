/** Win detection on the board word: one mask a line, tested for O as it is and for X
    shifted by one bit. */
module WinMasks {
  import opened Game
  import opened Bits
  import opened Record

  const LOW_BITS: bv32 := 0x55555555
  const HIGH_BITS: bv32 := 0xAAAAAAAA

  /** `detect_empty_cell`: some cell has neither of its bits set. */
  predicate DetectEmptyCell(t: bv32) {
    ((t & LOW_BITS) | ((t & HIGH_BITS) >> 1)) != LOW_BITS
  }

  function BitAt(p: bv6): bv32
    requires p < 16
  {
    1 << (p << 1)
  }

  function And(a: bv32, b: bv32): bv32 {
    a & b
  }

  function Or(a: bv32, b: bv32): bv32 {
    a | b
  }

  /** The pattern for X is the pattern for O one bit higher. */
  function Raised(a: bv32): bv32 {
    a << 1
  }

  /** `GEN_O_WINMASK`. */
  function WinMask(a: bv6, b: bv6, c: bv6): bv32
    requires a < 16 && b < 16 && c < 16
  {
    Or(Or(BitAt(a), BitAt(b)), BitAt(c))
  }

  function MaskOf(line: Line): bv32 {
    WinMask(Place6(line[0]), Place6(line[1]), Place6(line[2]))
  }

  // ---- Empty cells ----

  lemma EveryCellTaken(t: bv32)
    ensures !DetectEmptyCell(t) <==>
      GetCell(t, 0) != 0 && GetCell(t, 1) != 0 && GetCell(t, 2) != 0 && GetCell(t, 3) != 0
      && GetCell(t, 4) != 0 && GetCell(t, 5) != 0 && GetCell(t, 6) != 0 && GetCell(t, 7) != 0
      && GetCell(t, 8) != 0 && GetCell(t, 9) != 0 && GetCell(t, 10) != 0 && GetCell(t, 11) != 0
      && GetCell(t, 12) != 0 && GetCell(t, 13) != 0 && GetCell(t, 14) != 0 && GetCell(t, 15) != 0
  {
  }

  lemma CellCode(t: bv32, i: nat)
    requires i < N_GRIDS && NoDraw(t)
    ensures Cells(t)[i] == Empty <==> GetCell(t, Place6(i)) == 0
    ensures Cells(t)[i] == O <==> GetCell(t, Place6(i)) == 1
    ensures Cells(t)[i] == X <==> GetCell(t, Place6(i)) == 2
  {
    hide GetCell;
    GetCellSmall(t, Place6(i));
  }

  lemma AllPlaces(t: bv32)
    requires NoDraw(t)
    ensures !HasEmpty(Cells(t)) <==> forall i: nat :: i < N_GRIDS ==> GetCell(t, Place6(i)) != 0
  {
    hide GetCell, Cells, NoDraw, Place6;
    forall i: nat | i < N_GRIDS
      ensures Cells(t)[i] == Empty <==> GetCell(t, Place6(i)) == 0
    {
      CellCode(t, i);
    }
  }

  /** The two-mask trick finds an empty cell exactly when the board has one. */
  lemma DetectEmptyCellIs(t: bv32)
    requires NoDraw(t)
    ensures DetectEmptyCell(t) <==> HasEmpty(Cells(t))
  {
    hide GetCell, Cells, NoDraw, HasEmpty, DetectEmptyCell;
    AllPlaces(t);
    EveryCellTaken(t);
    if !DetectEmptyCell(t) {
      forall i: nat | i < N_GRIDS
        ensures GetCell(t, Place6(i)) != 0
      {
      }
    }
    assert Place6(0) == 0 && Place6(1) == 1 && Place6(2) == 2 && Place6(3) == 3;
    assert Place6(4) == 4 && Place6(5) == 5 && Place6(6) == 6 && Place6(7) == 7;
    assert Place6(8) == 8 && Place6(9) == 9 && Place6(10) == 10 && Place6(11) == 11;
    assert Place6(12) == 12 && Place6(13) == 13 && Place6(14) == 14 && Place6(15) == 15;
  }

  // ---- Lines ----

  /** All the bits of the mask are set. */
  predicate Covers(t: bv32, mask: bv32) {
    And(t, mask) == mask
  }

  lemma OperatorsDistribute(t: bv32, a: bv32, b: bv32)
    ensures t & (a | b) == (t & a) | (t & b)
  {
  }

  lemma AndOfOr(t: bv32, a: bv32, b: bv32)
    ensures And(t, Or(a, b)) == t & (a | b)
  {
    assert Or(a, b) == a | b;
  }

  lemma OrOfAnds(t: bv32, a: bv32, b: bv32)
    ensures Or(And(t, a), And(t, b)) == (t & a) | (t & b)
  {
    assert And(t, a) == t & a && And(t, b) == t & b;
  }

  lemma Distribute(t: bv32, a: bv32, b: bv32)
    ensures And(t, Or(a, b)) == Or(And(t, a), And(t, b))
  {
    hide And, Or;
    OperatorsDistribute(t, a, b);
    AndOfOr(t, a, b);
    OrOfAnds(t, a, b);
  }

  lemma AndSwap(a: bv32, t: bv32, y: bv32)
    ensures And(a, And(t, y)) == And(t, And(a, y))
  {
  }

  lemma Absorb(a: bv32, b: bv32)
    ensures And(a, Or(a, b)) == a
  {
  }

  lemma OrCommutes(a: bv32, b: bv32)
    ensures Or(a, b) == Or(b, a)
  {
  }

  lemma CoversBoth(t: bv32, a: bv32, b: bv32)
    ensures Covers(t, Or(a, b)) <==> Covers(t, a) && Covers(t, b)
  {
    hide And, Or;
    AndSwap(a, t, Or(a, b));
    AndSwap(b, t, Or(a, b));
    Absorb(a, b);
    Absorb(b, a);
    OrCommutes(a, b);
    Distribute(t, a, b);
  }

  lemma RaiseBoth(a: bv32, b: bv32)
    ensures Raised(Or(a, b)) == Or(Raised(a), Raised(b))
  {
  }

  lemma BitIsO(t: bv32, p: bv6)
    requires p < 16 && GetCell(t, p) != 3
    ensures Covers(t, BitAt(p)) <==> GetCell(t, p) == 1
  {
  }

  lemma BitIsX(t: bv32, p: bv6)
    requires p < 16 && GetCell(t, p) != 3
    ensures Covers(t, Raised(BitAt(p))) <==> GetCell(t, p) == 2
  {
  }

  /** The mask as it is tests a line of O. */
  lemma MaskTestsO(t: bv32, line: Line)
    requires NoDraw(t)
    ensures Covers(t, MaskOf(line)) <==> HasLine(Cells(t), line, O)
  {
    hide GetCell, Cells, Place6, BitAt, Covers, Or;
    var a, b, c := Place6(line[0]), Place6(line[1]), Place6(line[2]);
    CoversBoth(t, Or(BitAt(a), BitAt(b)), BitAt(c));
    CoversBoth(t, BitAt(a), BitAt(b));
    BitIsO(t, a);
    BitIsO(t, b);
    BitIsO(t, c);
    CellCode(t, line[0]);
    CellCode(t, line[1]);
    CellCode(t, line[2]);
  }

  /** The mask raised by one bit tests a line of X. */
  lemma MaskTestsX(t: bv32, line: Line)
    requires NoDraw(t)
    ensures Covers(t, Raised(MaskOf(line))) <==> HasLine(Cells(t), line, X)
  {
    hide GetCell, Cells, Place6, BitAt, Covers, Or, Raised;
    var a, b, c := Place6(line[0]), Place6(line[1]), Place6(line[2]);
    RaiseBoth(Or(BitAt(a), BitAt(b)), BitAt(c));
    RaiseBoth(BitAt(a), BitAt(b));
    CoversBoth(t, Or(Raised(BitAt(a)), Raised(BitAt(b))), Raised(BitAt(c)));
    CoversBoth(t, Raised(BitAt(a)), Raised(BitAt(b)));
    BitIsX(t, a);
    BitIsX(t, b);
    BitIsX(t, c);
    CellCode(t, line[0]);
    CellCode(t, line[1]);
    CellCode(t, line[2]);
  }

  // ---- The two routines ----

  ghost predicate IsPatternTable(patterns: seq<bv32>, lines: seq<Line>) {
    |patterns| == |lines| && forall w :: 0 <= w < |lines| ==> patterns[w] == MaskOf(lines[w])
  }

  /** The masks `fill_win_patterns` stores beside the segments. */
  method FillPatterns() returns (patterns: array<bv32>)
    ensures fresh(patterns) && IsPatternTable(patterns[..], Lines())
  {
    hide MaskOf;
    var lines := Lines();
    patterns := new bv32[N_LINES];
    for w := 0 to N_LINES
      invariant forall v :: 0 <= v < w ==> patterns[v] == MaskOf(lines[v])
    {
      patterns[w] := MaskOf(lines[w]);
    }
  }

  /** The scan over the patterns, for any pattern table. */
  method ScanPatterns(patterns: array<bv32>, lines: seq<Line>, t: bv32) returns (v: Verdict)
    requires IsPatternTable(patterns[..], lines) && NoDraw(t)
    ensures v == VerdictFrom(Cells(t), lines, 0)
  {
    hide MaskOf, Cells, HasLine, HasEmpty, NoDraw, DetectEmptyCell, Covers, Raised;
    for i := 0 to patterns.Length
      invariant VerdictFrom(Cells(t), lines, i) == VerdictFrom(Cells(t), lines, 0)
    {
      var patt := patterns[i];
      assert patt == patterns[..][i];
      MaskTestsO(t, lines[i]);
      MaskTestsX(t, lines[i]);
      if Covers(t, patt) {
        return Won(O);
      }
      patt := Raised(patt);
      if Covers(t, patt) {
        return Won(X);
      }
    }
    DetectEmptyCellIs(t);
    return if DetectEmptyCell(t) then Ongoing else Drawn;
  }

  /** `check_win` on the word agrees with the verdict on the board it encodes. */
  method CheckWinWord(patterns: array<bv32>, t: bv32) returns (v: Verdict)
    requires IsPatternTable(patterns[..], Lines()) && NoDraw(t)
    ensures v == CheckWin(Cells(t))
  {
    hide Cells, NoDraw, VerdictFrom, Lines;
    if t == 0 {
      ZeroWord();
      EmptyBoardOngoing();
      return Ongoing;
    }
    v := ScanPatterns(patterns, Lines(), t);
  }
}
