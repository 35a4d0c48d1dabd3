/** The straight runs of `goal` cells on an n-by-n board, in the order the game
    tables list them, for any board size and goal. */
module WinLines {
  import opened Basics

  /** One family of parallel runs: the step between neighbouring cells, and the
      box of start positions. */
  datatype Line = Line(iShift: int, jShift: int, iLo: int, jLo: int, iHi: int, jHi: int)

  /** Where a run starts: its family (0 row, 1 column, 2 primary diagonal,
      3 secondary diagonal) and its first cell. */
  datatype Start = Start(family: int, i: int, j: int)

  predicate Sized(n: int, goal: int) {
    2 <= goal <= n
  }

  function LineOf(n: int, goal: int, family: int): Line {
    var m := n - goal + 1;
    if family == 0 then Line(0, 1, 0, 0, n, m)
    else if family == 1 then Line(1, 0, 0, 0, m, n)
    else if family == 2 then Line(1, 1, 0, 0, m, m)
    else Line(1, -1, 0, goal - 1, m, n)
  }

  function WinPattLen(n: int, goal: int): int {
    2 * (n - goal + 1) * (n + (n - goal + 1))
  }

  predicate IsStart(n: int, goal: int, s: Start) {
    var line := LineOf(n, goal, s.family);
    0 <= s.family < 4 && line.iLo <= s.i < line.iHi && line.jLo <= s.j < line.jHi
  }

  function Width(n: int, goal: int, family: int): int {
    if family == 1 then n else n - goal + 1
  }

  function Height(n: int, goal: int, family: int): int {
    if family == 0 then n else n - goal + 1
  }

  /** Number of runs listed before the first one of `family`. */
  function Base(n: int, goal: int, family: int): int {
    if family <= 0 then 0 else Base(n, goal, family - 1) + Height(n, goal, family - 1) * Width(n, goal, family - 1)
  }

  function IndexOf(n: int, goal: int, s: Start): int {
    var line := LineOf(n, goal, s.family);
    Base(n, goal, s.family) + (s.i - line.iLo) * Width(n, goal, s.family) + (s.j - line.jLo)
  }

  function StartAt(n: int, goal: int, w: int): Start
    requires Sized(n, goal)
  {
    var family := if w < Base(n, goal, 1) then 0
                  else if w < Base(n, goal, 2) then 1
                  else if w < Base(n, goal, 3) then 2
                  else 3;
    var line := LineOf(n, goal, family);
    var off := w - Base(n, goal, family);
    Start(family, line.iLo + off / Width(n, goal, family), line.jLo + off % Width(n, goal, family))
  }

  function CellAt(n: int, i: int, j: int): int {
    i * n + j
  }

  /** The k-th cell of the run that starts at `s`. */
  function RunCell(n: int, goal: int, s: Start, k: int): int {
    var line := LineOf(n, goal, s.family);
    CellAt(n, s.i + k * line.iShift, s.j + k * line.jShift)
  }

  /** The w-th run of the table, as the sequence of its cells. */
  function Segment(n: int, goal: int, w: int): (cells: seq<int>)
    requires Sized(n, goal)
  {
    seq(goal, k => RunCell(n, goal, StartAt(n, goal, w), k))
  }

  // ---- Numbering of the runs ----

  lemma BlockBounds(h: int, w: int, a: int, b: int)
    requires 0 <= a < h && 0 <= b < w
    ensures 0 <= a * w + b < h * w
  {
    ProductMonotone(a + 1, h, w);
    ProductMonotone(0, a, w);
  }

  lemma BaseLadder(n: int, goal: int)
    requires Sized(n, goal)
    ensures var m := n - goal + 1;
            Base(n, goal, 1) == n * m && Base(n, goal, 2) == n * m + m * n
            && Base(n, goal, 3) == n * m + m * n + m * m
    ensures 0 < Base(n, goal, 1) < Base(n, goal, 2) < Base(n, goal, 3) < Base(n, goal, 4)
    ensures Base(n, goal, 4) == WinPattLen(n, goal)
  {
    var m := n - goal + 1;
    assert Base(n, goal, 1) == Base(n, goal, 0) + n * m;
    assert Base(n, goal, 2) == Base(n, goal, 1) + m * n;
    assert Base(n, goal, 3) == Base(n, goal, 2) + m * m;
    assert Base(n, goal, 4) == Base(n, goal, 3) + m * m;
    BlockBounds(n, m, 0, 0);
    BlockBounds(m, n, 0, 0);
    BlockBounds(m, m, 0, 0);
    assert 2 * m * (n + m) == 2 * (m * n) + 2 * (m * m);
    assert m * n == n * m;
  }

  /** The nested-loop order numbers the starts 0, 1, 2, ... with no gap. */
  lemma NumberingInverse(n: int, goal: int, s: Start)
    requires Sized(n, goal) && IsStart(n, goal, s)
    ensures 0 <= IndexOf(n, goal, s) < WinPattLen(n, goal)
    ensures StartAt(n, goal, IndexOf(n, goal, s)) == s
  {
    BaseLadder(n, goal);
    var line := LineOf(n, goal, s.family);
    var w := Width(n, goal, s.family);
    BlockBounds(Height(n, goal, s.family), w, s.i - line.iLo, s.j - line.jLo);
    DivModUnique(s.i - line.iLo, s.j - line.jLo, w);
    assert Base(n, goal, s.family + 1) == Base(n, goal, s.family) + Height(n, goal, s.family) * w;
  }

  lemma DivBound(off: int, h: int, w: int)
    requires 0 < w && 0 <= off < h * w
    ensures 0 <= off / w < h && 0 <= off % w < w
    ensures off == (off / w) * w + off % w
  {
    var q := off / w;
    assert off == q * w + off % w;
    ProductAway(q - h + 1, w);
    assert (q - h + 1) * w == q * w - h * w + w;
  }

  lemma StartAtIsStart(n: int, goal: int, w: int)
    requires Sized(n, goal) && 0 <= w < WinPattLen(n, goal)
    ensures IsStart(n, goal, StartAt(n, goal, w))
    ensures IndexOf(n, goal, StartAt(n, goal, w)) == w
  {
    BaseLadder(n, goal);
    var family := StartAt(n, goal, w).family;
    assert Base(n, goal, family) <= w < Base(n, goal, family + 1);
    StartInBlock(n, goal, family, w - Base(n, goal, family));
  }

  lemma StartInBlock(n: int, goal: int, family: int, off: int)
    requires Sized(n, goal) && 0 <= family < 4
    requires 0 <= off < Height(n, goal, family) * Width(n, goal, family)
    ensures var line, width := LineOf(n, goal, family), Width(n, goal, family);
            var s := Start(family, line.iLo + off / width, line.jLo + off % width);
            IsStart(n, goal, s) && IndexOf(n, goal, s) == Base(n, goal, family) + off
  {
    DivBound(off, Height(n, goal, family), Width(n, goal, family));
  }

  // ---- The table is complete and has no duplicates ----

  lemma RunCellInGrid(n: int, goal: int, s: Start, k: int)
    requires Sized(n, goal) && IsStart(n, goal, s) && 0 <= k < goal
    ensures var line := LineOf(n, goal, s.family);
            0 <= s.i + k * line.iShift < n && 0 <= s.j + k * line.jShift < n
    ensures 0 <= RunCell(n, goal, s, k) < n * n
  {
    var line := LineOf(n, goal, s.family);
    assert k * line.iShift == 0 || k * line.iShift == k;
    assert k * line.jShift == 0 || k * line.jShift == k || k * line.jShift == -k;
    BlockBounds(n, n, s.i + k * line.iShift, s.j + k * line.jShift);
  }

  /** Every listed run lies on the board and visits its cells in ascending order. */
  lemma SegmentsInRange(n: int, goal: int, w: int, k: int)
    requires Sized(n, goal) && 0 <= w < WinPattLen(n, goal) && 0 <= k < goal
    ensures |Segment(n, goal, w)| == goal
    ensures 0 <= Segment(n, goal, w)[k] < n * n
    ensures k + 1 < goal ==> Segment(n, goal, w)[k] < Segment(n, goal, w)[k + 1]
  {
    StartAtIsStart(n, goal, w);
    RunCellInGrid(n, goal, StartAt(n, goal, w), k);
    RunCellAscends(n, goal, StartAt(n, goal, w), k);
  }

  lemma RunCellAscends(n: int, goal: int, s: Start, k: int)
    requires Sized(n, goal) && IsStart(n, goal, s)
    ensures RunCell(n, goal, s, k) < RunCell(n, goal, s, k + 1)
  {
    var line := LineOf(n, goal, s.family);
    var i, j := s.i + k * line.iShift, s.j + k * line.jShift;
    assert s.i + (k + 1) * line.iShift == i + line.iShift;
    assert s.j + (k + 1) * line.jShift == j + line.jShift;
    assert CellAt(n, i + 1, j + line.jShift) == CellAt(n, i, j) + n + line.jShift;
  }

  /** Two different places of the table never hold the same run. */
  lemma SegmentsDistinct(n: int, goal: int, w1: int, w2: int)
    requires Sized(n, goal)
    requires 0 <= w1 < WinPattLen(n, goal) && 0 <= w2 < WinPattLen(n, goal) && w1 != w2
    ensures Segment(n, goal, w1) != Segment(n, goal, w2)
  {
    var a, b := Segment(n, goal, w1), Segment(n, goal, w2);
    var s1, s2 := StartAt(n, goal, w1), StartAt(n, goal, w2);
    StartAtIsStart(n, goal, w1);
    StartAtIsStart(n, goal, w2);
    if a == b {
      assert a[0] == RunCell(n, goal, s1, 0) && a[1] == RunCell(n, goal, s1, 1);
      assert b[0] == RunCell(n, goal, s2, 0) && b[1] == RunCell(n, goal, s2, 1);
      RunsDiffer(n, goal, s1, s2);
    }
  }

  /** The first two cells of a run give its start and family away. */
  lemma RunsDiffer(n: int, goal: int, s1: Start, s2: Start)
    requires Sized(n, goal) && IsStart(n, goal, s1) && IsStart(n, goal, s2)
    requires RunCell(n, goal, s1, 0) == RunCell(n, goal, s2, 0) && RunCell(n, goal, s1, 1) == RunCell(n, goal, s2, 1)
    ensures s1 == s2
  {
    hide IndexOf, StartAt;
    RunCellInGrid(n, goal, s1, 0);
    RunCellInGrid(n, goal, s2, 0);
    DivModUnique(s1.i, s1.j, n);
    DivModUnique(s2.i, s2.j, n);
    RunCellInGrid(n, goal, s1, 1);
    RunCellInGrid(n, goal, s2, 1);
    var l1, l2 := LineOf(n, goal, s1.family), LineOf(n, goal, s2.family);
    DivModUnique(s1.i + l1.iShift, s1.j + l1.jShift, n);
    DivModUnique(s2.i + l2.iShift, s2.j + l2.jShift, n);
  }

  /** A straight run: `goal` cells from (i, j) in one of the eight directions,
      all of them on the board. */
  predicate IsStraightRun(n: int, goal: int, i: int, j: int, di: int, dj: int) {
    -1 <= di <= 1 && -1 <= dj <= 1 && (di != 0 || dj != 0)
    && 0 <= i < n && 0 <= j < n
    && 0 <= i + (goal - 1) * di < n && 0 <= j + (goal - 1) * dj < n
  }

  function Run(n: int, goal: int, i: int, j: int, di: int, dj: int): seq<int>
    requires 0 <= goal
  {
    seq(goal, k => CellAt(n, i + k * di, j + k * dj))
  }

  function Reverse(s: seq<int>): seq<int> {
    seq(|s|, k requires 0 <= k < |s| => s[|s| - 1 - k])
  }

  function FamilyOf(di: int, dj: int): int {
    if di == 0 then 0 else if dj == 0 then 1 else if dj == 1 then 2 else 3
  }

  lemma ForwardRunListed(n: int, goal: int, i: int, j: int, di: int, dj: int) returns (w: int)
    requires Sized(n, goal) && IsStraightRun(n, goal, i, j, di, dj)
    requires di == 1 || (di == 0 && dj == 1)
    ensures 0 <= w < WinPattLen(n, goal) && Segment(n, goal, w) == Run(n, goal, i, j, di, dj)
  {
    hide IndexOf, StartAt, WinPattLen;
    var s := Start(FamilyOf(di, dj), i, j);
    assert (goal - 1) * di == 0 || (goal - 1) * di == goal - 1;
    assert (goal - 1) * dj == 0 || (goal - 1) * dj == goal - 1 || (goal - 1) * dj == -(goal - 1);
    assert IsStart(n, goal, s);
    NumberingInverse(n, goal, s);
    w := IndexOf(n, goal, s);
    var line := LineOf(n, goal, s.family);
    assert line.iShift == di && line.jShift == dj;
  }

  /** Every straight run of the board is in the table, forwards or backwards. */
  lemma EveryRunListed(n: int, goal: int, i: int, j: int, di: int, dj: int) returns (w: int)
    requires Sized(n, goal) && IsStraightRun(n, goal, i, j, di, dj)
    ensures 0 <= w < WinPattLen(n, goal)
    ensures Segment(n, goal, w) == Run(n, goal, i, j, di, dj)
            || Segment(n, goal, w) == Reverse(Run(n, goal, i, j, di, dj))
  {
    hide StartAt, WinPattLen, Segment;
    if di == 1 || (di == 0 && dj == 1) {
      w := ForwardRunListed(n, goal, i, j, di, dj);
    } else {
      var i', j' := i + (goal - 1) * di, j + (goal - 1) * dj;
      assert (goal - 1) * (-di) == -((goal - 1) * di);
      assert (goal - 1) * (-dj) == -((goal - 1) * dj);
      w := ForwardRunListed(n, goal, i', j', -di, -dj);
      var back := Run(n, goal, i', j', -di, -dj);
      var run := Run(n, goal, i, j, di, dj);
      forall k | 0 <= k < goal
        ensures back[k] == Reverse(run)[k]
      {
        assert i' + k * (-di) == i + (goal - 1 - k) * di;
        assert j' + k * (-dj) == j + (goal - 1 - k) * dj;
      }
    }
  }

  /** Every listed run is a straight run of the board. */
  lemma SegmentIsRun(n: int, goal: int, w: int) returns (i: int, j: int, di: int, dj: int)
    requires Sized(n, goal) && 0 <= w < WinPattLen(n, goal)
    ensures IsStraightRun(n, goal, i, j, di, dj)
    ensures Segment(n, goal, w) == Run(n, goal, i, j, di, dj)
  {
    hide StartAt, IndexOf, WinPattLen;
    StartAtIsStart(n, goal, w);
    var s := StartAt(n, goal, w);
    var line := LineOf(n, goal, s.family);
    RunCellInGrid(n, goal, s, 0);
    RunCellInGrid(n, goal, s, goal - 1);
    i, j, di, dj := s.i, s.j, line.iShift, line.jShift;
  }

  // ---- Filling the table ----

  /** The nested loops of the table set-up: family, row, column, then cell. */
  method FillSegmentLines(n: nat, goal: nat) returns (segs: array2<int>)
    requires Sized(n, goal)
    ensures fresh(segs) && segs.Length0 == WinPattLen(n, goal) && segs.Length1 == goal
    ensures forall w, k :: 0 <= w < segs.Length0 && 0 <= k < goal ==> segs[w, k] == Segment(n, goal, w)[k]
  {
    BaseLadder(n, goal);
    segs := new int[WinPattLen(n, goal), goal];
    var w := 0;
    for family := 0 to 4
      invariant w == Base(n, goal, family)
      invariant FilledTo(n, goal, segs, w)
    {
      w := FillFamily(n, goal, segs, family, w);
    }
  }

  method FillFamily(n: nat, goal: nat, segs: array2<int>, family: int, w0: int) returns (w: int)
    requires Sized(n, goal) && 0 <= family < 4 && w0 == Base(n, goal, family)
    requires FilledTo(n, goal, segs, w0)
    modifies segs
    ensures w == Base(n, goal, family + 1) && FilledTo(n, goal, segs, w)
  {
    var line := LineOf(n, goal, family);
    var width := Width(n, goal, family);
    w := w0;
    for i := line.iLo to line.iHi
      invariant w == w0 + (i - line.iLo) * width
      invariant FilledTo(n, goal, segs, w)
    {
      for j := line.jLo to line.jHi
        invariant w == w0 + (i - line.iLo) * width + (j - line.jLo)
        invariant FilledTo(n, goal, segs, w)
      {
        FillRun(n, goal, segs, Start(family, i, j), w);
        w := w + 1;
      }
      NextRow(i - line.iLo, width);
    }
  }

  lemma NextRow(rows: int, width: int)
    ensures (rows + 1) * width == rows * width + width
  {
  }

  ghost predicate FilledTo(n: int, goal: int, segs: array2<int>, w: int)
    requires Sized(n, goal)
    reads segs
  {
    segs.Length0 == WinPattLen(n, goal) && segs.Length1 == goal && 0 <= w <= segs.Length0
    && forall v, k :: 0 <= v < w && 0 <= k < goal ==> segs[v, k] == Segment(n, goal, v)[k]
  }

  method FillRun(n: nat, goal: nat, segs: array2<int>, s: Start, w: int)
    requires Sized(n, goal) && IsStart(n, goal, s) && w == IndexOf(n, goal, s)
    requires FilledTo(n, goal, segs, w)
    modifies segs
    ensures w < segs.Length0 && FilledTo(n, goal, segs, w + 1)
  {
    NumberingInverse(n, goal, s);
    var line := LineOf(n, goal, s.family);
    segs[w, 0] := CellAt(n, s.i, s.j);
    for k := 1 to goal
      invariant FilledTo(n, goal, segs, w)
      invariant forall c :: 0 <= c < k ==> segs[w, c] == RunCell(n, goal, s, c)
    {
      segs[w, k] := CellAt(n, s.i + k * line.iShift, s.j + k * line.jShift);
    }
  }
}
