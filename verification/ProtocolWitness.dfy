/** A concrete run of the protocol: a whole game is played and won, and the finish worker
    is caught between two of its writes. */
module ProtocolWitness {
  import WinLines
  import opened Game
  import opened Record
  import opened Protocol
  import opened ProtocolInvariant
  import opened ProtocolSafety

  /** The events lead from s to t, each enabled in its turn. */
  ghost predicate Leads(s: State, events: seq<Event>, t: State)
    decreases |events|
  {
    if events == [] then s == t
    else
      var e := events[0];
      Enabled(s, e.actor, e.choice) && Leads(Next(s, e.actor, e.choice), events[1..], t)
  }

  lemma {:induction false} LeadsConcat(s: State, es: seq<Event>, t: State, fs: seq<Event>, u: State)
    requires Leads(s, es, t) && Leads(t, fs, u)
    ensures Leads(s, es + fs, u)
    decreases |es|
  {
    hide Enabled, Next;
    if es == [] {
      assert es + fs == fs;
    } else {
      LeadsConcat(Next(s, es[0].actor, es[0].choice), es[1..], t, fs, u);
      assert (es + fs)[1..] == es[1..] + fs;
    }
  }

  /** One more event. */
  lemma Go(s: State, es: seq<Event>, t: State, a: Actor, c: Choice) returns (fs: seq<Event>, u: State)
    requires Leads(s, es, t) && Enabled(t, a, c)
    ensures Leads(s, fs, u) && u == Next(t, a, c)
  {
    hide Enabled, Next;
    u := Next(t, a, c);
    LeadsConcat(s, es, t, [Event(a, c)], u);
    fs := es + [Event(a, c)];
  }

  lemma {:induction false} LeadsIsRun(s: State, es: seq<Event>, t: State) returns (run: seq<State>)
    requires Leads(s, es, t)
    ensures |run| == |es| + 1 && run[0] == s && run[|es|] == t
    ensures forall i :: 0 <= i < |es| ==>
              Enabled(run[i], es[i].actor, es[i].choice) && run[i + 1] == Next(run[i], es[i].actor, es[i].choice)
    decreases |es|
  {
    hide Enabled, Next;
    if es == [] {
      run := [s];
    } else {
      var rest := LeadsIsRun(Next(s, es[0].actor, es[0].choice), es[1..], t);
      run := [s] + rest;
      forall i | 0 <= i < |es|
        ensures Enabled(run[i], es[i].actor, es[i].choice) && run[i + 1] == Next(run[i], es[i].actor, es[i].choice)
      {
        if i > 0 {
          assert es[i] == es[1..][i - 1] && run[i] == rest[i - 1];
        }
      }
    }
  }

  /** Nothing is queued or running, and the timer is armed. */
  ghost predicate Quiet(s: State) {
    s.lock == Free && s.queue == Queue(false, false, false, false)
    && s.aiO == AiIdle && s.aiX == AiIdle && s.draw == DrawIdle && s.fin == FinIdle
    && s.soft == SoftIdle && s.release == NotReleasing && s.timerOn
  }

  const PLAIN: Choice := Choice(false, -1, false, true, 0)

  lemma LeadsNothing(s: State)
    ensures Leads(s, [], s)
  {
  }

  /** The timer finds an unfinished game, the tasklet dispatches the side to move. */
  lemma Dispatch(s: State) returns (es: seq<Event>, t: State)
    requires Quiet(s) && s.core.game == Ready && CheckWin(s.core.table) == Ongoing
    ensures Leads(s, es, t)
    ensures t == SetQueued(s.(core := s.core.(game := Busy), task := Task(false, true)), s.core.turn, true)
                 .(queue := SetQueued(s, s.core.turn, true).queue.(draw := true))
  {
    hide CheckWin, Leads;
    LeadsNothing(s);
    es, t := [], s;
    es, t := Go(s, es, t, SoftActor(true), PLAIN);
    es, t := Go(s, es, t, SoftActor(true), PLAIN);
    es, t := Go(s, es, t, SoftActor(true), PLAIN);
    es, t := Go(s, es, t, SoftActor(true), PLAIN);
    es, t := Go(s, es, t, SoftActor(false), PLAIN);
    es, t := Go(s, es, t, SoftActor(false), PLAIN);
    es, t := Go(s, es, t, SoftActor(false), PLAIN);
    es, t := Go(s, es, t, SoftActor(false), PLAIN);
    es, t := Go(s, es, t, SoftActor(false), PLAIN);
    es, t := Go(s, es, t, SoftActor(false), PLAIN);
  }

  /** A dispatched worker reads, takes the lock and decides on m. */
  lemma Decide(s: State, p: Player, m: CellIndex) returns (es: seq<Event>, t: State)
    requires s.lock == Free && Queued(s, p) && Ai(s, p) == AiIdle && s.core.table[m] == Empty
    ensures Leads(s, es, t)
    ensures t == SetAi(SetQueued(s, p, false).(lock := AiOwns(p)), p, AiPutTable(s.core.attr, s.core.table, m))
  {
    hide CheckWin, Leads;
    LeadsNothing(s);
    es, t := [], s;
    es, t := Go(s, es, t, AiActor(p), PLAIN.(move := m));
    es, t := Go(s, es, t, AiActor(p), PLAIN.(move := m));
    es, t := Go(s, es, t, AiActor(p), PLAIN.(move := m));
    es, t := Go(s, es, t, AiActor(p), PLAIN.(move := m));
    es, t := Go(s, es, t, AiActor(p), PLAIN.(move := m));
    es, t := Go(s, es, t, AiActor(p), PLAIN.(move := m));
  }

  /** An agent that does not learn writes table and record. */
  lemma WriteMove(s: State, p: Player, m: CellIndex) returns (es: seq<Event>, t: State)
    requires Ai(s, p) == AiPutTable(s.core.attr, s.core.table, m)
    requires s.core.attr.alg == 0 && s.core.attr.steps < N_GRIDS
    ensures Leads(s, es, t)
    ensures t == SetAi(s.(core := s.core.(table := Place(s.core.table, m, p),
                                          moves := s.core.moves[s.core.attr.steps := m])),
                       p, AiPutAttr(s.core.attr))
  {
    hide CheckWin, Leads;
    LeadsNothing(s);
    es, t := [], s;
    es, t := Go(s, es, t, AiActor(p), PLAIN);
    es, t := Go(s, es, t, AiActor(p), PLAIN);
    es, t := Go(s, es, t, AiActor(p), PLAIN);
  }

  /** Then the step count, the turn and READY, and it lets go of the lock. */
  lemma WriteTurn(s: State, p: Player) returns (es: seq<Event>, t: State)
    requires Ai(s, p) == AiPutAttr(s.core.attr)
    ensures Leads(s, es, t)
    ensures t == SetAi(s.(lock := Free, core := s.core.(attr := s.core.attr.(steps := s.core.attr.steps + 1),
                                                        turn := Other(p), game := Ready)), p, AiIdle)
  {
    hide CheckWin, Leads;
    LeadsNothing(s);
    es, t := [], s;
    es, t := Go(s, es, t, AiActor(p), PLAIN);
    es, t := Go(s, es, t, AiActor(p), PLAIN);
    es, t := Go(s, es, t, AiActor(p), PLAIN);
    es, t := Go(s, es, t, AiActor(p), PLAIN);
  }

  /** The draw worker finds the display off. */
  lemma Undrawn(s: State) returns (es: seq<Event>, t: State)
    requires s.queue.draw && s.draw == DrawIdle
    ensures Leads(s, es, t) && t == s.(queue := s.queue.(draw := false))
  {
    hide Leads;
    LeadsNothing(s);
    es, t := [], s;
    es, t := Go(s, es, t, DrawActor, PLAIN);
    es, t := Go(s, es, t, DrawActor, PLAIN);
  }

  function Played(g: Core, m: CellIndex): Core
    requires g.attr.steps < N_GRIDS
  {
    Core(g.attr.(steps := g.attr.steps + 1), Place(g.table, m, g.turn), g.moves[g.attr.steps := m], Other(g.turn),
         Ready)
  }

  /** The first half of a move: from quiet to a worker that holds the lock and is about to write. */
  lemma HalfTurn(s: State, m: CellIndex) returns (es: seq<Event>, t: State)
    requires Quiet(s) && s.core.game == Ready && CheckWin(s.core.table) == Ongoing && s.core.table[m] == Empty
    ensures Leads(s, es, t)
    ensures t == SetAi(s.(core := s.core.(game := Busy), task := Task(false, true), lock := AiOwns(s.core.turn),
                          queue := Queue(false, false, true, false)),
                       s.core.turn, AiPutTable(s.core.attr, s.core.table, m))
  {
    hide CheckWin, Leads;
    var e1, t1 := Dispatch(s);
    var e2, t2 := Decide(t1, s.core.turn, m);
    LeadsConcat(s, e1, t1, e2, t2);
    es, t := e1 + e2, t2;
  }

  /** The second half: all the writes, and the draw worker. */
  lemma WriteAll(s: State, p: Player, m: CellIndex) returns (es: seq<Event>, t: State)
    requires Ai(s, p) == AiPutTable(s.core.attr, s.core.table, m) && s.queue.draw && s.draw == DrawIdle
    requires s.core.attr.alg == 0 && s.core.attr.steps < N_GRIDS && s.core.turn == p
    ensures Leads(s, es, t)
    ensures t == SetAi(s.(lock := Free, core := Played(s.core, m), queue := s.queue.(draw := false)), p, AiIdle)
  {
    hide CheckWin, Leads;
    var e1, t1 := WriteMove(s, p, m);
    var e2, t2 := WriteTurn(t1, p);
    var e3, t3 := Undrawn(t2);
    LeadsConcat(s, e1, t1, e2, t2);
    LeadsConcat(s, e1 + e2, t2, e3, t3);
    es, t := e1 + e2 + e3, t3;
  }

  /** One move of the game, from quiet to quiet. */
  lemma Turn(s0: State, es0: seq<Event>, s: State, m: CellIndex) returns (es: seq<Event>, t: State)
    requires Leads(s0, es0, s) && Quiet(s) && s.core.game == Ready && CheckWin(s.core.table) == Ongoing
    requires s.core.attr.alg == 0 && s.core.attr.steps < N_GRIDS && s.core.table[m] == Empty
    ensures Leads(s0, es, t) && Quiet(t) && t.core == Played(s.core, m) && t.id == s.id
  {
    hide CheckWin, Leads;
    var e1, t1 := HalfTurn(s, m);
    var e2, t2 := WriteAll(t1, s.core.turn, m);
    LeadsConcat(s0, es0, s, e1, t1);
    LeadsConcat(s0, es0 + e1, t1, e2, t2);
    es, t := es0 + e1 + e2, t2;
  }

  /** The timer finds a won game; the finish worker runs up to its first reset write. */
  lemma Finish(s: State) returns (es: seq<Event>, t: State)
    requires Quiet(s) && s.core.game == Ready && CheckWin(s.core.table) != Ongoing
    ensures Leads(s, es, t)
    ensures t.core.game == Done && t.fin.FinPutTable? && t.core.attr.steps == 0 && t.core.turn == s.core.turn
  {
    hide CheckWin, Leads;
    LeadsNothing(s);
    es, t := [], s;
    es, t := Go(s, es, t, SoftActor(true), PLAIN);
    es, t := Go(s, es, t, SoftActor(true), PLAIN);
    es, t := Go(s, es, t, SoftActor(true), PLAIN);
    es, t := Go(s, es, t, SoftActor(true), PLAIN);
    es, t := Go(s, es, t, SoftActor(true), PLAIN);
    es, t := Go(s, es, t, SoftActor(true), PLAIN);
    es, t := Go(s, es, t, SoftActor(true), PLAIN);
    es, t := Go(s, es, t, FinActor, PLAIN);
    es, t := Go(s, es, t, FinActor, PLAIN);
    es, t := Go(s, es, t, FinActor, PLAIN);
    es, t := Go(s, es, t, FinActor, PLAIN);
    es, t := Go(s, es, t, FinActor, PLAIN);
    es, t := Go(s, es, t, FinActor, PLAIN);
    es, t := Go(s, es, t, FinActor, PLAIN);
  }

  // ---- The game: O takes the first row ----

  ghost predicate OnlyAt(b: Board, p: Player, x: nat, y: nat) {
    forall c :: 0 <= c < N_GRIDS && b[c] == p ==> c == x || c == y
  }

  lemma TwoStonesNoLine(b: Board, p: Player, x: nat, y: nat)
    requires OnlyAt(b, p, x, y)
    ensures !StraightLine(b, p)
  {
    AnyLineIsStraightLine(b, p);
    if w: nat :| w < N_LINES && HasLine(b, Lines()[w], p) {
      WinLinesAscend(w);
      assert false;
    }
  }

  lemma WinLinesAscend(w: nat)
    requires w < N_LINES
    ensures var line := Lines()[w]; line[0] < line[1] < line[2]
  {
    LinesAreSegments(w);
    WinLines.SegmentsInRange(BOARD_SIZE, GOAL, w, 0);
    WinLines.SegmentsInRange(BOARD_SIZE, GOAL, w, 1);
  }

  lemma FewStonesOngoing(b: Board, x: nat, y: nat, u: nat, v: nat)
    requires OnlyAt(b, O, x, y) && OnlyAt(b, X, u, v) && b[15] == Empty
    ensures CheckWin(b) == Ongoing
  {
    TwoStonesNoLine(b, O, x, y);
    TwoStonesNoLine(b, X, u, v);
    CheckWinCellByCell(b);
  }

  lemma FirstRowWins(b: Board)
    requires b[0] == O && b[1] == O && b[2] == O && OnlyAt(b, X, 4, 5)
    ensures CheckWin(b) == Won(O)
  {
    TwoStonesNoLine(b, X, 4, 5);
    assert WinLines.Run(BOARD_SIZE, GOAL, 0, 0, 0, 1) == [0, 1, 2];
    assert HoldsRun(b, O, 0, 0, 0, 1);
    CheckWinCellByCell(b);
  }

  /** O on x and y, X on u and v, nothing else; O is to move. */
  ghost predicate Stones(g: Core, x: CellIndex, y: CellIndex, u: CellIndex, v: CellIndex) {
    g.attr.alg == 0 && g.turn == O && g.table[x] == O && g.table[y] == O
    && OnlyAt(g.table, O, x, y) && OnlyAt(g.table, X, u, v)
  }

  lemma TwoMoves() returns (s0: State, es: seq<Event>, t: State)
    ensures Init(s0) && Leads(s0, es, t) && Quiet(t) && t.core.game == Ready && Stones(t.core, 0, 0, 4, 4)
    ensures t.core.attr.steps == 2 && t.core.moves[..2] == [0, 4]
  {
    hide CheckWin, Leads, Quiet;
    s0 := StartState();
    es, t := Opened(s0);
    FewStonesOngoing(t.core.table, 0, 0, 0, 0);
    es, t := Turn(s0, es, t, 0);
    FewStonesOngoing(t.core.table, 0, 0, 0, 0);
    es, t := Turn(s0, es, t, 4);
  }

  lemma FourMoves() returns (s0: State, es: seq<Event>, t: State)
    ensures Init(s0) && Leads(s0, es, t) && Quiet(t) && t.core.game == Ready && Stones(t.core, 0, 1, 4, 5)
    ensures t.core.attr.steps == 4 && t.core.moves[..4] == [0, 4, 1, 5]
  {
    hide CheckWin, Leads, Quiet, Init;
    s0, es, t := TwoMoves();
    var moves := t.core.moves;
    FewStonesOngoing(t.core.table, 0, 0, 4, 4);
    es, t := Turn(s0, es, t, 1);
    FewStonesOngoing(t.core.table, 0, 1, 4, 4);
    es, t := Turn(s0, es, t, 5);
    assert t.core.moves[..4] == moves[..2] + [1, 5];
  }

  /** O 0, X 4, O 1, X 5, O 2. */
  lemma WonGame() returns (s0: State, es: seq<Event>, t: State)
    ensures Init(s0) && Leads(s0, es, t) && Quiet(t) && t.core.game == Ready && CheckWin(t.core.table) == Won(O)
    ensures t.core.attr.steps == 5 && t.core.moves[..5] == [0, 4, 1, 5, 2] && t.core.turn == X
  {
    hide CheckWin, Leads, Quiet, Init;
    s0, es, t := FourMoves();
    FewStonesOngoing(t.core.table, 0, 1, 4, 5);
    var moves := t.core.moves;
    es, t := Turn(s0, es, t, 2);
    assert t.core.moves[..5] == moves[..4] + [2];
    FirstRowWins(t.core.table);
  }

  /** A run to the first write of the reset after a won game: the game is DONE and the table
      is not what the record says. */
  lemma CaughtMidReset() returns (run: seq<State>, events: seq<Event>)
    ensures IsRun(run, events)
    ensures var s := run[|events|];
            s.core.game == Done && !RecordOk(s.core.attr, s.core.table, s.core.moves)
  {
    hide CheckWin, Leads, Next, Enabled, RecordOk, Init, Quiet;
    var s0, es, t := WonGame();
    var fs, u := Finish(t);
    LeadsConcat(s0, es, t, fs, u);
    events := es + fs;
    run := LeadsIsRun(s0, events, u);
    DoneConsistent(run, events, |events|);
  }

  /** The same game two writes later: table and record are those of a new game, and X, who
      would have moved in the old one, still has the turn. */
  lemma CaughtWithStaleTurn() returns (run: seq<State>, events: seq<Event>)
    ensures IsRun(run, events)
    ensures var s := run[|events|];
            s.core.game == Done && RecordOk(s.core.attr, s.core.table, s.core.moves)
            && s.core.attr.steps == 0 && s.core.turn == X && !Consistent(s.core)
  {
    hide CheckWin, Leads, RecordOk, Init, Quiet, Consistent;
    var s0, es, t := WonGame();
    var fs, u := Finish(t);
    LeadsConcat(s0, es, t, fs, u);
    events := es + fs;
    events, u := Go(s0, events, u, FinActor, PLAIN);
    events, u := Go(s0, events, u, FinActor, PLAIN);
    hide Next, Enabled;
    run := LeadsIsRun(s0, events, u);
    DoneConsistent(run, events, |events|);
  }

  lemma StartState() returns (s: State)
    ensures Init(s) && s.core.attr.alg == 0
  {
    s := State(0, Core(Attr(0, 0, 0), EMPTY_BOARD, NO_MOVES, O, Ready), Free, Learn(NO_EPISODE, NO_REWARDS), Ongoing,
               Queue(false, false, false, false), AiIdle, AiIdle, DrawIdle, FinIdle, SoftIdle, NotReleasing,
               false, Task(false, false), [], []);
  }

  lemma Opened(s: State) returns (es: seq<Event>, t: State)
    requires Init(s)
    ensures Leads(s, es, t) && Quiet(t) && t.core == s.core
  {
    hide Leads;
    LeadsNothing(s);
    es, t := [], s;
    es, t := Go(s, es, t, ReleaseActor, PLAIN);
  }
}
