/** What holds in every state of every interleaving of one game. */
module ProtocolSafety {
  import opened Game
  import opened Record
  import opened Protocol
  import opened ProtocolInvariant

  // ---- The record ----

  /** All that replaying the record promises about the shared game. */
  ghost predicate Consistent(g: Core) {
    RecordOk(g.attr, g.table, g.moves)
    && Blanks(g.table) == N_GRIDS - g.attr.steps
    && (forall i, j :: 0 <= i < j < g.attr.steps ==> g.moves[i] != g.moves[j])
    && (g.turn == O <==> g.attr.steps % 2 == 0)
  }

  lemma SettledConsistent(g: Core)
    requires CoreOk(g) && TurnOk(g)
    ensures Consistent(g)
  {
    hide EmptyCells, CheckWin;
    StonesAreSteps(g.moves, g.attr.steps);
    forall i, j | 0 <= i < j < g.attr.steps
      ensures g.moves[i] != g.moves[j]
    {
      MovesDistinct(g.moves, i, j, g.attr.steps);
    }
  }

  /** A READY game is always consistent: the record replays to the table, no cell is played
      twice, there are as many stones as steps, and O moves on even steps. */
  lemma ReadyConsistent(run: seq<State>, events: seq<Event>, k: nat)
    requires IsRun(run, events) && k < |run| && run[k].core.game == Ready
    ensures Consistent(run[k].core)
  {
    RunKeepsInv(run, events, k);
    ReadyIsSettled(run[k]);
    hide IsRun, CoreOk, TurnOk;
    SettledConsistent(run[k].core);
  }

  lemma ReadyIsSettled(s: State)
    requires Inv(s) && s.core.game == Ready
    ensures CoreOk(s.core) && TurnOk(s.core)
  {
    hide RecordOk, SoftInv, AiInv, FinInv, DrawInv, EpisodeInv, LogInv, ReleaseInv, LockInv;
  }

  /** A DONE game's table is the replay of its record at every moment but one: between the
      finish worker's write of the attributes and its write of the table. There it never is.
      And the game is consistent altogether, except there and, when X was to move, until the
      worker has written the turn. */
  lemma DoneConsistent(run: seq<State>, events: seq<Event>, k: nat)
    requires IsRun(run, events) && k < |run| && run[k].core.game == Done
    ensures RecordOk(run[k].core.attr, run[k].core.table, run[k].core.moves) <==> !run[k].fin.FinPutTable?
    ensures Consistent(run[k].core) <==> !run[k].fin.FinPutTable? && !TurnStale(run[k])
  {
    RunKeepsInv(run, events, k);
    hide IsRun;
    DoneRecord(run[k]);
    DoneTurn(run[k]);
    hide Inv, CoreOk, TurnOk, TurnStale;
    if CoreOk(run[k].core) && TurnOk(run[k].core) {
      SettledConsistent(run[k].core);
    } else {
      UnsettledInconsistent(run[k].core);
    }
  }

  /** The reset has cleared the table, and the turn it has not yet written is X's. */
  predicate TurnStale(s: State) {
    (s.fin.FinPutMoves? || s.fin.FinPutTurn?) && s.core.turn == X
  }

  lemma DoneRecord(s: State)
    requires Inv(s) && s.core.game == Done
    ensures CoreOk(s.core) <==> !s.fin.FinPutTable?
  {
    hide SoftInv, AiInv, DrawInv, EpisodeInv, LogInv, ReleaseInv, LockInv, CheckWin, EMPTY_BOARD;
    EmptyBoardOngoing();
    var g := s.core;
    match s.fin {
      case FinPutTable(win, attr, was) => StaleTable(g, was, attr, win);
      case FinPutMoves(_, _, _) => EmptyRecordOk(g.attr.id, g.attr.alg, g.moves);
      case FinPutTurn(_, _, _) => EmptyRecordOk(g.attr.id, g.attr.alg, g.moves);
      case FinPutReady(_, _, _) => EmptyRecordOk(g.attr.id, g.attr.alg, g.moves);
      case _ =>
    }
  }

  lemma DoneTurn(s: State)
    requires Inv(s) && s.core.game == Done
    ensures !s.fin.FinPutTable? ==> (TurnOk(s.core) <==> !TurnStale(s))
  {
    hide SoftInv, AiInv, DrawInv, EpisodeInv, LogInv, ReleaseInv, LockInv, CheckWin, EMPTY_BOARD, RecordOk;
  }

  lemma UnsettledInconsistent(g: Core)
    requires !(CoreOk(g) && TurnOk(g))
    ensures !Consistent(g)
  {
    hide RecordOk;
  }

  lemma StaleTable(g: Core, was: Moves, attr: Attr, win: Verdict)
    requires g.attr.steps == 0 && Discarded(attr, was, win) && g.table == Replay(was, attr.steps)
    ensures !RecordOk(g.attr, g.table, g.moves)
  {
    hide CheckWin;
    EmptyBoardOngoing();
  }

  // ---- Ownership ----

  predicate HoldsToken(s: State, p: Player) {
    Token(Queued(s, p), Ai(s, p), s.soft, p)
  }

  /** BUSY is exactly the time one side holds the token, the sides never both hold it, and
      while a finish is due the game is DONE: AI and finish work never own it together. */
  lemma OneOwner(run: seq<State>, events: seq<Event>, k: nat)
    requires IsRun(run, events) && k < |run|
    ensures var s := run[k];
            (s.core.game == Busy <==> HoldsToken(s, O) || HoldsToken(s, X))
            && !(HoldsToken(s, O) && HoldsToken(s, X))
            && (FinishDue(s.queue.finish, s.fin, s.soft) ==>
                  s.core.game == Done && !HoldsToken(s, O) && !HoldsToken(s, X))
  {
    RunKeepsInv(run, events, k);
  }

  /** The mutex works: never two holders. */
  lemma OneLockHolder(run: seq<State>, events: seq<Event>, k: nat)
    requires IsRun(run, events) && k < |run|
    ensures var s := run[k];
            var holders :=
              [AiHolds(s.aiO), AiHolds(s.aiX), DrawHolds(s.draw), FinHolds(s.fin), ReleaseHolds(s.release)];
            forall i, j :: 0 <= i < j < 5 ==> !(holders[i] && holders[j])
  {
    RunKeepsInv(run, events, k);
  }

  /** It is p's turn, and the attributes address an entry of this game's record and this game's
      row of the episode. */
  predicate WritesOwnRow(s: State, p: Player, attr: Attr) {
    s.core.turn == p && attr.id == s.id && attr.steps < N_GRIDS
  }

  /** What a worker read, before it had the lock or while writing, is still current at every
      write that uses it, up to the write of the attributes themselves. */
  lemma ReadsStayCurrent(run: seq<State>, events: seq<Event>, k: nat, p: Player)
    requires IsRun(run, events) && k < |run|
    ensures var s := run[k];
            match Ai(s, p)
            case AiLock(attr, table) => attr == s.core.attr && table == s.core.table && s.core.turn == p
            case AiThink(attr, table) => attr == s.core.attr && table == s.core.table && s.core.turn == p
            case AiPutTable(attr, table, m) =>
              attr == s.core.attr && table == s.core.table && WritesOwnRow(s, p, attr)
            case AiGetMoves(attr, m) => attr == s.core.attr && WritesOwnRow(s, p, attr)
            case AiPutMoves(attr, m, moves) => attr == s.core.attr && moves == s.core.moves && WritesOwnRow(s, p, attr)
            case AiGetBoard(attr) => attr == s.core.attr && WritesOwnRow(s, p, attr)
            case AiPutEpisode(attr, board) => attr == s.core.attr && board == s.core.table && WritesOwnRow(s, p, attr)
            case AiPutReward(attr, board) => attr == s.core.attr && board == s.core.table && WritesOwnRow(s, p, attr)
            case AiPutAttr(attr) => attr == s.core.attr && WritesOwnRow(s, p, attr)
            case _ => true
  {
    RunKeepsInv(run, events, k);
    hide IsRun, CheckWin, EpisodeInv, LogInv, SoftInv, FinInv, DrawInv, LegalTo;
    var s := run[k];
    if Ai(s, p).AiPutTable? || (AiMid(Ai(s, p)) && Ai(s, p) != AiPutTurn) {
      StepsLeft(s, p);
    }
  }

  lemma StepsLeft(s: State, p: Player)
    requires Inv(s) && (Ai(s, p).AiPutTable? || (AiMid(Ai(s, p)) && Ai(s, p) != AiPutTurn))
    ensures WritesOwnRow(s, p, s.core.attr)
  {
    hide EpisodeInv, LogInv, SoftInv, DrawInv, FinInv, CheckWin, RecordOk;
    AiAlone(s, p);
    var g := s.core;
    match Ai(s, p)
    case AiPutTable(_, _, m) => AppendMove(g.attr, g.table, g.moves, m);
    case AiGetMoves(_, m) => AppendMove(g.attr, Place(g.table, m, Empty), g.moves, m);
    case AiPutMoves(_, m, _) => AppendMove(g.attr, Place(g.table, m, Empty), g.moves, m);
    case _ => NewRecordBoard(g, p, g.attr);
  }

  // ---- What leaves the game ----

  /** Every frame handed to user space is a consistent snapshot of this game. */
  lemma FramesConsistent(run: seq<State>, events: seq<Event>, k: nat, i: nat)
    requires IsRun(run, events) && k < |run| && i < |run[k].frames|
    ensures var f := run[k].frames[i];
            RecordOk(f.attr, f.table, f.moves) && f.attr.id == run[k].id
            && Blanks(f.table) == N_GRIDS - f.attr.steps
  {
    RunKeepsInv(run, events, k);
    hide IsRun, EmptyCells, CheckWin, LockInv, TokenInv, FinishInv, SoftInv, AiInv, RecordInv, FinInv, DrawInv,
         EpisodeInv, ReleaseInv;
    var f := run[k].frames[i];
    assert FrameOk(f, run[k].id);
    StonesAreSteps(f.moves, f.attr.steps);
  }

  /** When the finish worker starts the reset, the win it was told is the verdict on the
      very board it resets. */
  lemma SavedWinIsVerdict(run: seq<State>, events: seq<Event>, k: nat)
    requires IsRun(run, events) && k < |run|
    ensures run[k].fin.FinPutAttr? ==> run[k].fin.win == CheckWin(run[k].core.table) && run[k].fin.win != Ongoing
    ensures run[k].fin.FinPutTable? ==> run[k].fin.win == CheckWin(run[k].core.table) && run[k].fin.win != Ongoing
  {
    hide IsRun, CheckWin, LockInv, TokenInv, FinishInv, SoftInv, AiInv, RecordInv, DrawInv, EpisodeInv, LogInv,
         ReleaseInv, LegalTo;
    RunKeepsInv(run, events, k);
  }

  /** Every episode handed to the learner belongs to one finished game: its entries are
      blank or the replayed board after that step, with the reward that board earned, and the
      winner is the verdict on the last board. READY being written before the episode is
      cleared does no harm. */
  lemma UpdatesBelongToOneGame(run: seq<State>, events: seq<Event>, k: nat, i: nat)
    requires IsRun(run, events) && k < |run| && i < |run[k].updates|
    ensures var u := run[k].updates[i];
            u.steps <= N_GRIDS && LegalTo(u.moves, u.steps)
            && u.win.Won? && u.win == CheckWin(Replay(u.moves, u.steps))
            && forall j :: 0 <= j < N_GRIDS ==>
                 (u.episode[j] == EMPTY_BOARD && u.reward[j] == 0)
                 || (j < u.steps && u.episode[j] == Replay(u.moves, j + 1)
                     && u.reward[j] == WinValue(CheckWin(u.episode[j]), Mover(j)))
  {
    RunKeepsInv(run, events, k);
    hide IsRun, CheckWin, WinValue, LockInv, TokenInv, FinishInv, SoftInv, AiInv, RecordInv, FinInv, DrawInv,
         EpisodeInv, ReleaseInv;
    var u := run[k].updates[i];
    assert UpdateOk(u);
    forall j | 0 <= j < N_GRIDS
      ensures (u.episode[j] == EMPTY_BOARD && u.reward[j] == 0)
           || (j < u.steps && u.episode[j] == Replay(u.moves, j + 1)
               && u.reward[j] == WinValue(CheckWin(u.episode[j]), Mover(j)))
    {
      assert EntryOk(u.episode[j], u.reward[j], u.moves, u.steps, j);
    }
  }
}
