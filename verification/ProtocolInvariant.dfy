/** What every interleaving of the game protocol keeps: the mutex, the ownership token,
    the record, the episode, and everything handed out. */
module ProtocolInvariant {
  import opened Game
  import opened Record
  import opened Protocol

  // ---- Phases ----

  predicate AiHolds(pc: AiPc) {
    pc.AiThink? || pc.AiPutTable? || AiMid(pc) || pc == AiPutReady || pc == AiUnlock
  }

  /** Between the first and the last of the writes of a move. */
  predicate AiMid(pc: AiPc) {
    pc.AiGetMoves? || pc.AiPutMoves? || pc.AiGetBoard? || pc.AiPutEpisode? || pc.AiPutReward? || pc.AiPutAttr?
    || pc == AiPutTurn
  }

  /** Started and READY not yet written. */
  predicate AiActive(pc: AiPc) {
    pc != AiIdle && pc != AiUnlock
  }

  predicate DrawHolds(pc: DrawPc) {
    pc != DrawIdle && pc != DrawCheck && pc != DrawLock
  }

  predicate FinHolds(pc: FinPc) {
    pc != FinIdle && pc != FinGetWin && !pc.FinGetFlags? && !pc.FinLock?
  }

  /** Between the finish worker's write of the attributes and its write of READY. */
  predicate FinMid(pc: FinPc) {
    pc.FinPutTable? || pc.FinPutMoves? || pc.FinPutTurn? || pc.FinPutReady?
  }

  predicate FinAfter(pc: FinPc) {
    pc.FinLearn? || pc == FinClearEpisode || pc == FinClearReward || pc == FinUnlock
  }

  predicate ReleaseHolds(pc: ReleasePc) {
    pc == RelGetState || pc == RelPutReady || pc == RelUnlock
  }

  // ---- The invariants, each over the components it speaks of ----

  ghost predicate LockInv(lock: Owner, aiO: AiPc, aiX: AiPc, draw: DrawPc, fin: FinPc, release: ReleasePc) {
    (AiHolds(aiO) <==> lock == AiOwns(O))
    && (AiHolds(aiX) <==> lock == AiOwns(X))
    && (DrawHolds(draw) <==> lock == DrawOwns)
    && (FinHolds(fin) <==> lock == FinishOwns)
    && (ReleaseHolds(release) <==> lock == ReleaseOwns)
  }

  /** The right to move p's stone: dispatched, queued, or running and READY not written. */
  predicate Token(queued: bool, pc: AiPc, soft: SoftPc, p: Player) {
    queued || AiActive(pc) || soft == TaskQueueAi(p)
  }

  /** The token takes one form at a time, and the turn is its holder's until he ends it. */
  predicate TokenOk(queued: bool, pc: AiPc, soft: SoftPc, p: Player, turn: Player) {
    (queued ==> !AiActive(pc) && soft != TaskQueueAi(p))
    && (soft == TaskQueueAi(p) ==> !AiActive(pc))
    && (Token(queued, pc, soft, p) && pc != AiPutReady ==> turn == p)
  }

  ghost predicate TokenInv(game: GameState, turn: Player, qO: bool, qX: bool, aiO: AiPc, aiX: AiPc, soft: SoftPc) {
    (game == Busy <==> Token(qO, aiO, soft, O) || Token(qX, aiX, soft, X))
    && !(Token(qO, aiO, soft, O) && Token(qX, aiX, soft, X))
    && TokenOk(qO, aiO, soft, O, turn) && TokenOk(qX, aiX, soft, X, turn)
  }

  /** A finish is due or under way and READY not yet written. */
  predicate FinishDue(queued: bool, fin: FinPc, soft: SoftPc) {
    queued || (fin != FinIdle && !FinAfter(fin)) || soft.TimerPutWin? || soft == TimerQueue
  }

  predicate FreshGame(g: Core) {
    g.attr.steps == 0 && g.table == EMPTY_BOARD && g.turn == O
  }

  ghost predicate FinishInv(g: Core, queued: bool, fin: FinPc, soft: SoftPc) {
    (FinishDue(queued, fin, soft) ==> g.game == Done)
    && (queued || soft.TimerPutWin? || soft == TimerQueue ==> fin == FinIdle)
    && (queued ==> !soft.TimerPutWin? && soft != TimerQueue)
    && (FinAfter(fin) ==> (fin == FinUnlock && g.game == Done) || (g.game != Done && FreshGame(g)))
  }

  ghost predicate Decided(win: Verdict, table: Board) {
    win == CheckWin(table) && win != Ongoing
  }

  ghost predicate SoftInv(g: Core, savedWin: Verdict, soft: SoftPc) {
    match soft
    case TimerGetTable => g.game == Ready
    case TimerPutDone(win) => g.game == Ready && Decided(win, g.table)
    case TimerPutWin(win) => Decided(win, g.table)
    case TimerQueue => Decided(savedWin, g.table)
    case TaskGetTurn(state) => state == Ready ==> g.game == Ready
    case TaskDispatch(state, turn) => state == Ready ==> g.game == Ready && turn == g.turn
    case _ => true
  }

  predicate TurnOk(g: Core) {
    g.turn == Mover(g.attr.steps)
  }

  ghost predicate CoreOk(g: Core) {
    RecordOk(g.attr, g.table, g.moves)
  }

  /** The stone is on the table, the move not yet in the record. */
  ghost predicate MidMove(g: Core, p: Player, attr: Attr, m: CellIndex) {
    attr == g.attr && p == Mover(attr.steps) && g.table[m] == p && RecordOk(attr, Place(g.table, m, Empty), g.moves)
  }

  /** Table and moves are written, the step count is not. */
  ghost predicate NewRecord(g: Core, p: Player, attr: Attr) {
    attr == g.attr && p == Mover(attr.steps) && RecordOk(attr.(steps := attr.steps + 1), g.table, g.moves)
  }

  /** What the values an AI worker holds say about the shared state. */
  ghost predicate AiInv(g: Core, p: Player, pc: AiPc) {
    match pc
    case AiGetTable(attr) => attr == g.attr
    case AiCheckStop(attr, table) => attr == g.attr && table == g.table
    case AiLock(attr, table) => attr == g.attr && table == g.table
    case AiThink(attr, table) => attr == g.attr && table == g.table
    case AiPutTable(attr, table, m) => attr == g.attr && table == g.table && table[m] == Empty
    case AiGetMoves(attr, m) => MidMove(g, p, attr, m)
    case AiPutMoves(attr, m, moves) => MidMove(g, p, attr, m) && moves == g.moves
    case AiGetBoard(attr) => NewRecord(g, p, attr)
    case AiPutEpisode(attr, board) => NewRecord(g, p, attr) && board == g.table
    case AiPutReward(attr, board) => NewRecord(g, p, attr) && board == g.table
    case AiPutAttr(attr) => NewRecord(g, p, attr)
    case AiPutTurn => CoreOk(g) && g.attr.steps > 0 && p == Mover(g.attr.steps - 1)
    case _ => true
  }

  predicate Settled(aiO: AiPc, aiX: AiPc, fin: FinPc) {
    !AiMid(aiO) && !AiMid(aiX) && !FinMid(fin)
  }

  ghost predicate RecordInv(id: nat, g: Core, aiO: AiPc, aiX: AiPc, fin: FinPc) {
    g.attr.id == id && (Settled(aiO, aiX, fin) ==> CoreOk(g) && TurnOk(g))
  }

  /** The record being discarded was legal, and decided the way the worker was told. */
  ghost predicate Discarded(attr: Attr, was: Moves, win: Verdict) {
    attr.steps <= N_GRIDS && LegalTo(was, attr.steps) && Decided(win, Replay(was, attr.steps))
  }

  ghost predicate FinInv(g: Core, savedWin: Verdict, queued: bool, fin: FinPc) {
    (queued ==> Decided(savedWin, g.table))
    && match fin
       case FinGetWin => Decided(savedWin, g.table)
       case FinGetFlags(win) => Decided(win, g.table)
       case FinLock(win, _, _) => Decided(win, g.table)
       case FinShow(win, _, _) => Decided(win, g.table)
       case FinShowTable(win, _, attr) => Decided(win, g.table) && attr == g.attr
       case FinShowMoves(win, _, attr, table) => Decided(win, g.table) && attr == g.attr && table == g.table
       case FinDecide(win, _) => Decided(win, g.table)
       case FinPutAttr(win, attr) => Decided(win, g.table) && attr == g.attr
       case FinPutTable(win, attr, was) =>
         g.attr.steps == 0 && was == g.moves && Discarded(attr, was, win) && g.table == Replay(was, attr.steps)
       case FinPutMoves(win, attr, was) =>
         g.attr.steps == 0 && was == g.moves && Discarded(attr, was, win) && g.table == EMPTY_BOARD
       case FinPutTurn(win, attr, was) => g.attr.steps == 0 && Discarded(attr, was, win) && g.table == EMPTY_BOARD
       case FinPutReady(win, attr, was) => Discarded(attr, was, win) && FreshGame(g)
       case FinLearn(win, attr, was) => Discarded(attr, was, win)
       case _ => true
  }

  ghost predicate DrawInv(g: Core, draw: DrawPc) {
    match draw
    case DrawGetTable(attr) => attr == g.attr
    case DrawGetMoves(attr, table) => attr == g.attr && table == g.table
    case _ => true
  }

  ghost predicate LearnOk(l: Learn, moves: Moves, steps: nat) {
    EpisodeOk(l.episode, l.reward, moves, steps)
  }

  /** The board of step `attr.steps` is in, its reward is not. */
  ghost predicate HalfRecorded(l: Learn, moves: Moves, attr: Attr, board: Board) {
    attr.steps < N_GRIDS && l.episode[attr.steps] == board && l.reward[attr.steps] == 0
    && LearnOk(l.(episode := l.episode[attr.steps := EMPTY_BOARD]), moves, attr.steps)
  }

  /** The episode while p's worker holds the lock. */
  ghost predicate AiEpisode(g: Core, l: Learn, pc: AiPc) {
    match pc
    case AiPutReward(attr, board) => HalfRecorded(l, g.moves, attr, board)
    case AiPutAttr(attr) => LearnOk(l, g.moves, attr.steps + 1)
    case _ => LearnOk(l, g.moves, g.attr.steps)
  }

  ghost predicate FinEpisode(g: Core, l: Learn, fin: FinPc) {
    match fin
    case FinPutTable(win, attr, was) => LearnOk(l, was, attr.steps)
    case FinPutMoves(win, attr, was) => LearnOk(l, was, attr.steps)
    case FinPutTurn(win, attr, was) => LearnOk(l, was, attr.steps)
    case FinPutReady(win, attr, was) => LearnOk(l, was, attr.steps)
    case FinLearn(win, attr, was) => LearnOk(l, was, attr.steps)
    case FinClearEpisode => true
    case FinClearReward => l.episode == NO_EPISODE
    case _ => LearnOk(l, g.moves, g.attr.steps)
  }

  ghost predicate EpisodeInv(g: Core, l: Learn, lock: Owner, aiO: AiPc, aiX: AiPc, fin: FinPc) {
    match lock
    case AiOwns(p) => AiEpisode(g, l, if p == O then aiO else aiX)
    case FinishOwns => FinEpisode(g, l, fin)
    case _ => LearnOk(l, g.moves, g.attr.steps)
  }

  ghost predicate FrameOk(f: Frame, id: nat) {
    f.attr.id == id && RecordOk(f.attr, f.table, f.moves)
  }

  ghost predicate UpdateOk(u: Update) {
    u.steps <= N_GRIDS && LegalTo(u.moves, u.steps)
    && EpisodeOk(u.episode, u.reward, u.moves, u.steps)
    && u.win == CheckWin(Replay(u.moves, u.steps)) && u.win.Won?
  }

  ghost predicate LogInv(id: nat, frames: seq<Frame>, updates: seq<Update>) {
    (forall i :: 0 <= i < |frames| ==> FrameOk(frames[i], id))
    && (forall i :: 0 <= i < |updates| ==> UpdateOk(updates[i]))
  }

  ghost predicate ReleaseInv(s: State) {
    (s.release != NotReleasing ==> !s.timerOn)
    && (s.release != NotReleasing && s.release != Draining ==> Drained(s))
    && (s.release == RelPutReady ==> s.core.game == Done)
  }

  ghost predicate Inv(s: State) {
    LockInv(s.lock, s.aiO, s.aiX, s.draw, s.fin, s.release)
    && TokenInv(s.core.game, s.core.turn, s.queue.aiO, s.queue.aiX, s.aiO, s.aiX, s.soft)
    && FinishInv(s.core, s.queue.finish, s.fin, s.soft)
    && SoftInv(s.core, s.savedWin, s.soft)
    && AiInv(s.core, O, s.aiO) && AiInv(s.core, X, s.aiX)
    && RecordInv(s.id, s.core, s.aiO, s.aiX, s.fin)
    && FinInv(s.core, s.savedWin, s.queue.finish, s.fin)
    && DrawInv(s.core, s.draw)
    && EpisodeInv(s.core, s.learn, s.lock, s.aiO, s.aiX, s.fin)
    && LogInv(s.id, s.frames, s.updates)
    && ReleaseInv(s)
  }

  lemma InitInv(s: State)
    requires Init(s)
    ensures Inv(s)
  {
    hide RecordOk, EpisodeOk;
    EmptyRecordOk(s.core.attr.id, s.core.attr.alg, s.core.moves);
    BlankEpisodeOk(s.core.moves, 0);
  }

  // ---- Draw worker ----

  lemma DrawShowKeepsInv(s: State, c: Choice)
    requires Inv(s) && s.draw.DrawGetMoves?
    ensures Inv(DrawNext(s, c))
  {
    hide TokenInv, FinishInv, SoftInv, AiInv, FinInv, RecordOk, AiEpisode, FinEpisode, LearnOk, ReleaseHolds;
  }

  lemma DrawLookKeepsInv(s: State, c: Choice)
    requires Inv(s)
    requires s.draw == DrawIdle || s.draw == DrawCheck || s.draw.DrawGetState? || s.draw.DrawGetAttr?
             || s.draw.DrawGetTable?
    requires DrawEnabled(s)
    ensures Inv(DrawNext(s, c))
  {
    hide TokenInv, FinishInv, SoftInv, AiInv, FinInv, RecordInv, LogInv, EpisodeInv, AiHolds, FinHolds, ReleaseHolds;
  }

  lemma DrawLockKeepsInv(s: State, c: Choice)
    requires Inv(s) && (s.draw == DrawLock || s.draw == DrawUnlock)
    requires DrawEnabled(s)
    ensures Inv(DrawNext(s, c))
  {
    hide TokenInv, FinishInv, SoftInv, AiInv, FinInv, RecordInv, LogInv, AiEpisode, FinEpisode, LearnOk, AiHolds,
         FinHolds, ReleaseHolds;
  }

  lemma DrawKeepsInv(s: State, c: Choice)
    requires Inv(s) && DrawEnabled(s)
    ensures Inv(DrawNext(s, c))
  {
    hide Inv, DrawNext, DrawEnabled;
    match s.draw
    case DrawLock => DrawLockKeepsInv(s, c);
    case DrawUnlock => DrawLockKeepsInv(s, c);
    case DrawGetMoves(_, _) => DrawShowKeepsInv(s, c);
    case _ => DrawLookKeepsInv(s, c);
  }

  /** Most of what is known about the core does not depend on the dispatch state. */
  lemma GameIrrelevant(s: State, game: GameState)
    ensures var g, h := s.core, s.core.(game := game);
            (AiInv(g, O, s.aiO) <==> AiInv(h, O, s.aiO))
            && (AiInv(g, X, s.aiX) <==> AiInv(h, X, s.aiX))
            && (RecordInv(s.id, g, s.aiO, s.aiX, s.fin) <==> RecordInv(s.id, h, s.aiO, s.aiX, s.fin))
            && (DrawInv(g, s.draw) <==> DrawInv(h, s.draw))
            && (FinInv(g, s.savedWin, s.queue.finish, s.fin) <==> FinInv(h, s.savedWin, s.queue.finish, s.fin))
            && (EpisodeInv(g, s.learn, s.lock, s.aiO, s.aiX, s.fin)
                <==> EpisodeInv(h, s.learn, s.lock, s.aiO, s.aiX, s.fin))
  {
    hide RecordOk, LearnOk, Settled, Decided, Discarded;
  }

  // ---- Opening and closing ----

  lemma ReleaseKeepsInv(s: State)
    requires Inv(s) && ReleaseEnabled(s)
    ensures Inv(ReleaseNext(s))
  {
    hide RecordOk, AiEpisode, FinEpisode, LearnOk, AiHolds, FinHolds, DrawHolds, LogInv, Decided;
    if s.release == RelPutReady {
      ReleaseReadyKeepsInv(s);
    } else {
      hide TokenInv, FinishInv, SoftInv, AiInv, FinInv, DrawInv, RecordInv;
    }
  }

  lemma ReleaseReadyKeepsInv(s: State)
    requires Inv(s) && s.release == RelPutReady
    ensures Inv(ReleaseNext(s))
  {
    hide RecordOk, AiEpisode, FinEpisode, LearnOk, LogInv, Decided;
  }

  // ---- Timer and tasklet ----

  /** Steps that move the timer handler along without touching the game. */
  lemma TimerLookKeepsInv(s: State, timer: bool, c: Choice)
    requires Inv(s) && SoftEnabled(s, timer)
    requires s.soft == SoftIdle || s.soft == TimerGetState || s.soft == TimerGetTable || s.soft.TimerEnd?
    ensures Inv(SoftNext(s, timer, c))
  {
    hide LockInv, AiInv, RecordInv, FinInv, DrawInv, EpisodeInv, LogInv, AiActive, CheckWin;
  }

  /** Steps that move the tasklet along without touching the game. */
  lemma TaskLookKeepsInv(s: State, timer: bool, c: Choice)
    requires Inv(s) && (s.soft == TaskGetState || s.soft.TaskGetTurn? || s.soft == TaskQueueDraw)
    ensures Inv(SoftNext(s, timer, c))
  {
    hide LockInv, AiInv, RecordInv, FinInv, DrawInv, EpisodeInv, LogInv, AiActive, CheckWin;
  }

  lemma TimerPutDoneKeepsInv(s: State, timer: bool, c: Choice)
    requires Inv(s) && s.soft.TimerPutDone?
    ensures Inv(SoftNext(s, timer, c))
  {
    hide LockInv, EpisodeInv, LogInv, AiActive, RecordInv, AiInv, DrawInv, Discarded, CheckWin;
    EmptyBoardOngoing();
    GameIrrelevant(s, Done);
  }

  lemma TimerPutWinKeepsInv(s: State, timer: bool, c: Choice)
    requires Inv(s) && s.soft.TimerPutWin?
    ensures Inv(SoftNext(s, timer, c))
  {
    hide LockInv, EpisodeInv, LogInv, AiActive, RecordInv, AiInv, Decided;
  }

  lemma TimerQueueKeepsInv(s: State, timer: bool, c: Choice)
    requires Inv(s) && s.soft == TimerQueue
    ensures Inv(SoftNext(s, timer, c))
  {
    hide LockInv, EpisodeInv, LogInv, AiActive, RecordInv, AiInv, Decided;
  }

  lemma TaskDispatchKeepsInv(s: State, timer: bool, c: Choice)
    requires Inv(s) && s.soft.TaskDispatch?
    ensures Inv(SoftNext(s, timer, c))
  {
    hide LockInv, EpisodeInv, LogInv, RecordInv, AiInv, FinInv, DrawInv, Decided, AiActive, CheckWin, EMPTY_BOARD;
    GameIrrelevant(s, Busy);
  }

  lemma TaskQueueAiKeepsInv(s: State, timer: bool, c: Choice)
    requires Inv(s) && s.soft.TaskQueueAi?
    ensures Inv(SoftNext(s, timer, c))
  {
    hide LockInv, EpisodeInv, LogInv, RecordInv, AiInv, FinInv, Decided;
  }

  lemma SoftKeepsInv(s: State, timer: bool, c: Choice)
    requires Inv(s) && SoftEnabled(s, timer)
    ensures Inv(SoftNext(s, timer, c))
  {
    hide Inv, SoftNext;
    match s.soft
    case TimerPutDone(_) => TimerPutDoneKeepsInv(s, timer, c);
    case TimerPutWin(_) => TimerPutWinKeepsInv(s, timer, c);
    case TimerQueue => TimerQueueKeepsInv(s, timer, c);
    case TaskDispatch(_, _) => TaskDispatchKeepsInv(s, timer, c);
    case TaskQueueAi(_) => TaskQueueAiKeepsInv(s, timer, c);
    case TaskGetState => TaskLookKeepsInv(s, timer, c);
    case TaskGetTurn(_) => TaskLookKeepsInv(s, timer, c);
    case TaskQueueDraw => TaskLookKeepsInv(s, timer, c);
    case _ => TimerLookKeepsInv(s, timer, c);
  }

  // ---- Finish worker ----

  /** While the finish worker holds the lock and has not written READY, nobody else is
      anywhere near the game. */
  lemma FinAlone(s: State)
    requires Inv(s) && FinHolds(s.fin) && !FinAfter(s.fin)
    ensures s.core.game == Done && s.lock == FinishOwns
    ensures !s.queue.aiO && !s.queue.aiX && s.aiO == AiIdle && s.aiX == AiIdle
    ensures !DrawHolds(s.draw) && !ReleaseHolds(s.release) && !s.queue.finish
    ensures !s.soft.TimerGetTable? && !s.soft.TimerPutDone? && !s.soft.TimerPutWin? && s.soft != TimerQueue
    ensures !s.soft.TaskQueueAi? && (s.soft.TaskGetTurn? ==> s.soft.state != Ready)
    ensures s.soft.TaskDispatch? ==> s.soft.state != Ready
  {
    hide RecordInv, FinInv, EpisodeInv, LogInv, DrawInv, AiInv;
  }

  lemma FinStartKeepsInv(s: State, c: Choice)
    requires Inv(s) && FinEnabled(s) && (s.fin == FinIdle || s.fin == FinGetWin || s.fin.FinGetFlags?)
    ensures Inv(FinNext(s, c))
  {
    hide TokenInv, SoftInv, AiInv, CoreOk, TurnOk, AiEpisode, LearnOk, LogInv, DrawInv, Decided, AiHolds, DrawHolds,
         ReleaseHolds, Discarded, AiMid;
  }

  lemma FinLockKeepsInv(s: State, c: Choice)
    requires Inv(s) && FinEnabled(s) && s.fin.FinLock?
    ensures Inv(FinNext(s, c))
  {
    hide TokenInv, SoftInv, AiInv, CoreOk, TurnOk, AiEpisode, LearnOk, LogInv, DrawInv, Decided, AiHolds, DrawHolds,
         ReleaseHolds, Discarded, AiMid;
  }

  lemma FinLookKeepsInv(s: State, c: Choice)
    requires Inv(s) && (s.fin.FinShow? || s.fin.FinShowTable?)
    ensures Inv(FinNext(s, c))
  {
    hide TokenInv, SoftInv, AiInv, CoreOk, TurnOk, AiEpisode, LearnOk, LogInv, DrawInv, Decided, AiHolds, DrawHolds,
         ReleaseHolds, Discarded, AiMid;
  }

  lemma FinShowKeepsInv(s: State, c: Choice)
    requires Inv(s) && s.fin.FinShowMoves?
    ensures Inv(FinNext(s, c))
  {
    hide TokenInv, SoftInv, AiInv, RecordOk, AiEpisode, LearnOk, DrawInv, Decided, Discarded, ReleaseHolds, DrawHolds,
         AiHolds;
    FinAlone(s);
  }

  lemma FinDecideKeepsInv(s: State, c: Choice)
    requires Inv(s) && s.fin.FinDecide?
    ensures Inv(FinNext(s, c))
  {
    hide TokenInv, SoftInv, AiInv, CoreOk, TurnOk, AiEpisode, LearnOk, DrawInv, LogInv, Decided, Discarded,
         ReleaseHolds, DrawHolds, AiHolds, AiMid;
    FinAlone(s);
  }

  /** A reset write touches only the core: all that is not about its contents survives. */
  lemma FinResetFrame(s: State, g: Core, fin: FinPc)
    requires Inv(s) && FinHolds(s.fin) && !FinAfter(s.fin) && FinMid(fin) && g.game == s.core.game
    ensures s.lock == FinishOwns && s.core.game == Done && s.aiO == AiIdle && s.aiX == AiIdle && !s.queue.finish
    ensures LockInv(s.lock, s.aiO, s.aiX, s.draw, fin, s.release)
    ensures TokenInv(g.game, g.turn, s.queue.aiO, s.queue.aiX, s.aiO, s.aiX, s.soft)
    ensures FinishInv(g, s.queue.finish, fin, s.soft) && SoftInv(g, s.savedWin, s.soft)
    ensures AiInv(g, O, s.aiO) && AiInv(g, X, s.aiX) && DrawInv(g, s.draw)
    ensures ReleaseInv(s.(core := g, fin := fin))
  {
    hide RecordInv, FinInv, EpisodeInv, LogInv, Decided;
    FinAlone(s);
  }

  lemma FinPutAttrKeepsInv(s: State, c: Choice)
    requires Inv(s) && s.fin.FinPutAttr?
    ensures Inv(FinNext(s, c))
  {
    hide LockInv, TokenInv, FinishInv, SoftInv, AiInv, DrawInv, ReleaseInv, LogInv, AiEpisode, EpisodeOk, CheckWin,
         LegalTo;
    FinResetFrame(s, FinNext(s, c).core, FinNext(s, c).fin);
  }

  lemma FinPutTableKeepsInv(s: State, c: Choice)
    requires Inv(s) && s.fin.FinPutTable?
    ensures Inv(FinNext(s, c))
  {
    hide LockInv, TokenInv, FinishInv, SoftInv, AiInv, DrawInv, ReleaseInv, LogInv, AiEpisode, EpisodeOk, Decided,
         RecordOk, LegalTo;
    FinResetFrame(s, FinNext(s, c).core, FinNext(s, c).fin);
  }

  lemma FinPutMovesKeepsInv(s: State, c: Choice)
    requires Inv(s) && s.fin.FinPutMoves?
    ensures Inv(FinNext(s, c))
  {
    hide LockInv, TokenInv, FinishInv, SoftInv, AiInv, DrawInv, ReleaseInv, LogInv, AiEpisode, EpisodeOk, Decided,
         RecordOk, LegalTo;
    FinResetFrame(s, FinNext(s, c).core, FinNext(s, c).fin);
  }

  lemma FinPutTurnKeepsInv(s: State, c: Choice)
    requires Inv(s) && s.fin.FinPutTurn?
    ensures Inv(FinNext(s, c))
  {
    hide LockInv, TokenInv, FinishInv, SoftInv, AiInv, DrawInv, ReleaseInv, LogInv, AiEpisode, EpisodeOk, Decided,
         RecordOk, LegalTo;
    FinResetFrame(s, FinNext(s, c).core, FinNext(s, c).fin);
  }

  lemma FinPutReadyKeepsInv(s: State, c: Choice)
    requires Inv(s) && s.fin.FinPutReady?
    ensures Inv(FinNext(s, c))
  {
    hide AiEpisode, EpisodeOk, LogInv, Decided, RecordOk, LegalTo, AiInv, DrawInv, Discarded;
    FinAlone(s);
    GameIrrelevant(s, Ready);
    EmptyRecordOk(s.core.attr.id, s.core.attr.alg, s.core.moves);
  }

  lemma FinLearnKeepsInv(s: State, c: Choice)
    requires Inv(s) && s.fin.FinLearn?
    ensures Inv(FinNext(s, c))
  {
    hide TokenInv, SoftInv, AiInv, AiEpisode, EpisodeOk, LegalTo, DrawInv, CheckWin, RecordOk, DrawHolds, AiHolds,
         ReleaseHolds;
  }

  lemma FinClearKeepsInv(s: State, c: Choice)
    requires Inv(s) && (s.fin == FinClearEpisode || s.fin == FinClearReward)
    ensures Inv(FinNext(s, c))
  {
    hide TokenInv, SoftInv, AiInv, AiEpisode, EpisodeOk, DrawInv, CheckWin, RecordOk, DrawHolds, AiHolds, ReleaseHolds,
         LogInv;
    BlankEpisodeOk(s.core.moves, s.core.attr.steps);
  }

  lemma FinUnlockKeepsInv(s: State, c: Choice)
    requires Inv(s) && s.fin == FinUnlock
    ensures Inv(FinNext(s, c))
  {
    hide TokenInv, SoftInv, AiInv, AiEpisode, LearnOk, DrawInv, RecordOk, DrawHolds, AiHolds, ReleaseHolds, LogInv;
  }

  lemma FinKeepsInv(s: State, c: Choice)
    requires Inv(s) && FinEnabled(s)
    ensures Inv(FinNext(s, c))
  {
    hide Inv, FinNext;
    match s.fin
    case FinShowMoves(_, _, _, _) => FinShowKeepsInv(s, c);
    case FinDecide(_, _) => FinDecideKeepsInv(s, c);
    case FinPutAttr(_, _) => FinPutAttrKeepsInv(s, c);
    case FinPutTable(_, _, _) => FinPutTableKeepsInv(s, c);
    case FinPutMoves(_, _, _) => FinPutMovesKeepsInv(s, c);
    case FinPutTurn(_, _, _) => FinPutTurnKeepsInv(s, c);
    case FinPutReady(_, _, _) => FinPutReadyKeepsInv(s, c);
    case FinLearn(_, _, _) => FinLearnKeepsInv(s, c);
    case FinClearEpisode => FinClearKeepsInv(s, c);
    case FinClearReward => FinClearKeepsInv(s, c);
    case FinUnlock => FinUnlockKeepsInv(s, c);
    case FinLock(_, _, _) => FinLockKeepsInv(s, c);
    case FinShow(_, _, _) => FinLookKeepsInv(s, c);
    case FinShowTable(_, _, _) => FinLookKeepsInv(s, c);
    case _ => FinStartKeepsInv(s, c);
  }

  // ---- AI workers ----

  /** While p's worker holds the lock and has not written READY, the other worker, the
      finish worker, the draw worker, the timer and the tasklet all stay away. */
  lemma AiAlone(s: State, p: Player)
    requires Inv(s) && AiHolds(Ai(s, p)) && AiActive(Ai(s, p))
    ensures s.core.game == Busy && s.lock == AiOwns(p) && Ai(s, Other(p)) == AiIdle && !Queued(s, O) && !Queued(s, X)
    ensures Ai(s, p) != AiPutReady ==> s.core.turn == p
    ensures s.fin == FinIdle && !s.queue.finish && !DrawHolds(s.draw) && !ReleaseHolds(s.release)
    ensures !s.soft.TimerGetTable? && !s.soft.TimerPutDone? && !s.soft.TimerPutWin? && s.soft != TimerQueue
    ensures !s.soft.TaskQueueAi? && (s.soft.TaskGetTurn? ==> s.soft.state != Ready)
    ensures s.soft.TaskDispatch? ==> s.soft.state != Ready
  {
    hide RecordInv, FinInv, EpisodeInv, LogInv, DrawInv, AiInv, Decided;
  }

  lemma AiStartKeepsInv(s: State, p: Player, c: Choice)
    requires Inv(s) && AiEnabled(s, p, c) && Ai(s, p) == AiIdle
    ensures Inv(AiNext(s, p, c))
  {
    hide FinishInv, SoftInv, FinInv, DrawInv, LogInv, CoreOk, LearnOk, DrawHolds, FinHolds, ReleaseHolds, FinMid,
         FinEpisode, MidMove, NewRecord;
  }

  predicate AiQuiet(pc: AiPc) {
    AiActive(pc) && !AiHolds(pc)
  }

  /** Before the lock a worker may move on as long as what it holds stays current. */
  lemma AiQuietFrame(s: State, p: Player, pc: AiPc)
    requires Inv(s) && AiQuiet(Ai(s, p)) && AiQuiet(pc) && AiInv(s.core, p, pc)
    ensures Inv(SetAi(s, p, pc))
  {
    hide FinishInv, SoftInv, FinInv, DrawInv, LogInv, CoreOk, LearnOk, DrawHolds, FinHolds, ReleaseHolds, FinMid,
         FinEpisode, MidMove, NewRecord, AiInv;
  }

  lemma AiReadKeepsInv(s: State, p: Player, c: Choice)
    requires Inv(s) && (Ai(s, p) == AiGetAttr || Ai(s, p).AiGetTable? || Ai(s, p).AiCheckStop?)
    ensures Inv(AiNext(s, p, c))
  {
    hide LockInv, TokenInv, FinishInv, SoftInv, FinInv, RecordInv, DrawInv, EpisodeInv, LogInv, ReleaseInv;
    assert AiInv(s.core, p, Ai(s, p));
    AiQuietFrame(s, p, Ai(AiNext(s, p, c), p));
  }

  lemma AiIdleInv(g: Core)
    ensures AiInv(g, O, AiIdle) && AiInv(g, X, AiIdle)
  {
  }

  /** A write of READY by the token's holder gives the token back and disturbs nobody. */
  lemma ReadyReleasesToken(s: State, p: Player, pc: AiPc)
    requires Inv(s) && (Ai(s, p) == AiBail || Ai(s, p) == AiPutReady) && !AiActive(pc)
    ensures var t := SetAi(s.(core := s.core.(game := Ready)), p, pc);
            TokenInv(t.core.game, t.core.turn, t.queue.aiO, t.queue.aiX, t.aiO, t.aiX, t.soft) && ReleaseInv(t)
  {
    hide LockInv, FinishInv, SoftInv, AiInv, RecordInv, FinInv, DrawInv, EpisodeInv, LogInv, AiHolds;
  }

  lemma ReadyKeepsFinish(s: State, p: Player)
    requires Inv(s) && (Ai(s, p) == AiBail || Ai(s, p) == AiPutReady)
    ensures var g := s.core.(game := Ready);
            FinishInv(g, s.queue.finish, s.fin, s.soft) && SoftInv(g, s.savedWin, s.soft)
  {
    hide LockInv, AiInv, RecordInv, FinInv, DrawInv, EpisodeInv, LogInv, ReleaseInv, AiHolds, Decided;
  }

  /** Bailing out gives the game back untouched, without ever taking the lock. */
  lemma AiBailKeepsInv(s: State, p: Player, c: Choice)
    requires Inv(s) && Ai(s, p) == AiBail
    ensures Inv(AiNext(s, p, c))
  {
    ReadyReleasesToken(s, p, AiIdle);
    ReadyKeepsFinish(s, p);
    BailKeepsRecord(s, p);
    GameIrrelevant(s, Ready);
    AiIdleInv(s.core.(game := Ready));
    hide LockInv, TokenInv, FinishInv, SoftInv, AiInv, RecordInv, FinInv, DrawInv, EpisodeInv, LogInv, ReleaseInv;
  }

  lemma BailKeepsRecord(s: State, p: Player)
    requires Inv(s) && Ai(s, p) == AiBail
    ensures var t := SetAi(s.(core := s.core.(game := Ready)), p, AiIdle);
            LockInv(t.lock, t.aiO, t.aiX, t.draw, t.fin, t.release)
            && RecordInv(t.id, t.core, t.aiO, t.aiX, t.fin)
            && EpisodeInv(t.core, t.learn, t.lock, t.aiO, t.aiX, t.fin)
  {
    hide TokenInv, FinishInv, SoftInv, DrawInv, LogInv, CoreOk, LearnOk, AiEpisode, FinEpisode, DrawHolds, FinHolds,
         ReleaseHolds, ReleaseInv, FinMid, FinInv, AiInv;
    GameIrrelevant(s, Ready);
  }

  lemma AiLockKeepsInv(s: State, p: Player, c: Choice)
    requires Inv(s) && AiEnabled(s, p, c) && (Ai(s, p).AiLock? || Ai(s, p).AiThink?)
    ensures Inv(AiNext(s, p, c))
  {
    hide FinishInv, SoftInv, FinInv, DrawInv, LogInv, RecordOk, LearnOk, DrawHolds, FinHolds, ReleaseHolds, FinMid,
         FinEpisode;
  }

  // A move, write by write. The core is changed by the one worker that owns the game.

  /** p's worker, holding the lock, writes to the core or the episode and moves on to pc. */
  predicate OwnerWrites(s: State, p: Player, g: Core, pc: AiPc) {
    AiHolds(Ai(s, p)) && AiActive(Ai(s, p)) && AiHolds(pc) && AiActive(pc)
    && g.game == s.core.game && (g.turn == s.core.turn || pc == AiPutReady)
    && (Ai(s, p) == AiPutReady ==> pc == AiPutReady)
  }

  function Written(s: State, p: Player, g: Core, l: Learn, pc: AiPc): State {
    SetAi(s.(core := g, learn := l), p, pc)
  }

  lemma WriteKeepsLock(s: State, p: Player, g: Core, l: Learn, pc: AiPc)
    requires Inv(s) && OwnerWrites(s, p, g, pc)
    ensures var t := Written(s, p, g, l, pc); LockInv(t.lock, t.aiO, t.aiX, t.draw, t.fin, t.release)
  {
    hide TokenInv, FinishInv, SoftInv, AiInv, RecordInv, FinInv, DrawInv, EpisodeInv, LogInv, ReleaseInv, AiActive;
  }

  lemma WriteKeepsToken(s: State, p: Player, g: Core, l: Learn, pc: AiPc)
    requires Inv(s) && OwnerWrites(s, p, g, pc)
    ensures var t := Written(s, p, g, l, pc);
            TokenInv(t.core.game, t.core.turn, t.queue.aiO, t.queue.aiX, t.aiO, t.aiX, t.soft)
  {
    hide LockInv, FinishInv, SoftInv, AiInv, RecordInv, FinInv, DrawInv, EpisodeInv, LogInv, ReleaseInv, AiHolds;
  }

  lemma WriteKeepsFinish(s: State, p: Player, g: Core, l: Learn, pc: AiPc)
    requires Inv(s) && OwnerWrites(s, p, g, pc)
    ensures var t := Written(s, p, g, l, pc);
            FinishInv(t.core, t.queue.finish, t.fin, t.soft) && FinInv(t.core, t.savedWin, t.queue.finish, t.fin)
            && !FinMid(t.fin)
  {
    AiAlone(s, p);
    FinIdleInv(g, s.savedWin, s.soft);
    hide Inv, FinishInv, FinInv, DrawHolds, ReleaseHolds, AiHolds, AiActive;
  }

  /** Nothing to finish, nothing to keep. */
  lemma FinIdleInv(g: Core, savedWin: Verdict, soft: SoftPc)
    ensures FinInv(g, savedWin, false, FinIdle)
    ensures !soft.TimerPutWin? && soft != TimerQueue ==> FinishInv(g, false, FinIdle, soft)
  {
    hide FreshGame;
  }

  lemma WriteKeepsSoft(s: State, p: Player, g: Core, l: Learn, pc: AiPc)
    requires Inv(s) && OwnerWrites(s, p, g, pc)
    ensures var t := Written(s, p, g, l, pc); SoftInv(t.core, t.savedWin, t.soft)
  {
    AiAlone(s, p);
    hide LockInv, TokenInv, FinishInv, AiInv, RecordInv, FinInv, DrawInv, EpisodeInv, LogInv, ReleaseInv, Decided,
         AiHolds, AiActive;
  }

  lemma WriteKeepsOthers(s: State, p: Player, g: Core, l: Learn, pc: AiPc)
    requires Inv(s) && OwnerWrites(s, p, g, pc)
    ensures var t := Written(s, p, g, l, pc);
            AiInv(t.core, Other(p), Ai(t, Other(p))) && !AiMid(Ai(t, Other(p)))
            && DrawInv(t.core, t.draw) && LogInv(t.id, t.frames, t.updates) && ReleaseInv(t)
  {
    AiAlone(s, p);
    hide LockInv, TokenInv, FinishInv, SoftInv, RecordInv, FinInv, EpisodeInv, LogInv, MidMove, NewRecord, CoreOk;
  }

  /** A write of the owner touches only the core and its own point: all that is not about
      the contents survives. */
  lemma AiWriteFrame(s: State, p: Player, g: Core, l: Learn, pc: AiPc)
    requires Inv(s) && OwnerWrites(s, p, g, pc)
    ensures var t := Written(s, p, g, l, pc);
            LockInv(t.lock, t.aiO, t.aiX, t.draw, t.fin, t.release)
            && TokenInv(t.core.game, t.core.turn, t.queue.aiO, t.queue.aiX, t.aiO, t.aiX, t.soft)
            && FinishInv(t.core, t.queue.finish, t.fin, t.soft)
            && SoftInv(t.core, t.savedWin, t.soft)
            && AiInv(t.core, Other(p), Ai(t, Other(p)))
            && FinInv(t.core, t.savedWin, t.queue.finish, t.fin)
            && DrawInv(t.core, t.draw) && LogInv(t.id, t.frames, t.updates) && ReleaseInv(t)
            && !AiMid(Ai(t, Other(p))) && !FinMid(t.fin)
  {
    hide *;
    WriteKeepsLock(s, p, g, l, pc);
    WriteKeepsToken(s, p, g, l, pc);
    WriteKeepsFinish(s, p, g, l, pc);
    WriteKeepsSoft(s, p, g, l, pc);
    WriteKeepsOthers(s, p, g, l, pc);
  }

  lemma NewRecordBoard(g: Core, p: Player, attr: Attr)
    requires NewRecord(g, p, attr)
    ensures attr.steps < N_GRIDS && g.table == Replay(g.moves, attr.steps + 1) && p == Mover(attr.steps)
  {
  }

  lemma BlankBeforeStep(l: Learn, moves: Moves, attr: Attr, board: Board)
    requires attr.steps < N_GRIDS && LearnOk(l, moves, attr.steps)
    ensures HalfRecorded(l.(episode := l.episode[attr.steps := board]), moves, attr, board)
  {
    hide CheckWin, WinValue;
    assert EntryOk(l.episode[attr.steps], l.reward[attr.steps], moves, attr.steps, attr.steps);
    assert l.episode[attr.steps := board][attr.steps := EMPTY_BOARD] == l.episode;
  }

  lemma RewardCompletes(l: Learn, moves: Moves, attr: Attr, board: Board)
    requires HalfRecorded(l, moves, attr, board) && board == Replay(moves, attr.steps + 1)
    ensures LearnOk(l.(reward := l.reward[attr.steps := WinValue(CheckWin(board), Mover(attr.steps))]), moves,
                    attr.steps + 1)
  {
    hide CheckWin, WinValue;
    var before := l.episode[attr.steps := EMPTY_BOARD];
    EpisodeRecorded(before, l.reward, moves, attr.steps, board);
    assert before[attr.steps := board] == l.episode;
  }

  /** The stone goes on the very table the worker read before it had the lock. */
  lemma AiPutTableKeepsInv(s: State, p: Player, c: Choice)
    requires Inv(s) && Ai(s, p).AiPutTable?
    ensures Inv(AiNext(s, p, c))
  {
    hide LockInv, TokenInv, FinishInv, SoftInv, FinInv, DrawInv, LogInv, ReleaseInv, RecordOk, LearnOk, FinEpisode;
    AiAlone(s, p);
    var t := AiNext(s, p, c);
    assert Place(t.core.table, Ai(s, p).m, Empty) == s.core.table;
    AiWriteFrame(s, p, t.core, t.learn, Ai(t, p));
  }

  lemma AiGetMovesKeepsInv(s: State, p: Player, c: Choice)
    requires Inv(s) && Ai(s, p).AiGetMoves?
    ensures Inv(AiNext(s, p, c))
  {
    hide LockInv, TokenInv, FinishInv, SoftInv, FinInv, DrawInv, LogInv, ReleaseInv, RecordOk, LearnOk, FinEpisode;
    AiAlone(s, p);
    var t := AiNext(s, p, c);
    AiWriteFrame(s, p, t.core, t.learn, Ai(t, p));
  }

  lemma MoveCompletes(g: Core, l: Learn, p: Player, attr: Attr, m: CellIndex)
    requires MidMove(g, p, attr, m) && LearnOk(l, g.moves, attr.steps)
    ensures attr.steps < N_GRIDS
    ensures NewRecord(g.(moves := g.moves[attr.steps := m]), p, attr)
    ensures LearnOk(l, g.moves[attr.steps := m], attr.steps) && LearnOk(l, g.moves[attr.steps := m], attr.steps + 1)
  {
    hide RecordOk, EpisodeOk, CheckWin;
    var before := Place(g.table, m, Empty);
    AppendMove(attr, before, g.moves, m);
    assert g.table == Place(before, m, p);
    EpisodeKeepsPrefix(l.episode, l.reward, g.moves, attr.steps, m);
    EpisodeOneMore(l.episode, l.reward, g.moves[attr.steps := m], attr.steps);
  }

  /** The move completes the record of the table. */
  lemma AiPutMovesKeepsInv(s: State, p: Player, c: Choice)
    requires Inv(s) && Ai(s, p).AiPutMoves?
    ensures Inv(AiNext(s, p, c))
  {
    hide LockInv, TokenInv, FinishInv, SoftInv, FinInv, DrawInv, LogInv, ReleaseInv, MidMove, NewRecord, LearnOk,
         FinEpisode;
    AiAlone(s, p);
    var t := AiNext(s, p, c);
    MidMoveAttr(s.core, p, Ai(s, p).attr, Ai(s, p).m);
    MoveCompletes(s.core, s.learn, p, Ai(s, p).attr, Ai(s, p).m);
    AiWriteFrame(s, p, t.core, t.learn, Ai(t, p));
  }

  lemma MidMoveAttr(g: Core, p: Player, attr: Attr, m: CellIndex)
    requires MidMove(g, p, attr, m)
    ensures attr == g.attr
  {
    hide RecordOk;
  }

  lemma AiGetBoardKeepsInv(s: State, p: Player, c: Choice)
    requires Inv(s) && Ai(s, p).AiGetBoard?
    ensures Inv(AiNext(s, p, c))
  {
    hide LockInv, TokenInv, FinishInv, SoftInv, FinInv, DrawInv, LogInv, ReleaseInv, RecordOk, LearnOk, FinEpisode;
    AiAlone(s, p);
    var t := AiNext(s, p, c);
    AiWriteFrame(s, p, t.core, t.learn, Ai(t, p));
  }

  /** The board enters the episode at the step just played. */
  lemma AiPutEpisodeKeepsInv(s: State, p: Player, c: Choice)
    requires Inv(s) && Ai(s, p).AiPutEpisode?
    ensures Inv(AiNext(s, p, c))
  {
    hide LockInv, TokenInv, FinishInv, SoftInv, FinInv, DrawInv, LogInv, ReleaseInv, CoreOk, NewRecord, LearnOk,
         FinEpisode, HalfRecorded, PutEpisode;
    AiAlone(s, p);
    EpisodeStep(s.core, s.learn, s.id, p, Ai(s, p).attr, Ai(s, p).board);
    var t := AiNext(s, p, c);
    AiWriteFrame(s, p, t.core, t.learn, Ai(t, p));
  }

  lemma EpisodeStep(g: Core, l: Learn, id: nat, p: Player, attr: Attr, board: Board)
    requires LearnOk(l, g.moves, g.attr.steps) && g.attr.id == id && NewRecord(g, p, attr)
    ensures HalfRecorded(PutEpisode(l, id, attr, board), g.moves, attr, board)
  {
    hide LearnOk, RecordOk, HalfRecorded;
    NewRecordBoard(g, p, attr);
    BlankBeforeStep(l, g.moves, attr, board);
  }

  /** Its reward follows. */
  lemma AiPutRewardKeepsInv(s: State, p: Player, c: Choice)
    requires Inv(s) && Ai(s, p).AiPutReward?
    ensures Inv(AiNext(s, p, c))
  {
    hide LockInv, TokenInv, FinishInv, SoftInv, FinInv, DrawInv, LogInv, ReleaseInv, CoreOk, NewRecord, LearnOk,
         FinEpisode, HalfRecorded, PutReward, CheckWin, WinValue;
    AiAlone(s, p);
    RewardStep(s.core, s.learn, s.id, p, Ai(s, p).attr, Ai(s, p).board);
    var t := AiNext(s, p, c);
    AiWriteFrame(s, p, t.core, t.learn, Ai(t, p));
  }

  lemma RewardStep(g: Core, l: Learn, id: nat, p: Player, attr: Attr, board: Board)
    requires HalfRecorded(l, g.moves, attr, board) && g.attr.id == id && NewRecord(g, p, attr) && board == g.table
    ensures LearnOk(PutReward(l, id, attr, WinValue(CheckWin(board), p)), g.moves, attr.steps + 1)
  {
    hide LearnOk, RecordOk, HalfRecorded, CheckWin, WinValue;
    NewRecordBoard(g, p, attr);
    RewardCompletes(l, g.moves, attr, board);
  }

  /** The step count makes the move official. */
  lemma AiPutAttrKeepsInv(s: State, p: Player, c: Choice)
    requires Inv(s) && Ai(s, p).AiPutAttr?
    ensures Inv(AiNext(s, p, c))
  {
    hide LockInv, TokenInv, FinishInv, SoftInv, FinInv, DrawInv, LogInv, ReleaseInv, LearnOk, FinEpisode, NewRecord,
         CoreOk, TurnOk;
    AiAlone(s, p);
    var t := AiNext(s, p, c);
    RecordOfficial(s.core, p, Ai(s, p).attr);
    AiWriteFrame(s, p, t.core, t.learn, Ai(t, p));
  }

  lemma RecordOfficial(g: Core, p: Player, attr: Attr)
    requires NewRecord(g, p, attr)
    ensures attr == g.attr && CoreOk(g.(attr := attr.(steps := attr.steps + 1))) && p == Mover(attr.steps)
  {
    hide RecordOk;
  }

  /** Passing the turn settles the game again. */
  lemma AiPutTurnKeepsInv(s: State, p: Player, c: Choice)
    requires Inv(s) && Ai(s, p) == AiPutTurn
    ensures Inv(AiNext(s, p, c))
  {
    hide LockInv, TokenInv, FinishInv, SoftInv, FinInv, DrawInv, LogInv, ReleaseInv, LearnOk, FinEpisode, RecordOk,
         Mover;
    AiAlone(s, p);
    var t := AiNext(s, p, c);
    MoverAlternates(s.core.attr.steps);
    assert t.core.turn == Mover(t.core.attr.steps);
    AiWriteFrame(s, p, t.core, t.learn, Ai(t, p));
  }

  lemma MoverAlternates(k: nat)
    ensures k > 0 ==> Mover(k) == Other(Mover(k - 1))
  {
  }

  /** READY gives the token back. */
  lemma AiPutReadyKeepsInv(s: State, p: Player, c: Choice)
    requires Inv(s) && Ai(s, p) == AiPutReady
    ensures Inv(AiNext(s, p, c))
  {
    ReadyReleasesToken(s, p, AiUnlock);
    ReadyKeepsFinish(s, p);
    AiAlone(s, p);
    hide TokenInv, FinishInv, SoftInv, DrawInv, LogInv, CoreOk, LearnOk, FinEpisode, AiInv, FinInv, ReleaseInv,
         FinHolds, DrawHolds, ReleaseHolds, FinMid;
    GameIrrelevant(s, Ready);
    AiUnlockInv(s.core.(game := Ready), p);
  }

  lemma AiUnlockInv(g: Core, p: Player)
    ensures AiInv(g, p, AiUnlock)
  {
  }

  lemma AiUnlockKeepsInv(s: State, p: Player, c: Choice)
    requires Inv(s) && Ai(s, p) == AiUnlock
    ensures Inv(AiNext(s, p, c))
  {
    UnlockKeepsToken(s, p);
    UnlockKeepsRecord(s, p);
    hide LockInv, TokenInv, FinishInv, SoftInv, AiInv, RecordInv, FinInv, DrawInv, EpisodeInv, LogInv, ReleaseInv;
  }

  lemma UnlockKeepsRecord(s: State, p: Player)
    requires Inv(s) && Ai(s, p) == AiUnlock
    ensures var t := SetAi(s.(lock := Free), p, AiIdle);
            LockInv(t.lock, t.aiO, t.aiX, t.draw, t.fin, t.release)
            && AiInv(t.core, O, t.aiO) && AiInv(t.core, X, t.aiX)
            && RecordInv(t.id, t.core, t.aiO, t.aiX, t.fin)
            && EpisodeInv(t.core, t.learn, t.lock, t.aiO, t.aiX, t.fin)
  {
    hide TokenInv, FinishInv, SoftInv, FinInv, DrawInv, LogInv, CoreOk, LearnOk, DrawHolds, FinHolds, ReleaseHolds,
         FinMid, FinEpisode, MidMove, NewRecord, ReleaseInv;
  }

  lemma UnlockKeepsToken(s: State, p: Player)
    requires Inv(s) && Ai(s, p) == AiUnlock
    ensures var t := SetAi(s.(lock := Free), p, AiIdle);
            TokenInv(t.core.game, t.core.turn, t.queue.aiO, t.queue.aiX, t.aiO, t.aiX, t.soft) && ReleaseInv(t)
  {
    hide LockInv, FinishInv, SoftInv, AiInv, RecordInv, FinInv, DrawInv, EpisodeInv, LogInv, AiHolds;
  }

  lemma AiKeepsInv(s: State, p: Player, c: Choice)
    requires Inv(s) && AiEnabled(s, p, c)
    ensures Inv(AiNext(s, p, c))
  {
    hide Inv, AiNext;
    match Ai(s, p)
    case AiIdle => AiStartKeepsInv(s, p, c);
    case AiGetAttr => AiReadKeepsInv(s, p, c);
    case AiGetTable(_) => AiReadKeepsInv(s, p, c);
    case AiCheckStop(_, _) => AiReadKeepsInv(s, p, c);
    case AiBail => AiBailKeepsInv(s, p, c);
    case AiLock(_, _) => AiLockKeepsInv(s, p, c);
    case AiThink(_, _) => AiLockKeepsInv(s, p, c);
    case AiPutTable(_, _, _) => AiPutTableKeepsInv(s, p, c);
    case AiGetMoves(_, _) => AiGetMovesKeepsInv(s, p, c);
    case AiPutMoves(_, _, _) => AiPutMovesKeepsInv(s, p, c);
    case AiGetBoard(_) => AiGetBoardKeepsInv(s, p, c);
    case AiPutEpisode(_, _) => AiPutEpisodeKeepsInv(s, p, c);
    case AiPutReward(_, _) => AiPutRewardKeepsInv(s, p, c);
    case AiPutAttr(_) => AiPutAttrKeepsInv(s, p, c);
    case AiPutTurn => AiPutTurnKeepsInv(s, p, c);
    case AiPutReady => AiPutReadyKeepsInv(s, p, c);
    case AiUnlock => AiUnlockKeepsInv(s, p, c);
  }

  /** Every enabled step of every actor keeps the invariant. */
  lemma StepKeepsInv(s: State, a: Actor, c: Choice)
    requires Inv(s) && Enabled(s, a, c)
    ensures Inv(Next(s, a, c))
  {
    hide Inv, AiNext, DrawNext, FinNext, SoftNext, ReleaseNext, AiEnabled, DrawEnabled, FinEnabled, SoftEnabled,
         ReleaseEnabled;
    match a
    case AiActor(p) => AiKeepsInv(s, p, c);
    case DrawActor => DrawKeepsInv(s, c);
    case FinActor => FinKeepsInv(s, c);
    case SoftActor(timer) => SoftKeepsInv(s, timer, c);
    case ReleaseActor => ReleaseKeepsInv(s);
  }

  /** Every state of every run satisfies the invariant. */
  lemma {:induction false} RunKeepsInv(run: seq<State>, events: seq<Event>, k: nat)
    requires IsRun(run, events) && k < |run|
    ensures Inv(run[k])
  {
    hide Inv, Next, Enabled, Init;
    if k == 0 {
      InitInv(run[0]);
    } else {
      RunKeepsInv(run, events, k - 1);
      StepKeepsInv(run[k - 1], events[k - 1].actor, events[k - 1].choice);
    }
  }
}
