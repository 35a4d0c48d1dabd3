/** One game as shared by its timer, tasklet and workers: a transition system in which
    every read and write of shared state is a step of its own.

    The timer handler and the tasklet are both soft interrupts and do not interleave with
    each other; everything else may. */
module Protocol {
  import opened Game
  import opened Record

  datatype GameState = Busy | Ready | Done

  datatype Owner = Free | AiOwns(p: Player) | DrawOwns | FinishOwns | ReleaseOwns

  const RL_AGENT: nat := 2
  const N_AGENTS: nat := 3

  /** Which agent a side plays with, as the workers decode it. */
  function AgentOf(alg: nat, p: Player): nat {
    if p == O then alg % N_AGENTS else alg / 4 % N_AGENTS
  }

  /** An AI worker: the point it has reached and the values it holds. */
  datatype AiPc =
    | AiIdle
    | AiGetAttr
    | AiGetTable(attr: Attr)
    | AiCheckStop(attr: Attr, table: Board)
    | AiBail
    | AiLock(attr: Attr, table: Board)
    | AiThink(attr: Attr, table: Board)
    | AiPutTable(attr: Attr, table: Board, m: CellIndex)
    | AiGetMoves(attr: Attr, m: CellIndex)
    | AiPutMoves(attr: Attr, m: CellIndex, moves: Moves)
    | AiGetBoard(attr: Attr)
    | AiPutEpisode(attr: Attr, board: Board)
    | AiPutReward(attr: Attr, board: Board)
    | AiPutAttr(attr: Attr)
    | AiPutTurn
    | AiPutReady
    | AiUnlock

  datatype DrawPc =
    | DrawIdle
    | DrawCheck
    | DrawLock
    | DrawGetState
    | DrawGetAttr
    | DrawGetTable(attr: Attr)
    | DrawGetMoves(attr: Attr, table: Board)
    | DrawUnlock

  /** The finish worker. From the reset on it also remembers the record it is discarding
      (`was`, a history value no step depends on). */
  datatype FinPc =
    | FinIdle
    | FinGetWin
    | FinGetFlags(win: Verdict)
    | FinLock(win: Verdict, display: bool, open: bool)
    | FinShow(win: Verdict, display: bool, open: bool)
    | FinShowTable(win: Verdict, open: bool, attr: Attr)
    | FinShowMoves(win: Verdict, open: bool, attr: Attr, table: Board)
    | FinDecide(win: Verdict, open: bool)
    | FinPutAttr(win: Verdict, attr: Attr)
    | FinPutTable(win: Verdict, attr: Attr, was: Moves)
    | FinPutMoves(win: Verdict, attr: Attr, was: Moves)
    | FinPutTurn(win: Verdict, attr: Attr, was: Moves)
    | FinPutReady(win: Verdict, attr: Attr, was: Moves)
    | FinLearn(win: Verdict, attr: Attr, was: Moves)
    | FinClearEpisode
    | FinClearReward
    | FinUnlock

  /** The timer handler and the tasklet, as far as this game is concerned. */
  datatype SoftPc =
    | SoftIdle
    | TimerGetState
    | TimerGetTable
    | TimerPutDone(win: Verdict)
    | TimerPutWin(win: Verdict)
    | TimerQueue
    | TimerEnd(unfinished: bool)
    | TaskGetState
    | TaskGetTurn(state: GameState)
    | TaskDispatch(state: GameState, turn: Player)
    | TaskQueueAi(p: Player)
    | TaskQueueDraw

  /** The last close of the device. */
  datatype ReleasePc = NotReleasing | Draining | RelLock | RelGetState | RelPutReady | RelUnlock

  datatype Frame = Frame(attr: Attr, table: Board, moves: Moves)

  /** One call of the learning update, with the record and the pairing of the game the episode
      belongs to. */
  datatype Update = Update(episode: Episode, reward: Rewards, steps: nat, win: Verdict, moves: Moves, alg: nat)

  /** What the game's mutex is meant to protect, and the dispatch state. */
  datatype Core = Core(attr: Attr, table: Board, moves: Moves, turn: Player, game: GameState)

  /** The game's rows of the learning arrays. */
  datatype Learn = Learn(episode: Episode, reward: Rewards)

  /** Work items waiting in the work queue. */
  datatype Queue = Queue(aiO: bool, aiX: bool, draw: bool, finish: bool)

  datatype Task = Task(pending: bool, bit: bool)

  datatype State = State(
    id: nat, core: Core, lock: Owner, learn: Learn, savedWin: Verdict, queue: Queue,
    aiO: AiPc, aiX: AiPc, draw: DrawPc, fin: FinPc, soft: SoftPc, release: ReleasePc,
    timerOn: bool, task: Task, frames: seq<Frame>, updates: seq<Update>)

  function Ai(s: State, p: Player): AiPc {
    if p == O then s.aiO else s.aiX
  }

  function SetAi(s: State, p: Player, pc: AiPc): State {
    if p == O then s.(aiO := pc) else s.(aiX := pc)
  }

  function Queued(s: State, p: Player): bool {
    if p == O then s.queue.aiO else s.queue.aiX
  }

  function SetQueued(s: State, p: Player, q: bool): State {
    s.(queue := if p == O then s.queue.(aiO := q) else s.queue.(aiX := q))
  }

  ghost predicate Init(s: State) {
    s.core.attr.id == s.id && s.core.attr.steps == 0 && s.core.table == EMPTY_BOARD && s.core.moves == NO_MOVES
    && s.core.turn == O && s.core.game == Ready && s.lock == Free
    && s.learn == Learn(NO_EPISODE, NO_REWARDS)
    && s.queue == Queue(false, false, false, false)
    && s.aiO == AiIdle && s.aiX == AiIdle && s.draw == DrawIdle && s.fin == FinIdle
    && s.soft == SoftIdle && s.release == NotReleasing
    && !s.timerOn && s.task == Task(false, false)
    && s.frames == [] && s.updates == []
  }

  // ---- Steps ----

  /** What the environment decides in a step: whether the module is shutting down, the
      agent's answer (-1 for no move), the display and end flags, and a random pairing. */
  datatype Choice = Choice(stop: bool, move: int, display: bool, open: bool, alg: nat)

  ghost predicate AiEnabled(s: State, p: Player, c: Choice) {
    match Ai(s, p)
    case AiIdle => Queued(s, p)
    case AiLock(_, _) => s.lock == Free
    case AiThink(_, table) => c.move == -1 || (0 <= c.move < N_GRIDS && table[c.move] == Empty)
    case _ => true
  }

  function AiNext(s: State, p: Player, c: Choice): State {
    var g := s.core;
    match Ai(s, p)
    case AiIdle => SetAi(SetQueued(s, p, false), p, AiGetAttr)
    case AiGetAttr => SetAi(s, p, AiGetTable(g.attr))
    case AiGetTable(attr) => SetAi(s, p, AiCheckStop(attr, g.table))
    case AiCheckStop(attr, table) => SetAi(s, p, if c.stop then AiBail else AiLock(attr, table))
    case AiBail => SetAi(s.(core := g.(game := Ready)), p, AiIdle)
    case AiLock(attr, table) => SetAi(s.(lock := AiOwns(p)), p, AiThink(attr, table))
    case AiThink(attr, table) =>
      SetAi(s, p, if 0 <= c.move < N_GRIDS then AiPutTable(attr, table, c.move) else AiPutReady)
    case AiPutTable(attr, table, m) => SetAi(s.(core := g.(table := Place(table, m, p))), p, AiGetMoves(attr, m))
    case AiGetMoves(attr, m) => SetAi(s, p, AiPutMoves(attr, m, g.moves))
    case AiPutMoves(attr, m, moves) =>
      SetAi(if attr.steps < N_GRIDS then s.(core := g.(moves := moves[attr.steps := m])) else s, p,
            if AgentOf(attr.alg, p) == RL_AGENT then AiGetBoard(attr) else AiPutAttr(attr))
    case AiGetBoard(attr) => SetAi(s, p, AiPutEpisode(attr, g.table))
    case AiPutEpisode(attr, board) =>
      SetAi(s.(learn := PutEpisode(s.learn, s.id, attr, board)), p, AiPutReward(attr, board))
    case AiPutReward(attr, board) =>
      SetAi(s.(learn := PutReward(s.learn, s.id, attr, WinValue(CheckWin(board), p))), p, AiPutAttr(attr))
    case AiPutAttr(attr) => SetAi(s.(core := g.(attr := attr.(steps := attr.steps + 1))), p, AiPutTurn)
    case AiPutTurn => SetAi(s.(core := g.(turn := Other(p))), p, AiPutReady)
    case AiPutReady => SetAi(s.(core := g.(game := Ready)), p, AiUnlock)
    case AiUnlock => SetAi(s.(lock := Free), p, AiIdle)
  }

  /** The learning arrays are addressed by the id in the attributes: another id would hit
      another game's row. */
  function PutEpisode(l: Learn, id: nat, attr: Attr, board: Board): Learn {
    if attr.id == id && attr.steps < N_GRIDS then l.(episode := l.episode[attr.steps := board]) else l
  }

  function PutReward(l: Learn, id: nat, attr: Attr, value: int): Learn {
    if attr.id == id && attr.steps < N_GRIDS then l.(reward := l.reward[attr.steps := value]) else l
  }

  ghost predicate DrawEnabled(s: State) {
    (s.draw == DrawIdle ==> s.queue.draw) && (s.draw == DrawLock ==> s.lock == Free)
  }

  function DrawNext(s: State, c: Choice): State {
    var g := s.core;
    match s.draw
    case DrawIdle => s.(queue := s.queue.(draw := false), draw := DrawCheck)
    case DrawCheck => s.(draw := if c.display then DrawLock else DrawIdle)
    case DrawLock => s.(lock := DrawOwns, draw := DrawGetState)
    case DrawGetState => s.(draw := if g.game == Busy then DrawUnlock else DrawGetAttr)
    case DrawGetAttr => s.(draw := DrawGetTable(g.attr))
    case DrawGetTable(attr) => s.(draw := DrawGetMoves(attr, g.table))
    case DrawGetMoves(attr, table) => s.(frames := s.frames + [Frame(attr, table, g.moves)], draw := DrawUnlock)
    case DrawUnlock => s.(lock := Free, draw := DrawIdle)
  }

  ghost predicate FinEnabled(s: State) {
    (s.fin == FinIdle ==> s.queue.finish) && (s.fin.FinLock? ==> s.lock == Free)
  }

  /** Learning happens when the winning side played with the learning agent. */
  predicate Learns(win: Verdict, alg: nat) {
    win.Won? && AgentOf(alg, win.winner) == RL_AGENT
  }

  function FinNext(s: State, c: Choice): State {
    var g := s.core;
    match s.fin
    case FinIdle => s.(queue := s.queue.(finish := false), fin := FinGetWin)
    case FinGetWin => s.(fin := FinGetFlags(s.savedWin))
    case FinGetFlags(win) => s.(fin := FinLock(win, c.display, c.open))
    case FinLock(win, display, open) => s.(lock := FinishOwns, fin := FinShow(win, display, open))
    case FinShow(win, display, open) =>
      s.(fin := if display then FinShowTable(win, open, g.attr) else FinDecide(win, open))
    case FinShowTable(win, open, attr) => s.(fin := FinShowMoves(win, open, attr, g.table))
    case FinShowMoves(win, open, attr, table) =>
      s.(frames := s.frames + [Frame(attr, table, g.moves)], fin := FinDecide(win, open))
    case FinDecide(win, open) => s.(fin := if open then FinPutAttr(win, g.attr) else FinUnlock)
    case FinPutAttr(win, attr) => s.(core := g.(attr := Attr(s.id, 0, c.alg)), fin := FinPutTable(win, attr, g.moves))
    case FinPutTable(win, attr, was) => s.(core := g.(table := EMPTY_BOARD), fin := FinPutMoves(win, attr, was))
    case FinPutMoves(win, attr, was) => s.(core := g.(moves := NO_MOVES), fin := FinPutTurn(win, attr, was))
    case FinPutTurn(win, attr, was) => s.(core := g.(turn := O), fin := FinPutReady(win, attr, was))
    case FinPutReady(win, attr, was) => s.(core := g.(game := Ready), fin := FinLearn(win, attr, was))
    case FinLearn(win, attr, was) =>
      s.(updates := if Learns(win, attr.alg)
                    then s.updates + [Update(s.learn.episode, s.learn.reward, attr.steps, win, was, attr.alg)]
                    else s.updates,
         fin := FinClearEpisode)
    case FinClearEpisode => s.(learn := s.learn.(episode := NO_EPISODE), fin := FinClearReward)
    case FinClearReward => s.(learn := s.learn.(reward := NO_REWARDS), fin := FinUnlock)
    case FinUnlock => s.(lock := Free, fin := FinIdle)
  }

  /** From idle, either the timer fires or a pending tasklet runs. */
  ghost predicate SoftEnabled(s: State, timer: bool) {
    s.soft == SoftIdle ==> if timer then s.timerOn else s.task.pending
  }

  function SoftNext(s: State, timer: bool, c: Choice): State {
    var g := s.core;
    match s.soft
    case SoftIdle =>
      if timer then s.(soft := TimerGetState)
      else s.(task := s.task.(pending := false), soft := if s.task.bit then TaskGetState else SoftIdle)
    case TimerGetState =>
      s.(soft := if g.game == Busy then TimerEnd(true) else if g.game == Done then TimerEnd(false) else TimerGetTable)
    case TimerGetTable =>
      s.(soft := if CheckWin(g.table) == Ongoing then TimerEnd(true) else TimerPutDone(CheckWin(g.table)))
    case TimerPutDone(win) => s.(core := g.(game := Done), soft := TimerPutWin(win))
    case TimerPutWin(win) => s.(savedWin := win, soft := TimerQueue)
    case TimerQueue => s.(queue := s.queue.(finish := true), soft := TimerEnd(false))
    case TimerEnd(unfinished) =>
      // The tasklet is left alone on shutdown, and when no game at all is unfinished.
      s.(task := if c.stop then s.task else Task(true, unfinished), soft := SoftIdle)
    case TaskGetState => s.(soft := TaskGetTurn(g.game))
    case TaskGetTurn(state) => s.(soft := TaskDispatch(state, g.turn))
    case TaskDispatch(state, turn) =>
      if state == Ready then s.(core := g.(game := Busy), soft := TaskQueueAi(turn)) else s.(soft := TaskQueueDraw)
    case TaskQueueAi(p) => SetQueued(s, p, true).(soft := TaskQueueDraw)
    case TaskQueueDraw => s.(queue := s.queue.(draw := true), soft := SoftIdle)
  }

  /** Everything that stopping the timer and the tasklet and flushing the work queue wait for. */
  ghost predicate Drained(s: State) {
    s.soft == SoftIdle && !s.task.pending && !s.timerOn && s.queue == Queue(false, false, false, false)
    && s.aiO == AiIdle && s.aiX == AiIdle && s.draw == DrawIdle && s.fin == FinIdle
  }

  ghost predicate ReleaseEnabled(s: State) {
    match s.release
    case NotReleasing => s.soft == SoftIdle
    case Draining => Drained(s)
    case RelLock => s.lock == Free
    case _ => true
  }

  /** Opening the device arms the timer; the last close stops everything, then lets finished
      games be picked up again by the next opener. */
  function ReleaseNext(s: State): State {
    var g := s.core;
    match s.release
    case NotReleasing => if s.timerOn then s.(timerOn := false, release := Draining) else s.(timerOn := true)
    case Draining => s.(release := RelLock)
    case RelLock => s.(lock := ReleaseOwns, release := RelGetState)
    case RelGetState => s.(release := if g.game == Done then RelPutReady else RelUnlock)
    case RelPutReady => s.(core := g.(game := Ready), release := RelUnlock)
    case RelUnlock => s.(lock := Free, release := NotReleasing)
  }

  datatype Actor = AiActor(p: Player) | DrawActor | FinActor | SoftActor(timer: bool) | ReleaseActor

  ghost predicate Enabled(s: State, a: Actor, c: Choice) {
    match a
    case AiActor(p) => AiEnabled(s, p, c)
    case DrawActor => DrawEnabled(s)
    case FinActor => FinEnabled(s)
    case SoftActor(timer) => SoftEnabled(s, timer)
    case ReleaseActor => ReleaseEnabled(s)
  }

  function Next(s: State, a: Actor, c: Choice): State {
    match a
    case AiActor(p) => AiNext(s, p, c)
    case DrawActor => DrawNext(s, c)
    case FinActor => FinNext(s, c)
    case SoftActor(timer) => SoftNext(s, timer, c)
    case ReleaseActor => ReleaseNext(s)
  }

  /** A run: any interleaving of enabled steps. */
  datatype Event = Event(actor: Actor, choice: Choice)

  ghost predicate IsRun(run: seq<State>, events: seq<Event>) {
    |run| == |events| + 1 && Init(run[0])
    && forall i :: 0 <= i < |events| ==>
         Enabled(run[i], events[i].actor, events[i].choice)
         && run[i + 1] == Next(run[i], events[i].actor, events[i].choice)
  }
}
