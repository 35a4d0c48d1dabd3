/** What exactly is in the episode of a game at each point, and in every episode handed to the
    learner: the moves of the sides that learn, all of them, and nothing else. */
module ProtocolEpisodes {
  import opened Basics
  import opened Game
  import opened Record
  import opened Protocol
  import opened ProtocolInvariant

  /** What entry j of the episode should hold after so many steps of the record: the board after
      move j when the side that made it learns, nothing otherwise. */
  function BoardDue(r: Moves, alg: nat, steps: nat, j: nat): Board
    requires j < N_GRIDS
  {
    if j < steps && AgentOf(alg, Mover(j)) == RL_AGENT then Replay(r, j + 1) else EMPTY_BOARD
  }

  /** And its reward: what that board is worth to that side. */
  function RewardDue(r: Moves, alg: nat, steps: nat, j: nat): int
    requires j < N_GRIDS
  {
    if j < steps && AgentOf(alg, Mover(j)) == RL_AGENT then WinValue(CheckWin(Replay(r, j + 1)), Mover(j)) else 0
  }

  ghost predicate EntryExact(l: Learn, r: Moves, alg: nat, steps: nat, j: nat)
    requires j < N_GRIDS
  {
    l.episode[j] == BoardDue(r, alg, steps, j) && l.reward[j] == RewardDue(r, alg, steps, j)
  }

  ghost predicate Exact(l: Learn, r: Moves, alg: nat, steps: nat) {
    forall j :: 0 <= j < N_GRIDS ==> EntryExact(l, r, alg, steps, j)
  }

  /** The board of the step just played is in, its reward is not. */
  ghost predicate HalfExact(l: Learn, r: Moves, alg: nat, steps: nat, board: Board) {
    steps < N_GRIDS && l.episode[steps] == board && l.reward[steps] == 0
    && Exact(l.(episode := l.episode[steps := EMPTY_BOARD]), r, alg, steps)
  }

  /** While p's worker holds the lock. */
  ghost predicate AiExact(g: Core, l: Learn, p: Player, pc: AiPc) {
    match pc
    case AiGetBoard(attr) => Exact(l, g.moves, g.attr.alg, g.attr.steps) && AgentOf(g.attr.alg, p) == RL_AGENT
    case AiPutEpisode(attr, _) => Exact(l, g.moves, g.attr.alg, g.attr.steps) && AgentOf(g.attr.alg, p) == RL_AGENT
    case AiPutReward(attr, board) =>
      HalfExact(l, g.moves, g.attr.alg, g.attr.steps, board) && AgentOf(g.attr.alg, p) == RL_AGENT
    case AiPutAttr(attr) => Exact(l, g.moves, g.attr.alg, g.attr.steps + 1)
    case _ => Exact(l, g.moves, g.attr.alg, g.attr.steps)
  }

  ghost predicate FinExact(g: Core, l: Learn, fin: FinPc) {
    match fin
    case FinPutTable(_, attr, was) => Exact(l, was, attr.alg, attr.steps)
    case FinPutMoves(_, attr, was) => Exact(l, was, attr.alg, attr.steps)
    case FinPutTurn(_, attr, was) => Exact(l, was, attr.alg, attr.steps)
    case FinPutReady(_, attr, was) => Exact(l, was, attr.alg, attr.steps)
    case FinLearn(_, attr, was) => Exact(l, was, attr.alg, attr.steps)
    case FinClearEpisode => true
    case FinClearReward => l.episode == NO_EPISODE
    case _ => Exact(l, g.moves, g.attr.alg, g.attr.steps)
  }

  ghost predicate Recorded(g: Core, l: Learn, lock: Owner, aiO: AiPc, aiX: AiPc, fin: FinPc) {
    match lock
    case AiOwns(p) => AiExact(g, l, p, if p == O then aiO else aiX)
    case FinishOwns => FinExact(g, l, fin)
    case _ => Exact(l, g.moves, g.attr.alg, g.attr.steps)
  }

  ghost predicate UpdateExact(u: Update) {
    u.win.Won? && AgentOf(u.alg, u.win.winner) == RL_AGENT
    && Exact(Learn(u.episode, u.reward), u.moves, u.alg, u.steps)
  }

  ghost predicate EpisodesExact(s: State) {
    Recorded(s.core, s.learn, s.lock, s.aiO, s.aiX, s.fin)
    && forall i :: 0 <= i < |s.updates| ==> UpdateExact(s.updates[i])
  }

  // ---- The writes ----

  lemma BlankExact(r: Moves, alg: nat)
    ensures Exact(Learn(NO_EPISODE, NO_REWARDS), r, alg, 0)
  {
  }

  /** Writing the next entry of the record changes the meaning of no earlier one. */
  lemma ExactKeepsPrefix(l: Learn, r: Moves, alg: nat, steps: nat, m: CellIndex)
    requires Exact(l, r, alg, steps) && steps < N_GRIDS
    ensures Exact(l, r[steps := m], alg, steps)
  {
    hide CheckWin, WinValue, AgentOf, EMPTY_BOARD;
    ReplayUpdated(r, steps, m);
    forall j {:trigger EntryExact(l, r[steps := m], alg, steps, j)} | 0 <= j < N_GRIDS
      ensures EntryExact(l, r[steps := m], alg, steps, j)
    {
      assert EntryExact(l, r, alg, steps, j);
    }
  }

  /** A side that does not learn leaves its entry blank. */
  lemma ExactSkips(l: Learn, r: Moves, alg: nat, steps: nat)
    requires Exact(l, r, alg, steps) && AgentOf(alg, Mover(steps)) != RL_AGENT
    ensures Exact(l, r, alg, steps + 1)
  {
    hide CheckWin, WinValue, AgentOf, EMPTY_BOARD;
    forall j {:trigger EntryExact(l, r, alg, steps + 1, j)} | 0 <= j < N_GRIDS
      ensures EntryExact(l, r, alg, steps + 1, j)
    {
      assert EntryExact(l, r, alg, steps, j);
    }
  }

  lemma ExactHalf(l: Learn, r: Moves, alg: nat, steps: nat, board: Board)
    requires Exact(l, r, alg, steps) && steps < N_GRIDS
    ensures HalfExact(l.(episode := l.episode[steps := board]), r, alg, steps, board)
  {
    hide CheckWin, WinValue, AgentOf, EMPTY_BOARD;
    assert EntryExact(l, r, alg, steps, steps);
    assert l.episode[steps := board][steps := EMPTY_BOARD] == l.episode;
  }

  /** A side that learns fills its entry. */
  lemma ExactFills(l: Learn, r: Moves, alg: nat, steps: nat, board: Board)
    requires HalfExact(l, r, alg, steps, board) && AgentOf(alg, Mover(steps)) == RL_AGENT
    requires board == Replay(r, steps + 1)
    ensures Exact(l.(reward := l.reward[steps := WinValue(CheckWin(board), Mover(steps))]), r, alg, steps + 1)
  {
    hide CheckWin, WinValue, AgentOf, EMPTY_BOARD;
    var before := l.(episode := l.episode[steps := EMPTY_BOARD]);
    var after := l.(reward := l.reward[steps := WinValue(CheckWin(board), Mover(steps))]);
    forall j {:trigger EntryExact(after, r, alg, steps + 1, j)} | 0 <= j < N_GRIDS
      ensures EntryExact(after, r, alg, steps + 1, j)
    {
      assert EntryExact(before, r, alg, steps, j);
    }
  }

  // ---- Every step keeps it ----

  lemma InitExact(s: State)
    requires Init(s)
    ensures EpisodesExact(s)
  {
    BlankExact(s.core.moves, s.core.attr.alg);
  }

  /** Only the attributes and the record of the core matter, and of the workers the lock's holder. */
  lemma RecordedFrame(s: State, t: State)
    requires EpisodesExact(s) && t.updates == s.updates && t.learn == s.learn && t.lock == s.lock
    requires t.core.attr == s.core.attr && t.core.moves == s.core.moves
    requires s.lock == AiOwns(O) ==> t.aiO == s.aiO
    requires s.lock == AiOwns(X) ==> t.aiX == s.aiX
    requires s.lock == FinishOwns ==> t.fin == s.fin
    ensures EpisodesExact(t)
  {
    hide Exact, HalfExact, UpdateExact;
  }

  lemma SoftKeepsExact(s: State, timer: bool, c: Choice)
    requires EpisodesExact(s)
    ensures EpisodesExact(SoftNext(s, timer, c))
  {
    hide EpisodesExact, CheckWin;
    RecordedFrame(s, SoftNext(s, timer, c));
  }

  lemma DrawKeepsExact(s: State, c: Choice)
    requires Inv(s) && DrawEnabled(s) && EpisodesExact(s)
    ensures EpisodesExact(DrawNext(s, c))
  {
    hide Exact, HalfExact, UpdateExact, AiExact, FinExact, TokenInv, FinishInv, SoftInv, AiInv, RecordInv, FinInv,
         DrawInv, EpisodeInv, LogInv, ReleaseInv;
  }

  lemma ReleaseKeepsExact(s: State)
    requires Inv(s) && ReleaseEnabled(s) && EpisodesExact(s)
    ensures EpisodesExact(ReleaseNext(s))
  {
    hide Exact, HalfExact, UpdateExact, AiExact, FinExact, TokenInv, FinishInv, SoftInv, AiInv, RecordInv, FinInv,
         DrawInv, EpisodeInv, LogInv, ReleaseInv;
  }

  // The finish worker.

  lemma FinOutsideKeepsExact(s: State, c: Choice)
    requires Inv(s) && FinEnabled(s) && EpisodesExact(s) && !FinHolds(s.fin)
    ensures EpisodesExact(FinNext(s, c))
  {
    hide Exact, HalfExact, UpdateExact, AiExact, TokenInv, FinishInv, SoftInv, AiInv, RecordInv, FinInv, DrawInv,
         EpisodeInv, LogInv, ReleaseInv;
    if !s.fin.FinLock? {
      hide FinExact;
      RecordedFrame(s, FinNext(s, c));
    }
  }

  lemma FinWritesKeepExact(s: State, c: Choice)
    requires Inv(s) && EpisodesExact(s) && FinHolds(s.fin) && !FinAfter(s.fin)
    ensures EpisodesExact(FinNext(s, c))
  {
    hide Exact, HalfExact, UpdateExact, AiExact, TokenInv, FinishInv, SoftInv, AiInv, RecordInv, DrawInv, EpisodeInv,
         LogInv, ReleaseInv, CheckWin, Discarded, Decided, EMPTY_BOARD;
  }

  lemma FinLearnKeepsExact(s: State, c: Choice)
    requires Inv(s) && EpisodesExact(s) && s.fin.FinLearn?
    ensures EpisodesExact(FinNext(s, c))
  {
    hide HalfExact, AiExact, TokenInv, FinishInv, SoftInv, AiInv, RecordInv, FinInv, DrawInv, EpisodeInv, LogInv,
         ReleaseInv, Exact, CheckWin, AgentOf;
    assert s.lock == FinishOwns;
  }

  lemma FinClearKeepsExact(s: State, c: Choice)
    requires Inv(s) && EpisodesExact(s) && (s.fin == FinClearEpisode || s.fin == FinClearReward || s.fin == FinUnlock)
    ensures EpisodesExact(FinNext(s, c))
  {
    BlankExact(s.core.moves, s.core.attr.alg);
    hide HalfExact, AiExact, TokenInv, SoftInv, AiInv, RecordInv, FinInv, DrawInv, EpisodeInv, LogInv, ReleaseInv,
         Exact, UpdateExact, CheckWin, EMPTY_BOARD;
    assert s.lock == FinishOwns;
  }

  lemma FinKeepsExact(s: State, c: Choice)
    requires Inv(s) && FinEnabled(s) && EpisodesExact(s)
    ensures EpisodesExact(FinNext(s, c))
  {
    hide Inv, EpisodesExact, FinNext, FinEnabled;
    if !FinHolds(s.fin) {
      FinOutsideKeepsExact(s, c);
    } else if !FinAfter(s.fin) {
      FinWritesKeepExact(s, c);
    } else if s.fin.FinLearn? {
      FinLearnKeepsExact(s, c);
    } else {
      FinClearKeepsExact(s, c);
    }
  }

  // The AI workers.

  lemma AiOutsideKeepsExact(s: State, p: Player, c: Choice)
    requires Inv(s) && AiEnabled(s, p, c) && EpisodesExact(s) && !AiHolds(Ai(s, p))
    ensures EpisodesExact(AiNext(s, p, c))
  {
    hide Exact, HalfExact, UpdateExact, FinExact, TokenInv, FinishInv, SoftInv, AiInv, RecordInv, FinInv, DrawInv,
         EpisodeInv, LogInv, ReleaseInv;
    if !Ai(s, p).AiLock? {
      hide AiExact;
      RecordedFrame(s, AiNext(s, p, c));
    }
  }

  /** Steps with the lock that leave record, step count and episode alone. */
  lemma AiQuietKeepsExact(s: State, p: Player, c: Choice)
    requires Inv(s) && AiEnabled(s, p, c) && EpisodesExact(s)
    requires Ai(s, p).AiThink? || Ai(s, p).AiPutTable? || Ai(s, p).AiGetMoves? || Ai(s, p).AiGetBoard?
             || Ai(s, p) == AiPutTurn || Ai(s, p) == AiPutReady || Ai(s, p) == AiUnlock
    ensures EpisodesExact(AiNext(s, p, c))
  {
    hide Exact, HalfExact, UpdateExact, FinExact, TokenInv, FinishInv, SoftInv, AiInv, RecordInv, FinInv, DrawInv,
         EpisodeInv, LogInv, ReleaseInv, CheckWin;
    assert s.lock == AiOwns(p);
  }

  lemma OwnersMove(s: State, p: Player)
    requires Inv(s) && (Ai(s, p).AiPutMoves? || Ai(s, p).AiPutEpisode? || Ai(s, p).AiPutReward? || Ai(s, p).AiPutAttr?)
    ensures s.lock == AiOwns(p) && Ai(s, p).attr == s.core.attr && s.core.attr.id == s.id
    ensures s.core.attr.steps < N_GRIDS && p == Mover(s.core.attr.steps)
    ensures Ai(s, p).AiPutMoves? ==> Ai(s, p).moves == s.core.moves
    ensures Ai(s, p).AiPutEpisode? || Ai(s, p).AiPutReward? ==>
              Ai(s, p).board == Replay(s.core.moves, s.core.attr.steps + 1)
  {
    hide EpisodeInv, LogInv, SoftInv, DrawInv, FinInv, CheckWin, RecordOk, ReleaseInv;
    AiAlone(s, p);
    var g := s.core;
    match Ai(s, p)
    case AiPutMoves(_, m, _) => AppendMove(g.attr, Place(g.table, m, Empty), g.moves, m);
    case _ => NewRecordBoard(g, p, g.attr);
  }

  /** What an owner's write must show. */
  lemma HolderKeeps(s: State, t: State, p: Player)
    requires EpisodesExact(s) && s.lock == AiOwns(p) && t.lock == AiOwns(p) && t.updates == s.updates
    ensures AiExact(s.core, s.learn, p, Ai(s, p))
    ensures AiExact(t.core, t.learn, p, Ai(t, p)) ==> EpisodesExact(t)
  {
    hide AiExact, FinExact, UpdateExact;
  }

  /** The writes that touch record, step count or episode. */
  lemma AiWrites(s: State, p: Player, c: Choice)
    requires Ai(s, p).AiPutMoves? || Ai(s, p).AiPutEpisode? || Ai(s, p).AiPutReward? || Ai(s, p).AiPutAttr?
    ensures var t, pc, g := AiNext(s, p, c), Ai(s, p), s.core;
            t.lock == s.lock && t.updates == s.updates
            && (pc.AiPutMoves? && pc.attr.steps < N_GRIDS ==>
                  t.core == g.(moves := pc.moves[pc.attr.steps := pc.m]) && t.learn == s.learn
                  && Ai(t, p) == if AgentOf(pc.attr.alg, p) == RL_AGENT then AiGetBoard(pc.attr)
                                 else AiPutAttr(pc.attr))
            && (pc.AiPutEpisode? ==>
                  t.core == g && t.learn == PutEpisode(s.learn, s.id, pc.attr, pc.board)
                  && Ai(t, p) == AiPutReward(pc.attr, pc.board))
            && (pc.AiPutReward? ==>
                  t.core == g && t.learn == PutReward(s.learn, s.id, pc.attr, WinValue(CheckWin(pc.board), p))
                  && Ai(t, p) == AiPutAttr(pc.attr))
            && (pc.AiPutAttr? ==>
                  t.core == g.(attr := pc.attr.(steps := pc.attr.steps + 1)) && t.learn == s.learn
                  && Ai(t, p) == AiPutTurn)
  {
    hide CheckWin, WinValue, AgentOf, PutEpisode, PutReward;
  }

  lemma AiPutMovesKeepsExact(s: State, p: Player, c: Choice)
    requires Inv(s) && EpisodesExact(s) && Ai(s, p).AiPutMoves?
    ensures EpisodesExact(AiNext(s, p, c))
  {
    hide Inv, EpisodesExact, AiNext, Exact, HalfExact, CheckWin, AgentOf, Mover;
    OwnersMove(s, p);
    AiWrites(s, p, c);
    HolderKeeps(s, AiNext(s, p, c), p);
    var g := s.core;
    ExactKeepsPrefix(s.learn, g.moves, g.attr.alg, g.attr.steps, Ai(s, p).m);
    if AgentOf(g.attr.alg, p) != RL_AGENT {
      ExactSkips(s.learn, g.moves[g.attr.steps := Ai(s, p).m], g.attr.alg, g.attr.steps);
    }
  }

  lemma AiPutEpisodeKeepsExact(s: State, p: Player, c: Choice)
    requires Inv(s) && EpisodesExact(s) && Ai(s, p).AiPutEpisode?
    ensures EpisodesExact(AiNext(s, p, c))
  {
    hide Inv, EpisodesExact, AiNext, Exact, HalfExact, CheckWin, AgentOf, Mover;
    OwnersMove(s, p);
    AiWrites(s, p, c);
    HolderKeeps(s, AiNext(s, p, c), p);
    ExactHalf(s.learn, s.core.moves, s.core.attr.alg, s.core.attr.steps, Ai(s, p).board);
  }

  lemma AiPutRewardKeepsExact(s: State, p: Player, c: Choice)
    requires Inv(s) && EpisodesExact(s) && Ai(s, p).AiPutReward?
    ensures EpisodesExact(AiNext(s, p, c))
  {
    hide Inv, EpisodesExact, AiNext, Exact, HalfExact, CheckWin, WinValue, AgentOf, Mover;
    OwnersMove(s, p);
    AiWrites(s, p, c);
    HolderKeeps(s, AiNext(s, p, c), p);
    ExactFills(s.learn, s.core.moves, s.core.attr.alg, s.core.attr.steps, Ai(s, p).board);
  }

  lemma AiPutAttrKeepsExact(s: State, p: Player, c: Choice)
    requires Inv(s) && EpisodesExact(s) && Ai(s, p).AiPutAttr?
    ensures EpisodesExact(AiNext(s, p, c))
  {
    hide Inv, EpisodesExact, AiNext, Exact, HalfExact, AgentOf, Mover;
    OwnersMove(s, p);
    AiWrites(s, p, c);
    HolderKeeps(s, AiNext(s, p, c), p);
  }

  lemma AiKeepsExact(s: State, p: Player, c: Choice)
    requires Inv(s) && AiEnabled(s, p, c) && EpisodesExact(s)
    ensures EpisodesExact(AiNext(s, p, c))
  {
    hide Inv, EpisodesExact, AiNext, AiEnabled;
    match Ai(s, p)
    case AiPutMoves(_, _, _) => AiPutMovesKeepsExact(s, p, c);
    case AiPutEpisode(_, _) => AiPutEpisodeKeepsExact(s, p, c);
    case AiPutReward(_, _) => AiPutRewardKeepsExact(s, p, c);
    case AiPutAttr(_) => AiPutAttrKeepsExact(s, p, c);
    case _ =>
      if AiHolds(Ai(s, p)) {
        AiQuietKeepsExact(s, p, c);
      } else {
        AiOutsideKeepsExact(s, p, c);
      }
  }

  lemma StepKeepsExact(s: State, a: Actor, c: Choice)
    requires Inv(s) && Enabled(s, a, c) && EpisodesExact(s)
    ensures EpisodesExact(Next(s, a, c))
  {
    hide Inv, EpisodesExact, AiNext, DrawNext, FinNext, SoftNext, ReleaseNext, AiEnabled, DrawEnabled, FinEnabled,
         SoftEnabled, ReleaseEnabled;
    match a
    case AiActor(p) => AiKeepsExact(s, p, c);
    case DrawActor => DrawKeepsExact(s, c);
    case FinActor => FinKeepsExact(s, c);
    case SoftActor(timer) => SoftKeepsExact(s, timer, c);
    case ReleaseActor => ReleaseKeepsExact(s);
  }

  // ---- Over every run ----

  lemma {:induction false} RunKeepsExact(run: seq<State>, events: seq<Event>, k: nat)
    requires IsRun(run, events) && k < |run|
    ensures EpisodesExact(run[k])
  {
    hide Inv, EpisodesExact, Next, Enabled, Init;
    if k == 0 {
      InitExact(run[0]);
    } else {
      RunKeepsExact(run, events, k - 1);
      RunKeepsInv(run, events, k - 1);
      StepKeepsExact(run[k - 1], events[k - 1].actor, events[k - 1].choice);
    }
  }

  lemma EntriesDue(u: Update, j: nat)
    requires UpdateExact(u) && j < N_GRIDS
    ensures u.episode[j] == BoardDue(u.moves, u.alg, u.steps, j) && u.reward[j] == RewardDue(u.moves, u.alg, u.steps, j)
  {
    hide BoardDue, RewardDue;
    assert EntryExact(Learn(u.episode, u.reward), u.moves, u.alg, u.steps, j);
  }

  /** Every episode handed to the learner holds, for each move of a side that learns, the board
      after it and what that board is worth to that side, and nothing for any other move; the
      winner is one of the sides that learn, so none of its moves is missing. */
  lemma UpdatesComplete(run: seq<State>, events: seq<Event>, k: nat, i: nat, j: nat)
    requires IsRun(run, events) && k < |run| && i < |run[k].updates| && j < N_GRIDS
    ensures var u := run[k].updates[i];
            u.win.Won? && AgentOf(u.alg, u.win.winner) == RL_AGENT
            && (j < u.steps && AgentOf(u.alg, Mover(j)) == RL_AGENT ==>
                  u.episode[j] == Replay(u.moves, j + 1)
                  && u.reward[j] == WinValue(CheckWin(Replay(u.moves, j + 1)), Mover(j)))
            && (j >= u.steps || AgentOf(u.alg, Mover(j)) != RL_AGENT ==>
                  u.episode[j] == EMPTY_BOARD && u.reward[j] == 0)
            && (j < u.steps && Mover(j) == u.win.winner ==>
                  u.episode[j] == Replay(u.moves, j + 1)
                  && u.reward[j] == WinValue(CheckWin(Replay(u.moves, j + 1)), u.win.winner))
  {
    RunKeepsExact(run, events, k);
    hide IsRun, CheckWin, WinValue, AgentOf, Mover, EMPTY_BOARD, Recorded, Exact;
    EntriesDue(run[k].updates[i], j);
  }
}
