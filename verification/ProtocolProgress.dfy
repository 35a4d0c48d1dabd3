/** The work on a game always ends: how many steps are left at most, that somebody can always
    take one, and what the last close of the device therefore leaves behind. */
module ProtocolProgress {
  import opened Game
  import opened Protocol
  import opened ProtocolInvariant
  import opened ProtocolSafety

  // ---- Steps left ----

  function AiSteps(pc: AiPc): nat {
    match pc
    case AiIdle => 0
    case AiGetAttr => 15
    case AiGetTable(_) => 14
    case AiCheckStop(_, _) => 13
    case AiBail => 1
    case AiLock(_, _) => 12
    case AiThink(_, _) => 11
    case AiPutTable(_, _, _) => 10
    case AiGetMoves(_, _) => 9
    case AiPutMoves(_, _, _) => 8
    case AiGetBoard(_) => 7
    case AiPutEpisode(_, _) => 6
    case AiPutReward(_, _) => 5
    case AiPutAttr(_) => 4
    case AiPutTurn => 3
    case AiPutReady => 2
    case AiUnlock => 1
  }

  function DrawSteps(pc: DrawPc): nat {
    match pc
    case DrawIdle => 0
    case DrawCheck => 7
    case DrawLock => 6
    case DrawGetState => 5
    case DrawGetAttr => 4
    case DrawGetTable(_) => 3
    case DrawGetMoves(_, _) => 2
    case DrawUnlock => 1
  }

  function FinSteps(pc: FinPc): nat {
    match pc
    case FinIdle => 0
    case FinGetWin => 16
    case FinGetFlags(_) => 15
    case FinLock(_, _, _) => 14
    case FinShow(_, _, _) => 13
    case FinShowTable(_, _, _) => 12
    case FinShowMoves(_, _, _, _) => 11
    case FinDecide(_, _) => 10
    case FinPutAttr(_, _) => 9
    case FinPutTable(_, _, _) => 8
    case FinPutMoves(_, _, _) => 7
    case FinPutTurn(_, _, _) => 6
    case FinPutReady(_, _, _) => 5
    case FinLearn(_, _, _) => 4
    case FinClearEpisode => 3
    case FinClearReward => 2
    case FinUnlock => 1
  }

  /** The steps of the timer handler and the tasklet, and of the work they queue. */
  function SoftSteps(pc: SoftPc): nat {
    match pc
    case SoftIdle => 0
    case TaskQueueDraw => 9
    case TaskQueueAi(_) => 26
    case TaskDispatch(_, _) => 27
    case TaskGetTurn(_) => 28
    case TaskGetState => 29
    case TimerEnd(_) => 31
    case TimerQueue => 49
    case TimerPutWin(_) => 50
    case TimerPutDone(_) => 51
    case TimerGetTable => 52
    case TimerGetState => 53
  }

  function ReleaseSteps(pc: ReleasePc): nat {
    match pc
    case NotReleasing => 0
    case Draining => 5
    case RelLock => 4
    case RelGetState => 3
    case RelPutReady => 2
    case RelUnlock => 1
  }

  function QueueSteps(q: Queue): nat {
    (if q.aiO then 16 else 0) + (if q.aiX then 16 else 0) + (if q.draw then 8 else 0) + (if q.finish then 17 else 0)
  }

  /** A bound on the steps left before everything now going on has ended. */
  function StepsLeft(s: State): (n: nat)
    ensures n <= 198
  {
    AiSteps(s.aiO) + AiSteps(s.aiX) + DrawSteps(s.draw) + FinSteps(s.fin) + SoftSteps(s.soft)
    + ReleaseSteps(s.release) + QueueSteps(s.queue) + (if s.task.pending then 30 else 0)
  }

  /** What starts something new: the timer fires, the device is opened or closed. */
  predicate Starts(s: State, a: Actor) {
    (a == SoftActor(true) && s.soft == SoftIdle) || (a == ReleaseActor && s.release == NotReleasing)
  }

  /** Everybody but p's worker and its entry in the queue. */
  ghost predicate OthersStay(s: State, t: State, p: Player) {
    Ai(t, Other(p)) == Ai(s, Other(p)) && Queued(t, Other(p)) == Queued(s, Other(p)) && t.queue.draw == s.queue.draw
    && t.queue.finish == s.queue.finish && t.draw == s.draw && t.fin == s.fin && t.soft == s.soft
    && t.release == s.release && t.task == s.task
  }

  lemma AiFrame(s: State, p: Player, c: Choice)
    requires Ai(s, p) != AiIdle && !AiHolds(Ai(s, p))
    ensures OthersStay(s, AiNext(s, p, c), p) && Queued(AiNext(s, p, c), p) == Queued(s, p)
  {
    hide CheckWin, WinValue, AgentOf, PutEpisode, PutReward, Place;
  }

  lemma AiHoldingFrame(s: State, p: Player, c: Choice)
    requires AiHolds(Ai(s, p)) && !AiMid(Ai(s, p))
    ensures OthersStay(s, AiNext(s, p, c), p) && Queued(AiNext(s, p, c), p) == Queued(s, p)
  {
    hide CheckWin, WinValue, AgentOf, PutEpisode, PutReward, Place;
  }

  lemma AiMidFrame(s: State, p: Player, c: Choice)
    requires AiMid(Ai(s, p))
    ensures OthersStay(s, AiNext(s, p, c), p) && Queued(AiNext(s, p, c), p) == Queued(s, p)
  {
    hide CheckWin, WinValue, AgentOf, PutEpisode, PutReward, Place;
  }

  lemma AiFalls(s: State, p: Player, c: Choice)
    requires Ai(s, p) != AiIdle && !AiHolds(Ai(s, p))
    ensures AiSteps(Ai(AiNext(s, p, c), p)) < AiSteps(Ai(s, p))
  {
    hide CheckWin, WinValue, AgentOf, PutEpisode, PutReward, Place;
  }

  lemma AiHoldingFalls(s: State, p: Player, c: Choice)
    requires AiHolds(Ai(s, p)) && !AiMid(Ai(s, p))
    ensures AiSteps(Ai(AiNext(s, p, c), p)) < AiSteps(Ai(s, p))
  {
    hide CheckWin, WinValue, AgentOf, PutEpisode, PutReward, Place;
  }

  lemma AiMidFalls(s: State, p: Player, c: Choice)
    requires AiMid(Ai(s, p))
    ensures AiSteps(Ai(AiNext(s, p, c), p)) < AiSteps(Ai(s, p))
  {
    hide CheckWin, WinValue, AgentOf, PutEpisode, PutReward, Place;
  }

  lemma AiStarted(s: State, p: Player, c: Choice)
    requires Ai(s, p) == AiIdle
    ensures OthersStay(s, AiNext(s, p, c), p) && !Queued(AiNext(s, p, c), p)
    ensures Ai(AiNext(s, p, c), p) == AiGetAttr
  {
    hide CheckWin, WinValue, AgentOf, PutEpisode, PutReward, Place;
  }

  lemma AiCounts(s: State, t: State, p: Player)
    requires OthersStay(s, t, p)
    requires AiSteps(Ai(t, p)) + (if Queued(t, p) then 16 else 0) < AiSteps(Ai(s, p)) + (if Queued(s, p) then 16 else 0)
    ensures StepsLeft(t) < StepsLeft(s)
  {
    hide AiSteps, DrawSteps, FinSteps, SoftSteps, ReleaseSteps;
  }

  lemma AiStepCounts(s: State, p: Player, c: Choice)
    requires AiEnabled(s, p, c)
    ensures StepsLeft(AiNext(s, p, c)) < StepsLeft(s)
  {
    hide AiHolds, AiMid, AiNext, OthersStay, StepsLeft;
    if Ai(s, p) == AiIdle {
      AiStarted(s, p, c);
    } else if AiMid(Ai(s, p)) {
      AiMidFrame(s, p, c);
      AiMidFalls(s, p, c);
    } else if AiHolds(Ai(s, p)) {
      AiHoldingFrame(s, p, c);
      AiHoldingFalls(s, p, c);
    } else {
      AiFrame(s, p, c);
      AiFalls(s, p, c);
    }
    AiCounts(s, AiNext(s, p, c), p);
  }

  lemma DrawStepCounts(s: State, c: Choice)
    requires DrawEnabled(s)
    ensures StepsLeft(DrawNext(s, c)) < StepsLeft(s)
  {
  }

  lemma FinFrame(s: State, c: Choice)
    ensures var t := FinNext(s, c);
            t.aiO == s.aiO && t.aiX == s.aiX && t.draw == s.draw && t.soft == s.soft && t.release == s.release
            && t.task == s.task && t.queue == if s.fin == FinIdle then s.queue.(finish := false) else s.queue
  {
    hide EMPTY_BOARD, Learns;
  }

  lemma FinFalls(s: State, c: Choice)
    ensures if s.fin == FinIdle then FinNext(s, c).fin == FinGetWin else FinSteps(FinNext(s, c).fin) < FinSteps(s.fin)
  {
    hide EMPTY_BOARD, Learns;
  }

  lemma FinStepCounts(s: State, c: Choice)
    requires FinEnabled(s)
    ensures StepsLeft(FinNext(s, c)) < StepsLeft(s)
  {
    FinFrame(s, c);
    FinFalls(s, c);
    hide FinNext, AiSteps, DrawSteps, SoftSteps, ReleaseSteps;
  }

  /** The steps left of the soft interrupts, with all they have queued. */
  function SoftAndQueued(s: State): nat {
    SoftSteps(s.soft) + QueueSteps(s.queue) + (if s.task.pending then 30 else 0)
  }

  lemma SoftFrame(s: State, timer: bool, c: Choice)
    ensures var t := SoftNext(s, timer, c);
            t.aiO == s.aiO && t.aiX == s.aiX && t.draw == s.draw && t.fin == s.fin && t.release == s.release
  {
    hide CheckWin;
  }

  predicate InTimer(pc: SoftPc) {
    pc == TimerGetState || pc == TimerGetTable || pc.TimerPutDone? || pc.TimerPutWin? || pc == TimerQueue
    || pc.TimerEnd?
  }

  lemma TimerFalls(s: State, timer: bool, c: Choice)
    requires InTimer(s.soft)
    ensures SoftAndQueued(SoftNext(s, timer, c)) < SoftAndQueued(s)
  {
    hide CheckWin;
  }

  lemma TaskStarts(s: State, c: Choice)
    requires s.soft == SoftIdle && s.task.pending
    ensures SoftAndQueued(SoftNext(s, false, c)) < SoftAndQueued(s)
  {
  }

  lemma TaskLooks(s: State, timer: bool, c: Choice)
    requires s.soft == TaskGetState || s.soft.TaskGetTurn? || s.soft.TaskDispatch?
    ensures SoftAndQueued(SoftNext(s, timer, c)) < SoftAndQueued(s)
  {
    hide CheckWin, SetQueued, QueueSteps;
  }

  lemma TaskQueues(s: State, timer: bool, c: Choice)
    requires s.soft.TaskQueueAi? || s.soft == TaskQueueDraw
    ensures SoftAndQueued(SoftNext(s, timer, c)) < SoftAndQueued(s)
  {
  }

  lemma SoftStepCounts(s: State, timer: bool, c: Choice)
    requires SoftEnabled(s, timer) && (s.soft == SoftIdle ==> !timer)
    ensures StepsLeft(SoftNext(s, timer, c)) < StepsLeft(s)
  {
    SoftFrame(s, timer, c);
    if InTimer(s.soft) {
      TimerFalls(s, timer, c);
    } else if s.soft == SoftIdle {
      TaskStarts(s, c);
    } else if s.soft.TaskQueueAi? || s.soft == TaskQueueDraw {
      TaskQueues(s, timer, c);
    } else {
      TaskLooks(s, timer, c);
    }
    hide SoftNext, AiSteps, DrawSteps, FinSteps, SoftSteps, ReleaseSteps, QueueSteps;
  }

  lemma ReleaseStepCounts(s: State)
    requires ReleaseEnabled(s) && s.release != NotReleasing
    ensures StepsLeft(ReleaseNext(s)) < StepsLeft(s)
  {
  }

  /** Every step that starts nothing new uses one up. */
  lemma StepCounts(s: State, a: Actor, c: Choice)
    requires Enabled(s, a, c) && !Starts(s, a)
    ensures StepsLeft(Next(s, a, c)) < StepsLeft(s)
  {
    hide AiNext, DrawNext, FinNext, SoftNext, ReleaseNext, AiEnabled, DrawEnabled, FinEnabled, SoftEnabled,
         ReleaseEnabled, StepsLeft;
    match a
    case AiActor(p) => AiStepCounts(s, p, c);
    case DrawActor => DrawStepCounts(s, c);
    case FinActor => FinStepCounts(s, c);
    case SoftActor(timer) => SoftStepCounts(s, timer, c);
    case ReleaseActor => ReleaseStepCounts(s);
  }

  /** However the steps interleave: between one start and the next there are no more than were
      left, 198 at most. */
  lemma {:induction false} WorkEnds(run: seq<State>, events: seq<Event>, k: nat, m: nat)
    requires IsRun(run, events) && k <= m < |run|
    requires forall i :: k <= i < m ==> !Starts(run[i], events[i].actor)
    ensures m - k + StepsLeft(run[m]) <= StepsLeft(run[k]) <= 198
    decreases m
  {
    hide Enabled, Next, StepsLeft, Starts, Init;
    if k < m {
      WorkEnds(run, events, k, m - 1);
      StepCounts(run[m - 1], events[m - 1].actor, events[m - 1].choice);
    }
  }

  // ---- Somebody can always go on ----

  /** Nothing is queued, pending or going on. */
  ghost predicate AtRest(s: State) {
    s.soft == SoftIdle && !s.task.pending && s.queue == Queue(false, false, false, false)
    && s.aiO == AiIdle && s.aiX == AiIdle && s.draw == DrawIdle && s.fin == FinIdle && s.release == NotReleasing
  }

  ghost predicate CanGoOn(s: State, a: Actor, c: Choice) {
    Enabled(s, a, c) && !Starts(s, a)
  }

  const NO_MOVE: Choice := Choice(false, -1, false, true, 0)

  /** Who can: the holder of the lock, and if nobody holds it anybody who is not idle. */
  ghost function NextActor(s: State): Actor {
    match s.lock
    case AiOwns(p) => AiActor(p)
    case DrawOwns => DrawActor
    case FinishOwns => FinActor
    case ReleaseOwns => ReleaseActor
    case Free =>
      if s.soft != SoftIdle || s.task.pending then SoftActor(false)
      else if s.aiO != AiIdle || s.queue.aiO then AiActor(O)
      else if s.aiX != AiIdle || s.queue.aiX then AiActor(X)
      else if s.draw != DrawIdle || s.queue.draw then DrawActor
      else if s.fin != FinIdle || s.queue.finish then FinActor
      else ReleaseActor
  }

  /** No deadlock: until all is at rest somebody can take a step that starts nothing new. */
  lemma NeverStuck(run: seq<State>, events: seq<Event>, k: nat)
    requires IsRun(run, events) && k < |run| && !AtRest(run[k])
    ensures CanGoOn(run[k], NextActor(run[k]), NO_MOVE)
  {
    RunKeepsInv(run, events, k);
    hide IsRun;
    NextActorCan(run[k]);
  }

  lemma NextActorCan(s: State)
    requires Inv(s) && !AtRest(s)
    ensures CanGoOn(s, NextActor(s), NO_MOVE)
  {
    hide TokenInv, FinishInv, SoftInv, AiInv, RecordInv, FinInv, DrawInv, EpisodeInv, LogInv;
  }

  /** At rest nobody owns the game or its lock: it is READY or DONE. */
  lemma AtRestIdle(run: seq<State>, events: seq<Event>, k: nat)
    requires IsRun(run, events) && k < |run| && AtRest(run[k])
    ensures run[k].lock == Free && run[k].core.game != Busy
  {
    RunKeepsInv(run, events, k);
    hide IsRun, SoftInv, AiInv, RecordInv, FinInv, DrawInv, EpisodeInv, LogInv;
  }

  // ---- The last close ----

  /** Once everything is drained only the close itself can move. */
  lemma OnlyReleaseMoves(s: State, a: Actor, c: Choice)
    requires Drained(s) && Enabled(s, a, c)
    ensures a == ReleaseActor
  {
  }

  lemma CloseStepLeavesReady(s: State, a: Actor, c: Choice)
    requires Inv(s) && Enabled(s, a, c) && (s.release == RelUnlock ==> s.core.game == Ready)
    ensures Next(s, a, c).release == RelUnlock ==> Next(s, a, c).core.game == Ready
  {
    hide SoftInv, AiInv, RecordInv, FinInv, DrawInv, EpisodeInv, LogInv, AiNext, DrawNext, FinNext, SoftNext;
    if s.release == RelUnlock || s.release == RelGetState || s.release == RelPutReady {
      OnlyReleaseMoves(s, a, c);
    } else {
      OthersLeaveRelease(s, a, c);
    }
  }

  lemma OthersLeaveRelease(s: State, a: Actor, c: Choice)
    ensures a != ReleaseActor ==> Next(s, a, c).release == s.release && Next(s, a, c).timerOn == s.timerOn
  {
    hide CheckWin, WinValue, AgentOf, EMPTY_BOARD, PutEpisode, PutReward;
  }

  /** The last close leaves a READY game behind: finished ones have been given free again. */
  lemma {:induction false} CloseLeavesReady(run: seq<State>, events: seq<Event>, k: nat)
    requires IsRun(run, events) && k < |run| && run[k].release == RelUnlock
    ensures run[k].core.game == Ready && Drained(run[k])
  {
    ClosedReady(run, events, k);
    RunKeepsInv(run, events, k);
    hide IsRun, LockInv, TokenInv, FinishInv, SoftInv, AiInv, RecordInv, FinInv, DrawInv, EpisodeInv, LogInv, Drained;
  }

  lemma {:induction false} ClosedReady(run: seq<State>, events: seq<Event>, k: nat)
    requires IsRun(run, events) && k < |run|
    ensures run[k].release == RelUnlock ==> run[k].core.game == Ready
  {
    hide Inv, Next, Enabled;
    if k > 0 {
      ClosedReady(run, events, k - 1);
      RunKeepsInv(run, events, k - 1);
      StepKeepsClosed(run, events, k);
    }
  }

  lemma StepKeepsClosed(run: seq<State>, events: seq<Event>, k: nat)
    requires IsRun(run, events) && 0 < k < |run| && Inv(run[k - 1])
    requires run[k - 1].release == RelUnlock ==> run[k - 1].core.game == Ready
    ensures run[k].release == RelUnlock ==> run[k].core.game == Ready
  {
    hide Inv, Next, Enabled, Init;
    CloseStepLeavesReady(run[k - 1], events[k - 1].actor, events[k - 1].choice);
  }

  /** While the close goes on the timer cannot fire, so nothing new starts. */
  lemma NothingStarts(run: seq<State>, events: seq<Event>, k: nat)
    requires IsRun(run, events) && k < |events| && run[k].release != NotReleasing
    ensures !Starts(run[k], events[k].actor)
  {
    RunKeepsInv(run, events, k);
    hide LockInv, TokenInv, FinishInv, SoftInv, AiInv, RecordInv, FinInv, DrawInv, EpisodeInv, LogInv, AiEnabled,
         DrawEnabled, FinEnabled, Next, Init;
  }

  /** So the last close is over after at most 198 steps of all the actors together. */
  lemma CloseEnds(run: seq<State>, events: seq<Event>, k: nat, m: nat)
    requires IsRun(run, events) && k <= m < |run|
    requires forall i :: k <= i < m ==> run[i].release != NotReleasing
    ensures m - k <= 198
  {
    RunLengths(run, events);
    hide IsRun, Starts, StepsLeft;
    forall i | k <= i < m
      ensures !Starts(run[i], events[i].actor)
    {
      NothingStarts(run, events, i);
    }
    WorkEnds(run, events, k, m);
  }

  lemma RunLengths(run: seq<State>, events: seq<Event>)
    requires IsRun(run, events)
    ensures |run| == |events| + 1
  {
  }
}
