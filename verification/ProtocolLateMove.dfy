/** Moves on a board that is already won: how one comes about, and the only way it can. */
module ProtocolLateMove {
  import opened Game
  import opened Record
  import opened Protocol
  import opened ProtocolInvariant
  import opened ProtocolSafety
  import opened ProtocolWitness

  // ---- The only way ----

  /** The timer's last look at the game, before state k, found it BUSY. */
  ghost predicate LookedBusy(run: seq<State>, events: seq<Event>, k: nat)
    requires k < |run| && |run| == |events| + 1
  {
    if k == 0 then false
    else if events[k - 1].actor.SoftActor? && run[k - 1].soft == TimerGetState then run[k - 1].core.game == Busy
    else LookedBusy(run, events, k - 1)
  }

  /** So did the look of the pass that last told the tasklet what to do. */
  ghost predicate ToldByBusyLook(run: seq<State>, events: seq<Event>, k: nat)
    requires k < |run| && |run| == |events| + 1
  {
    if k == 0 then false
    else if events[k - 1].actor.SoftActor? && run[k - 1].soft.TimerEnd? && !events[k - 1].choice.stop
    then LookedBusy(run, events, k - 1)
    else ToldByBusyLook(run, events, k - 1)
  }

  predicate InTasklet(pc: SoftPc) {
    pc == TaskGetState || pc.TaskGetTurn? || pc.TaskDispatch?
  }

  /** READY, and nobody has won or drawn. */
  predicate OpenGame(s: State) {
    s.core.game == Ready && CheckWin(s.core.table) == Ongoing
  }

  /** Unless a BUSY look is behind it, what the tasklet is told or about to be told is true. */
  ghost predicate ToldTruly(s: State, looked: bool, told: bool) {
    (s.soft == TimerEnd(true) && !looked ==> OpenGame(s))
    && (s.task.pending && s.task.bit && !told ==> OpenGame(s))
    && (InTasklet(s.soft) && !told ==> OpenGame(s))
    && (InTasklet(s.soft) || s.soft.TaskQueueAi? || s.soft == TaskQueueDraw ==> !s.task.pending)
  }

  lemma NobodyOwns(s: State)
    requires Inv(s) && s.core.game == Ready
    ensures (s.aiO == AiIdle || s.aiO == AiUnlock) && (s.aiX == AiIdle || s.aiX == AiUnlock)
    ensures !s.queue.aiO && !s.queue.aiX
    ensures (s.fin == FinIdle && !s.queue.finish) || FinAfter(s.fin)
    ensures s.release != RelPutReady
  {
    hide AiInv, RecordInv, FinInv, DrawInv, EpisodeInv, LogInv, SoftInv, LockInv;
  }

  lemma AiRests(s: State, p: Player, c: Choice)
    ensures AiNext(s, p, c).soft == s.soft && AiNext(s, p, c).task == s.task
    ensures Ai(s, p) == AiIdle || Ai(s, p) == AiUnlock ==> AiNext(s, p, c).core == s.core
  {
    hide CheckWin, WinValue, PutEpisode, PutReward;
  }

  lemma FinRests(s: State, c: Choice)
    ensures FinNext(s, c).soft == s.soft && FinNext(s, c).task == s.task
    ensures s.fin == FinIdle || FinAfter(s.fin) ==> FinNext(s, c).core == s.core
  {
  }

  lemma OthersRest(s: State, c: Choice)
    ensures DrawNext(s, c).soft == s.soft && DrawNext(s, c).task == s.task && DrawNext(s, c).core == s.core
    ensures ReleaseNext(s).soft == s.soft && ReleaseNext(s).task == s.task
    ensures s.release != RelPutReady ==> ReleaseNext(s).core == s.core
  {
  }

  /** An open game stays open until the timer or the tasklet does something to it: whoever else
      could write to it would have to own it. */
  lemma OpenStays(s: State, a: Actor, c: Choice)
    requires Inv(s) && Enabled(s, a, c) && !a.SoftActor?
    ensures Next(s, a, c).soft == s.soft && Next(s, a, c).task == s.task
    ensures OpenGame(s) ==> OpenGame(Next(s, a, c))
  {
    if OpenGame(s) {
      NobodyOwns(s);
    }
    hide CheckWin, Inv, AiNext, FinNext, DrawNext, ReleaseNext, AiEnabled, FinEnabled, DrawEnabled, ReleaseEnabled;
    match a
    case AiActor(p) => AiRests(s, p, c);
    case FinActor => FinRests(s, c);
    case _ => OthersRest(s, c);
  }

  lemma TimerTellsTruly(s: State, timer: bool, c: Choice, looked: bool, told: bool)
    requires Inv(s) && SoftEnabled(s, timer) && ToldTruly(s, looked, told)
    requires s.soft == SoftIdle || s.soft == TimerGetState || s.soft == TimerGetTable || s.soft.TimerPutDone?
             || s.soft.TimerPutWin? || s.soft == TimerQueue || s.soft.TimerEnd?
    ensures ToldTruly(SoftNext(s, timer, c),
                      if s.soft == TimerGetState then s.core.game == Busy else looked,
                      if s.soft.TimerEnd? && !c.stop then looked else told)
  {
    hide CheckWin, AiInv, RecordInv, FinInv, DrawInv, EpisodeInv, LogInv, LockInv, TokenInv, FinishInv, ReleaseInv;
  }

  lemma TaskletTellsTruly(s: State, timer: bool, c: Choice, looked: bool, told: bool)
    requires ToldTruly(s, looked, told)
    requires InTasklet(s.soft) || s.soft.TaskQueueAi? || s.soft == TaskQueueDraw
    ensures ToldTruly(SoftNext(s, timer, c), looked, told)
  {
    hide CheckWin;
  }

  lemma {:induction false} RunTellsTruly(run: seq<State>, events: seq<Event>, k: nat)
    requires IsRun(run, events) && k < |run|
    ensures ToldTruly(run[k], LookedBusy(run, events, k), ToldByBusyLook(run, events, k))
  {
    if k > 0 {
      RunTellsTruly(run, events, k - 1);
      RunKeepsInv(run, events, k - 1);
      var s, e := run[k - 1], events[k - 1];
      var looked, told := LookedBusy(run, events, k - 1), ToldByBusyLook(run, events, k - 1);
      StepTellsTruly(s, e, looked, told);
    }
  }

  lemma StepTellsTruly(s: State, e: Event, looked: bool, told: bool)
    requires Inv(s) && Enabled(s, e.actor, e.choice) && ToldTruly(s, looked, told)
    ensures ToldTruly(Next(s, e.actor, e.choice),
                      if e.actor.SoftActor? && s.soft == TimerGetState then s.core.game == Busy else looked,
                      if e.actor.SoftActor? && s.soft.TimerEnd? && !e.choice.stop then looked else told)
  {
    hide Inv, SoftNext, AiNext, DrawNext, FinNext, ReleaseNext, AiEnabled, DrawEnabled, FinEnabled, SoftEnabled,
         ReleaseEnabled, OpenGame;
    match e.actor
    case SoftActor(timer) =>
      if InTasklet(s.soft) || s.soft.TaskQueueAi? || s.soft == TaskQueueDraw {
        TaskletTellsTruly(s, timer, e.choice, looked, told);
      } else {
        TimerTellsTruly(s, timer, e.choice, looked, told);
      }
    case _ =>
      OpenStays(s, e.actor, e.choice);
  }

  /** In every interleaving, when the tasklet dispatches a side to a board that is won or full,
      the pass that told it to had found the game BUSY and not looked at the board. */
  lemma LateDispatchNeedsBusyLook(run: seq<State>, events: seq<Event>, k: nat)
    requires IsRun(run, events) && k < |run| && run[k].soft.TaskDispatch?
    requires CheckWin(run[k].core.table) != Ongoing
    ensures ToldByBusyLook(run, events, k)
  {
    RunTellsTruly(run, events, k);
  }

  // ---- A run ----

  /** The timer finds a move in progress. */
  lemma BusyLook(s: State) returns (es: seq<Event>, t: State)
    requires s.soft == SoftIdle && s.timerOn && s.core.game == Busy
    ensures Leads(s, es, t) && t == s.(task := Task(true, true))
  {
    hide CheckWin, Leads;
    LeadsNothing(s);
    es, t := [], s;
    es, t := Go(s, es, t, SoftActor(true), PLAIN);
    es, t := Go(s, es, t, SoftActor(true), PLAIN);
    es, t := Go(s, es, t, SoftActor(true), PLAIN);
  }

  /** The tasklet, told to, dispatches the side to move without looking at the board. */
  lemma BlindDispatch(s: State) returns (es: seq<Event>, t: State)
    requires s.soft == SoftIdle && s.task == Task(true, true) && s.core.game == Ready
    ensures Leads(s, es, t)
    ensures t == SetQueued(s.(core := s.core.(game := Busy), task := Task(false, true)), s.core.turn, true)
                 .(queue := SetQueued(s, s.core.turn, true).queue.(draw := true))
  {
    hide CheckWin, Leads;
    LeadsNothing(s);
    es, t := [], s;
    es, t := Go(s, es, t, SoftActor(false), PLAIN);
    es, t := Go(s, es, t, SoftActor(false), PLAIN);
    es, t := Go(s, es, t, SoftActor(false), PLAIN);
    es, t := Go(s, es, t, SoftActor(false), PLAIN);
    es, t := Go(s, es, t, SoftActor(false), PLAIN);
    es, t := Go(s, es, t, SoftActor(false), PLAIN);
  }

  /** O has won, X is to move, and a look from before the win is about to take effect. */
  ghost predicate WonAndTold(s: State) {
    s.soft == SoftIdle && s.task == Task(true, true) && s.lock == Free && s.queue == Queue(false, false, false, false)
    && s.aiX == AiIdle && s.draw == DrawIdle
    && s.core.game == Ready && s.core.turn == X && s.core.attr.steps == 5 && s.core.attr.alg == 0
    && s.core.table[6] == Empty && CheckWin(s.core.table) == Won(O)
  }

  lemma TheWin() returns (s0: State, es: seq<Event>, t: State)
    ensures Init(s0) && Leads(s0, es, t) && WonAndTold(t)
  {
    hide CheckWin, Leads, Init;
    var s;
    s0, es, s := FourMoves();
    FewStonesOngoing(s.core.table, 0, 1, 4, 5);
    var e1, t1 := HalfTurn(s, 2);
    var e2, t2 := BusyLook(t1);
    var e3, t3 := WriteAll(t2, O, 2);
    LeadsConcat(s0, es, s, e1, t1);
    LeadsConcat(s0, es + e1, t1, e2, t2);
    LeadsConcat(s0, es + e1 + e2, t2, e3, t3);
    es, t := es + e1 + e2 + e3, t3;
    FirstRowWins(t.core.table);
  }

  lemma MoveAfterWin(s: State) returns (es: seq<Event>, t: State)
    requires WonAndTold(s)
    ensures Leads(s, es, t) && t.core == Played(s.core, 6)
  {
    hide CheckWin, Leads;
    var e1, t1 := BlindDispatch(s);
    var e2, t2 := Decide(t1, X, 6);
    var e3, t3 := WriteAll(t2, X, 6);
    LeadsConcat(s, e1, t1, e2, t2);
    LeadsConcat(s, e1 + e2, t2, e3, t3);
    es, t := e1 + e2 + e3, t3;
  }

  lemma Replayed(s0: State, es: seq<Event>, t: State)
    requires Init(s0) && Leads(s0, es, t) && t.core.game == Ready
    ensures RecordOk(t.core.attr, t.core.table, t.core.moves)
  {
    hide CheckWin, Leads, Init, RecordOk, Next, Enabled;
    var run := LeadsIsRun(s0, es, t);
    ReadyConsistent(run, es, |es|);
  }

  /** The timer comes by while the winning move is being written, and the tasklet only after:
      a sixth stone goes on a board that the fifth had won. */
  lemma LateMove() returns (run: seq<State>, events: seq<Event>)
    ensures IsRun(run, events)
    ensures var g := run[|events|].core;
            g.game == Ready && g.attr.steps == 6 && RecordOk(g.attr, g.table, g.moves)
            && CheckWin(Replay(g.moves, 5)) == Won(O)
  {
    hide CheckWin, Leads, Init, Next, Enabled, RecordOk;
    var s0, es, s := TheWin();
    var fs, t := MoveAfterWin(s);
    LeadsConcat(s0, es, s, fs, t);
    events := es + fs;
    run := LeadsIsRun(s0, events, t);
    Replayed(s0, es, s);
    Replayed(s0, events, t);
    WonBefore(s.core);
  }

  lemma WonBefore(g: Core)
    requires RecordOk(g.attr, g.table, g.moves) && g.attr.steps == 5
    ensures Replay(g.moves[5 := 6], 5) == g.table
  {
    ReplayUpdated(g.moves, 5, 6);
  }
}
