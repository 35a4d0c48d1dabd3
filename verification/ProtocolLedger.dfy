/** Everything a game owes is delivered, once and in order: every finished game whose winner
    learns goes to the learner, and every picture asked for goes to user space. */
module ProtocolLedger {
  import opened Game
  import opened Record
  import opened Protocol
  import opened ProtocolInvariant
  import opened ProtocolSafety

  // ---- Agents ----

  /** Two agents drawn and packed as one number come back like this: X plays with the second,
      O with the sum of both, so with the first exactly when the second is agent 0. */
  lemma AgentsDrawn(first: nat, second: nat)
    requires first < N_AGENTS && second < N_AGENTS
    ensures AgentOf(first + 4 * second, X) == second
    ensures AgentOf(first + 4 * second, O) == (first + second) % N_AGENTS
    ensures AgentOf(first + 4 * second, O) == first <==> second == 0
  {
  }

  // ---- Games for the learner ----

  /** A game that was finished and reset: its record, its pairing and how it ended. */
  datatype Finished = Finished(moves: Moves, steps: nat, alg: nat, win: Verdict)

  /** The board as it stands has a winner, and that side plays with the learning agent. */
  predicate WinnerLearns(g: Core) {
    (CheckWin(g.table) == Won(O) && g.attr.alg % 3 == 2) || (CheckWin(g.table) == Won(X) && g.attr.alg / 4 % 3 == 2)
  }

  /** The resets begun before state k that the learner should hear of. */
  ghost function Owed(run: seq<State>, events: seq<Event>, k: nat): seq<Finished>
    requires k < |run| && |run| == |events| + 1
  {
    if k == 0 then []
    else
      Owed(run, events, k - 1)
      + if events[k - 1].actor == FinActor && run[k - 1].fin.FinPutAttr? then ResetNow(run[k - 1].core) else []
  }

  ghost function ResetNow(g: Core): seq<Finished> {
    if WinnerLearns(g) then [Finished(g.moves, g.attr.steps, g.attr.alg, CheckWin(g.table))] else []
  }

  /** What the finish worker holds between the reset and the call of the update. */
  ghost function InHand(fin: FinPc): seq<Finished> {
    match fin
    case FinPutTable(win, attr, was) => HandOver(win, attr, was)
    case FinPutMoves(win, attr, was) => HandOver(win, attr, was)
    case FinPutTurn(win, attr, was) => HandOver(win, attr, was)
    case FinPutReady(win, attr, was) => HandOver(win, attr, was)
    case FinLearn(win, attr, was) => HandOver(win, attr, was)
    case _ => []
  }

  ghost function HandOver(win: Verdict, attr: Attr, was: Moves): seq<Finished> {
    if Learns(win, attr.alg) then [Finished(was, attr.steps, attr.alg, win)] else []
  }

  ghost function Heard(updates: seq<Update>): seq<Finished> {
    if updates == [] then []
    else Heard(updates[..|updates| - 1]) + [Taught(updates[|updates| - 1])]
  }

  function Taught(u: Update): Finished {
    Finished(u.moves, u.steps, u.alg, u.win)
  }

  lemma HeardMore(updates: seq<Update>, u: Update)
    ensures Heard(updates + [u]) == Heard(updates) + [Taught(u)]
  {
    assert (updates + [u])[..|updates|] == updates;
  }

  lemma LearnsMeans(g: Core, win: Verdict)
    requires win == CheckWin(g.table)
    ensures Learns(win, g.attr.alg) <==> WinnerLearns(g)
  {
    hide CheckWin;
  }

  /** The logs, and the workers that write them, are as they were. */
  predicate LogsStay(s: State, t: State) {
    t.updates == s.updates && t.frames == s.frames && t.fin == s.fin && t.draw == s.draw
  }

  lemma AiMidLogsNothing(s: State, p: Player, c: Choice)
    requires AiMid(Ai(s, p))
    ensures LogsStay(s, AiNext(s, p, c))
  {
    hide CheckWin, WinValue, AgentOf, PutEpisode, PutReward, Place;
  }

  lemma AiRestLogsNothing(s: State, p: Player, c: Choice)
    requires !AiMid(Ai(s, p))
    ensures LogsStay(s, AiNext(s, p, c))
  {
    hide CheckWin, WinValue, AgentOf, PutEpisode, PutReward, Place;
  }

  lemma AiLogsNothing(s: State, p: Player, c: Choice)
    ensures LogsStay(s, AiNext(s, p, c))
  {
    hide AiMid, LogsStay, AiNext;
    if AiMid(Ai(s, p)) {
      AiMidLogsNothing(s, p, c);
    } else {
      AiRestLogsNothing(s, p, c);
    }
  }

  lemma SoftLogsNothing(s: State, timer: bool, c: Choice)
    ensures LogsStay(s, SoftNext(s, timer, c))
  {
    hide CheckWin;
  }

  lemma ReleaseLogsNothing(s: State)
    ensures LogsStay(s, ReleaseNext(s))
  {
  }

  lemma DrawTeachesNothing(s: State, c: Choice)
    ensures DrawNext(s, c).updates == s.updates && DrawNext(s, c).fin == s.fin
  {
  }

  lemma OthersTeachNothing(s: State, a: Actor, c: Choice)
    requires a != FinActor
    ensures Next(s, a, c).updates == s.updates && Next(s, a, c).fin == s.fin
  {
    hide AiNext, DrawNext, SoftNext, ReleaseNext, FinNext;
    match a
    case AiActor(p) => AiLogsNothing(s, p, c);
    case DrawActor => DrawTeachesNothing(s, c);
    case SoftActor(timer) => SoftLogsNothing(s, timer, c);
    case ReleaseActor => ReleaseLogsNothing(s);
  }

  /** What one step of the finish worker adds to what was heard and to what is in hand. */
  lemma FinAccounts(s: State, c: Choice)
    requires s.fin.FinPutAttr? ==> s.fin.attr == s.core.attr && s.fin.win == CheckWin(s.core.table)
    ensures Heard(FinNext(s, c).updates) + InHand(FinNext(s, c).fin)
         == Heard(s.updates) + InHand(s.fin) + if s.fin.FinPutAttr? then ResetNow(s.core) else []
  {
    hide CheckWin, Heard, EMPTY_BOARD, Learns, WinnerLearns;
    if s.fin.FinPutAttr? {
      LearnsMeans(s.core, s.fin.win);
    } else if s.fin.FinLearn? {
      var u := Update(s.learn.episode, s.learn.reward, s.fin.attr.steps, s.fin.win, s.fin.was, s.fin.attr.alg);
      HeardMore(s.updates, u);
    }
  }

  lemma ResetReadsCore(s: State)
    requires Inv(s)
    ensures s.fin.FinPutAttr? ==> s.fin.attr == s.core.attr
  {
    hide LockInv, TokenInv, FinishInv, SoftInv, AiInv, RecordInv, DrawInv, EpisodeInv, LogInv, ReleaseInv, CheckWin;
  }

  lemma StepAccounts(s: State, a: Actor, c: Choice)
    requires Inv(s) && (s.fin.FinPutAttr? ==> s.fin.win == CheckWin(s.core.table))
    ensures Heard(Next(s, a, c).updates) + InHand(Next(s, a, c).fin)
         == Heard(s.updates) + InHand(s.fin) + if a == FinActor && s.fin.FinPutAttr? then ResetNow(s.core) else []
  {
    ResetReadsCore(s);
    hide Inv, Heard, InHand, ResetNow, FinNext, AiNext, DrawNext, SoftNext, ReleaseNext, CheckWin;
    if a == FinActor {
      FinAccounts(s, c);
    } else {
      OthersTeachNothing(s, a, c);
    }
  }

  /** The learner is called for exactly the games reset whose winner plays with the learning
      agent, in order, each once: what it has heard of and what the finish worker still has in
      hand is what is owed. */
  lemma {:induction false} LearnerHearsOfEveryGame(run: seq<State>, events: seq<Event>, k: nat)
    requires IsRun(run, events) && k < |run|
    ensures Heard(run[k].updates) + InHand(run[k].fin) == Owed(run, events, k)
  {
    if k > 0 {
      LearnerHearsOfEveryGame(run, events, k - 1);
      RunKeepsInv(run, events, k - 1);
      SavedWinIsVerdict(run, events, k - 1);
      StepTaken(run, events, k);
      OwedMore(run, events, k);
      hide Owed, IsRun, Inv, Enabled, Next, Init, Heard, InHand, ResetNow, CheckWin;
      StepAccounts(run[k - 1], events[k - 1].actor, events[k - 1].choice);
    }
  }

  lemma OwedMore(run: seq<State>, events: seq<Event>, k: nat)
    requires 0 < k < |run| && |run| == |events| + 1
    ensures Owed(run, events, k)
         == Owed(run, events, k - 1)
            + if events[k - 1].actor == FinActor && run[k - 1].fin.FinPutAttr? then ResetNow(run[k - 1].core) else []
  {
    hide ResetNow;
  }

  lemma StepTaken(run: seq<State>, events: seq<Event>, k: nat)
    requires IsRun(run, events) && 0 < k < |run|
    ensures run[k] == Next(run[k - 1], events[k - 1].actor, events[k - 1].choice)
  {
    hide Next, Enabled, Init;
  }

  // ---- Pictures for user space ----

  predicate AskedToShow(s: State, e: Event) {
    e.choice.display && ((e.actor == DrawActor && s.draw == DrawCheck) || (e.actor == FinActor && s.fin.FinGetFlags?))
  }

  predicate FoundBusy(s: State, e: Event) {
    e.actor == DrawActor && s.draw == DrawGetState && s.core.game == Busy
  }

  /** Pictures asked for before state k, less those refused because the game was BUSY. */
  ghost function Asked(run: seq<State>, events: seq<Event>, k: nat): int
    requires k < |run| && |run| == |events| + 1
  {
    if k == 0 then 0
    else
      var s, e := run[k - 1], events[k - 1];
      Asked(run, events, k - 1) + (if AskedToShow(s, e) then 1 else 0) - (if FoundBusy(s, e) then 1 else 0)
  }

  /** Pictures being taken. */
  function Taking(draw: DrawPc, fin: FinPc): nat {
    (if draw == DrawIdle || draw == DrawCheck || draw == DrawUnlock then 0 else 1) + (if Showing(fin) then 1 else 0)
  }

  predicate Showing(fin: FinPc) {
    (fin.FinLock? && fin.display) || (fin.FinShow? && fin.display) || fin.FinShowTable? || fin.FinShowMoves?
  }

  lemma DrawAccounts(s: State, c: Choice)
    ensures var t, e := DrawNext(s, c), Event(DrawActor, c);
            |t.frames| + Taking(t.draw, t.fin)
            == |s.frames| + Taking(s.draw, s.fin) + (if AskedToShow(s, e) then 1 else 0)
               - (if FoundBusy(s, e) then 1 else 0)
  {
  }

  lemma FinShows(s: State, c: Choice)
    requires s.fin.FinGetFlags? || s.fin.FinLock? || s.fin.FinShow? || s.fin.FinShowTable? || s.fin.FinShowMoves?
    ensures var t := FinNext(s, c);
            t.draw == s.draw
            && |t.frames| + (if Showing(t.fin) then 1 else 0)
               == |s.frames| + (if Showing(s.fin) then 1 else 0) + if AskedToShow(s, Event(FinActor, c)) then 1 else 0
  {
  }

  lemma FinShowsNothing(s: State, c: Choice)
    requires !(s.fin.FinGetFlags? || s.fin.FinLock? || s.fin.FinShow? || s.fin.FinShowTable? || s.fin.FinShowMoves?)
    ensures var t := FinNext(s, c);
            t.draw == s.draw && t.frames == s.frames && !Showing(t.fin) && !Showing(s.fin)
            && !AskedToShow(s, Event(FinActor, c))
  {
    hide EMPTY_BOARD, Learns;
  }

  lemma OthersShowNothing(s: State, a: Actor, c: Choice)
    requires a != FinActor && a != DrawActor
    ensures Next(s, a, c).frames == s.frames && Next(s, a, c).draw == s.draw && Next(s, a, c).fin == s.fin
  {
    hide AiNext, DrawNext, SoftNext, ReleaseNext, FinNext;
    match a
    case AiActor(p) => AiLogsNothing(s, p, c);
    case SoftActor(timer) => SoftLogsNothing(s, timer, c);
    case ReleaseActor => ReleaseLogsNothing(s);
  }

  /** Every picture asked for while the display is on is delivered, once, unless the draw worker
      finds the game BUSY. */
  lemma {:induction false} EveryPictureDelivered(run: seq<State>, events: seq<Event>, k: nat)
    requires IsRun(run, events) && k < |run|
    ensures |run[k].frames| + Taking(run[k].draw, run[k].fin) == Asked(run, events, k)
  {
    if k > 0 {
      EveryPictureDelivered(run, events, k - 1);
      var s, e := run[k - 1], events[k - 1];
      hide Enabled, Init, Showing, FinNext, AiNext, DrawNext, SoftNext, ReleaseNext;
      if e.actor == FinActor {
        if s.fin.FinGetFlags? || s.fin.FinLock? || s.fin.FinShow? || s.fin.FinShowTable? || s.fin.FinShowMoves? {
          FinShows(s, e.choice);
        } else {
          FinShowsNothing(s, e.choice);
        }
      } else if e.actor == DrawActor {
        DrawAccounts(s, e.choice);
      } else {
        OthersShowNothing(s, e.actor, e.choice);
      }
    }
  }
}
