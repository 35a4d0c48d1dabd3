/** The coroutine scheduler as a transition system: sixteen slots, a run queue, and where
    control is. A context switch is a step. */
module Scheduling {
  import opened Basics

  const CO_MAX: nat := 16

  datatype Slot = Free | Ready | Running | Blocked | Done

  type Slots = s: seq<Slot> | |s| == CO_MAX witness [
    Free, Free, Free, Free, Free, Free, Free, Free, Free, Free, Free, Free, Free, Free, Free, Free]

  /** Outside `co_run`; at the head of its loop; on coroutine c's stack; back from c. */
  datatype Control = Outside | Loop | On(c: nat) | Back(c: nat)

  datatype Sched = Sched(slots: Slots, queue: seq<nat>, control: Control)

  datatype Event =
    | Start(stackOk: bool)
    | Enter
    | Dispatch
    | Yield
    | Block
    | Wake(d: nat)
    | Finish
    | Settle
    | Leave

  /** As `co_sched_init` leaves it. */
  ghost predicate IsInitial(s: Sched) {
    s.queue == [] && s.control == Outside && forall c :: 0 <= c < CO_MAX ==> s.slots[c] == Free
  }

  /** First slot, from k on, that holds no coroutine; the number of slots when none. */
  function FirstFree(slots: Slots, k: nat): (i: nat)
    requires k <= CO_MAX
    ensures k <= i <= CO_MAX
    ensures i < CO_MAX ==> slots[i] == Free
    ensures forall j :: k <= j < i ==> slots[j] != Free
    decreases CO_MAX - k
  {
    if k == CO_MAX || slots[k] == Free then k else FirstFree(slots, k + 1)
  }

  /** Caller code runs outside `co_run` or on a coroutine's stack. */
  predicate InUserCode(s: Sched) {
    s.control.Outside? || s.control.On?
  }

  predicate Enabled(s: Sched, e: Event) {
    match e
    case Start(_) => InUserCode(s)
    case Enter => s.control.Outside?
    case Dispatch => s.control.Loop? && s.queue != [] && s.queue[0] < CO_MAX
    case Yield => s.control.On? && s.control.c < CO_MAX
    case Block => s.control.On? && s.control.c < CO_MAX
    case Wake(d) => InUserCode(s) && d < CO_MAX && s.slots[d] == Blocked
    case Finish => s.control.On? && s.control.c < CO_MAX
    case Settle => s.control.Back? && s.control.c < CO_MAX
    case Leave => s.control.Loop? && s.queue == []
  }

  /** The two lines that make a coroutine ready, whatever it was: state, then queue. */
  function Readied(s: Sched, d: nat): Sched
    requires d < CO_MAX
  {
    s.(slots := s.slots[d := Ready], queue := s.queue + [d])
  }

  function Do(s: Sched, e: Event): Sched
    requires Enabled(s, e)
  {
    match e
    case Start(stackOk) =>
      var i := FirstFree(s.slots, 0);
      if i == CO_MAX || !stackOk then s
      else Readied(s, i)
    case Enter => s.(control := Loop)
    case Dispatch =>
      var c := s.queue[0];
      Sched(s.slots[c := Running], s.queue[1..], On(c))
    case Yield =>
      var c := s.control.c;
      Sched(if s.slots[c] == Running then s.slots[c := Ready] else s.slots, s.queue + [c], Back(c))
    case Block =>
      var c := s.control.c;
      Sched(s.slots[c := Blocked], s.queue, Back(c))
    case Wake(d) => Readied(s, d)
    case Finish =>
      var c := s.control.c;
      Sched(s.slots[c := Done], s.queue, Back(c))
    case Settle =>
      var c := s.control.c;
      Sched(if s.slots[c] == Done then s.slots[c := Free] else s.slots, s.queue, Loop)
    case Leave => s.(control := Outside)
  }

  // ---- What every step keeps ----

  /** A coroutine is ready exactly when it is on the queue, and it is there once. */
  ghost predicate QueueIsReady(s: Sched) {
    Distinct(s.queue)
    && (forall c :: c in s.queue ==> c < CO_MAX)
    && forall c: nat :: c < CO_MAX ==> (s.slots[c] == Ready <==> c in s.queue)
  }

  /** Which slots may be running or done, from where control is. */
  ghost predicate ControlOk(s: Sched) {
    (forall c: nat :: c < CO_MAX && s.slots[c] == Running ==> s.control == On(c))
    && (forall c: nat :: c < CO_MAX && s.slots[c] == Done ==> s.control == Back(c))
    && (s.control.On? ==> s.control.c < CO_MAX && s.slots[s.control.c] == Running)
    && (s.control.Back? ==> s.control.c < CO_MAX && s.slots[s.control.c] in {Ready, Blocked, Done})
  }

  ghost predicate Inv(s: Sched) {
    QueueIsReady(s) && ControlOk(s)
  }

  lemma AppendDistinct(q: seq<nat>, c: nat)
    requires Distinct(q) && c !in q
    ensures Distinct(q + [c])
  {
  }

  lemma TailDistinct(q: seq<nat>)
    requires Distinct(q) && q != []
    ensures Distinct(q[1..])
    ensures forall c :: c in q[1..] <==> c in q && c != q[0]
  {
    assert q == [q[0]] + q[1..];
    forall c | c in q[1..]
      ensures c in q && c != q[0]
    {
      var i :| 0 <= i < |q[1..]| && q[1..][i] == c;
      assert q[i + 1] == c;
    }
  }

  lemma StepKeepsQueue(s: Sched, e: Event)
    requires Inv(s) && Enabled(s, e)
    ensures QueueIsReady(Do(s, e))
  {
    match e
    case Start(_) =>
    case Wake(d) => AppendDistinct(s.queue, d);
    case Dispatch =>
      TailDistinct(s.queue);
    case _ =>
  }

  lemma StepKeepsControl(s: Sched, e: Event)
    requires Inv(s) && Enabled(s, e)
    ensures ControlOk(Do(s, e))
  {
    hide Distinct;
    if e.Dispatch? {
      assert s.queue[0] in s.queue;
    }
  }

  /** A run: a list of events, each enabled where it happens. */
  ghost predicate IsRun(s: Sched, es: seq<Event>)
    decreases |es|
  {
    es == [] || (Enabled(s, es[0]) && IsRun(Do(s, es[0]), es[1..]))
  }

  function Execute(s: Sched, es: seq<Event>): Sched
    requires IsRun(s, es)
    decreases |es|
  {
    if es == [] then s else Execute(Do(s, es[0]), es[1..])
  }

  lemma {:induction false} RunKeepsInv(s: Sched, es: seq<Event>)
    requires Inv(s) && IsRun(s, es)
    ensures Inv(Execute(s, es))
    decreases |es|
  {
    if es != [] {
      StepKeepsQueue(s, es[0]);
      StepKeepsControl(s, es[0]);
      RunKeepsInv(Do(s, es[0]), es[1..]);
    }
  }

  // ---- Over every run ----

  /** Ready means queued, exactly once, whatever happened before. */
  lemma ReadyIffQueuedOnce(init: Sched, es: seq<Event>, c: nat)
    requires IsInitial(init) && IsRun(init, es) && c < CO_MAX
    ensures var s := Execute(init, es);
            s.slots[c] == Ready <==> exists k :: 0 <= k < |s.queue| && s.queue[k] == c
    ensures var s := Execute(init, es);
            forall i, j :: 0 <= i < |s.queue| && 0 <= j < |s.queue| && s.queue[i] == c && s.queue[j] == c ==> i == j
  {
    RunKeepsInv(init, es);
  }

  /** When `co_run` returns the queue is empty and every slot is free or blocked. */
  lemma RunReturnsQuiet(init: Sched, es: seq<Event>)
    requires IsInitial(init) && IsRun(init, es) && Enabled(Execute(init, es), Leave)
    ensures var s := Do(Execute(init, es), Leave);
            s.queue == [] && forall c: nat :: c < CO_MAX ==> s.slots[c] == Free || s.slots[c] == Blocked
  {
    RunKeepsInv(init, es);
    var s := Execute(init, es);
    forall c: nat | c < CO_MAX
      ensures s.slots[c] == Free || s.slots[c] == Blocked
    {
      assert c !in s.queue;
      assert s.control == Loop;
    }
  }

  function Dispatches(es: seq<Event>): nat {
    if es == [] then 0 else (if es[0].Dispatch? then 1 else 0) + Dispatches(es[1..])
  }

  lemma StepMovesUp(s: Sched, e: Event, k: nat)
    requires Enabled(s, e) && k < |s.queue| && (e.Dispatch? ==> k > 0)
    ensures var d := if e.Dispatch? then 1 else 0;
            k - d < |Do(s, e).queue| && Do(s, e).queue[k - d] == s.queue[k]
  {
  }

  /** Until its turn comes, a coroutine moves up one place at every resumption of another,
      and at nothing else. */
  lemma {:induction false} MovesUp(s: Sched, es: seq<Event>, k: nat)
    requires IsRun(s, es) && k < |s.queue| && Dispatches(es) <= k
    ensures k - Dispatches(es) < |Execute(s, es).queue|
    ensures Execute(s, es).queue[k - Dispatches(es)] == s.queue[k]
    decreases |es|
  {
    hide Do, Enabled;
    if es != [] {
      StepMovesUp(s, es[0], k);
      MovesUp(Do(s, es[0]), es[1..], if es[0].Dispatch? then k - 1 else k);
    }
  }

  /** First come, first served: a coroutine at position k is resumed by the dispatch that
      follows exactly k others, and by none of those k. */
  lemma ResumedAfterExactly(s: Sched, es: seq<Event>, k: nat)
    requires Inv(s) && IsRun(s, es) && k < |s.queue| && Dispatches(es) <= k
    requires Enabled(Execute(s, es), Dispatch)
    ensures Do(Execute(s, es), Dispatch).control == On(s.queue[k]) <==> Dispatches(es) == k
  {
    RunKeepsInv(s, es);
    MovesUp(s, es, k);
  }

  // ---- What becomes of a coroutine ----

  /** An event that puts c at the end of the queue: its own yield, its wake-up, or its start. */
  predicate Queues(s: Sched, e: Event, c: nat) {
    (e.Yield? && s.control == On(c))
    || (e.Wake? && e.d == c)
    || (e.Start? && e.stackOk && FirstFree(s.slots, 0) == c && c < CO_MAX)
  }

  lemma QueuedLast(s: Sched, e: Event, c: nat)
    requires Inv(s) && Enabled(s, e) && Queues(s, e, c)
    ensures Inv(Do(s, e)) && Do(s, e).queue == s.queue + [c]
  {
    StepKeepsQueue(s, e);
    StepKeepsControl(s, e);
    hide QueueIsReady, ControlOk, FirstFree;
  }

  /** Whoever yields, is woken or is started runs again after exactly those who were queued
      before: of the runs with no more resumptions than that, the next one is its own just when
      there were that many. */
  lemma QueuedThenResumed(s: Sched, e: Event, c: nat, es: seq<Event>)
    requires Inv(s) && Enabled(s, e) && Queues(s, e, c)
    requires IsRun(Do(s, e), es) && Dispatches(es) <= |s.queue| && Enabled(Execute(Do(s, e), es), Dispatch)
    ensures Do(Execute(Do(s, e), es), Dispatch).control == On(c) <==> Dispatches(es) == |s.queue|
  {
    hide Inv, Queues, Do, Enabled;
    QueuedLast(s, e, c);
    ResumedAfterExactly(Do(s, e), es, |s.queue|);
  }

  /** No event of the run wakes c. */
  predicate LeavesAsleep(es: seq<Event>, c: nat) {
    forall i :: 0 <= i < |es| ==> es[i] != Wake(c)
  }

  lemma AsleepStep(s: Sched, e: Event, c: nat)
    requires Inv(s) && Enabled(s, e) && c < CO_MAX && s.slots[c] == Blocked && e != Wake(c)
    ensures Do(s, e).slots[c] == Blocked && Do(s, e).control != On(c)
  {
    if e.Dispatch? {
      assert s.queue[0] in s.queue;
    }
  }

  lemma {:induction false} AsleepRun(s: Sched, es: seq<Event>, c: nat)
    requires Inv(s) && IsRun(s, es) && c < CO_MAX && s.slots[c] == Blocked && s.control != On(c) && LeavesAsleep(es, c)
    ensures Execute(s, es).slots[c] == Blocked && Execute(s, es).control != On(c)
    decreases |es|
  {
    hide Inv, Do, Enabled;
    if es != [] {
      assert es[0] != Wake(c);
      AsleepStep(s, es[0], c);
      StepKeepsInv(s, es[0]);
      assert forall i :: 0 <= i < |es[1..]| ==> es[1..][i] == es[i + 1];
      AsleepRun(Do(s, es[0]), es[1..], c);
    }
  }

  lemma StepKeepsInv(s: Sched, e: Event)
    requires Inv(s) && Enabled(s, e)
    ensures Inv(Do(s, e))
  {
    StepKeepsQueue(s, e);
    StepKeepsControl(s, e);
  }

  /** Whoever suspends stays blocked, off the processor, until somebody wakes it. */
  lemma BlockedUntilWoken(s: Sched, c: nat, es: seq<Event>)
    requires Inv(s) && s.control == On(c) && Enabled(s, Block) && IsRun(Do(s, Block), es) && LeavesAsleep(es, c)
    ensures Execute(Do(s, Block), es).slots[c] == Blocked && Execute(Do(s, Block), es).control != On(c)
  {
    StepKeepsInv(s, Block);
    assert c < CO_MAX;
    hide Inv;
    AsleepRun(Do(s, Block), es, c);
  }

  /** Whoever finishes gives its slot back, and the scheduler goes on with everybody else as they
      were. */
  lemma FinishedIsFree(s: Sched, c: nat)
    requires Inv(s) && s.control == On(c)
    ensures Enabled(s, Finish) && Enabled(Do(s, Finish), Settle)
    ensures var t := Do(Do(s, Finish), Settle);
            c < CO_MAX && t.slots[c] == Free && t.control == Loop && t.queue == s.queue
            && forall d: nat :: d < CO_MAX && d != c ==> t.slots[d] == s.slots[d]
  {
    hide QueueIsReady;
  }

  /** `co_run` can return only through an empty queue, so nobody ready is left behind; and while
      anybody is ready at the loop head, somebody is dispatched. */
  lemma LoopAlwaysMoves(s: Sched)
    requires Inv(s) && s.control.Loop?
    ensures Enabled(s, Dispatch) <==> exists c: nat :: c < CO_MAX && s.slots[c] == Ready
    ensures Enabled(s, Leave) <==> !Enabled(s, Dispatch)
  {
    if s.queue != [] {
      assert s.queue[0] in s.queue;
    }
  }
}
