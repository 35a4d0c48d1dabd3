/** The scheduler and a channel together: the coroutine in slot w sends, the one in slot r
    receives, and anything else may happen on the scheduler in between. */
module Conversation {
  import opened Scheduling
  import opened Rings
  import C = Channels

  datatype World<T> = World(sched: Sched, link: C.Link<T>, w: nat, r: nat)

  /** A turn of the sender or of the receiver in the channel, or an event elsewhere. */
  datatype Act<T> = SendTurn(x: T) | RecvTurn | Elsewhere(e: Event)

  /** Code outside this channel leaves alone whoever is suspended in it, and a party inside
      `send` or `recv` does nothing else until that returns. */
  predicate Apart<T>(s: World<T>, e: Event) {
    (e.Wake? && e.d == s.w ==> !s.link.sender.SenderBlocked?)
    && (e.Wake? && e.d == s.r ==> !s.link.receiver.ReceiverBlocked?)
    && (e.Yield? || e.Block? || e.Finish? ==>
          (s.sched.control == On(s.w) ==> s.link.sender.SenderFree?)
          && (s.sched.control == On(s.r) ==> s.link.receiver.ReceiverFree?))
  }

  function SendEvent<T>(s: World<T>, x: T): C.Event<T> {
    if s.link.sender.SenderFree? then C.CallSend(x) else C.RetrySend
  }

  function RecvEvent<T>(s: World<T>): C.Event<T> {
    if s.link.receiver.ReceiverFree? then C.CallRecv else C.RetryRecv
  }

  ghost predicate CanDo<T>(s: World<T>, a: Act<T>) {
    match a
    case SendTurn(x) =>
      s.sched.control == On(s.w) && !s.link.sender.SenderBlocked?
      && (s.link.sender.SenderWoken? ==> x == s.link.sender.x)
    case RecvTurn => s.sched.control == On(s.r) && !s.link.receiver.ReceiverBlocked?
    case Elsewhere(e) => Enabled(s.sched, e) && Apart(s, e)
  }

  predicate Formed<T>(s: World<T>) {
    var ring := s.link.ring;
    s.w < CO_MAX && s.r < CO_MAX && |ring.buf| >= 1 && ring.head < |ring.buf| && ring.tail < |ring.buf|
  }

  /** What a turn does to the scheduler: suspend whoever takes it, or make the registered party
      ready, without looking at what state that party is in. */
  function Scheduled(sched: Sched, suspends: bool, wakes: bool, d: nat): Sched
    requires d < CO_MAX && (suspends ==> Enabled(sched, Block))
  {
    if suspends then Do(sched, Block) else if wakes then Readied(sched, d) else sched
  }

  ghost function Next<T>(s: World<T>, a: Act<T>): World<T>
    requires Formed(s) && CanDo(s, a)
  {
    match a
    case SendTurn(x) =>
      s.(link := C.Do(s.link, SendEvent(s, x)),
         sched := Scheduled(s.sched, s.link.ring.count >= |s.link.ring.buf|, s.link.recvWaiter, s.r))
    case RecvTurn =>
      s.(link := C.Do(s.link, RecvEvent(s)),
         sched := Scheduled(s.sched, s.link.ring.count == 0, s.link.sendWaiter, s.w))
    case Elsewhere(e) => s.(sched := Do(s.sched, e))
  }

  // ---- What every act keeps ----

  /** A party suspended in the channel is blocked; a party that was woken is ready, hence queued,
      or already on the processor. */
  ghost predicate Placed<T>(s: World<T>)
    requires s.w < CO_MAX && s.r < CO_MAX
  {
    (s.link.sender.SenderBlocked? ==> s.sched.slots[s.w] == Blocked)
    && (s.link.sender.SenderWoken? ==> s.sched.slots[s.w] == Ready || s.sched.control == On(s.w))
    && (s.link.receiver.ReceiverBlocked? ==> s.sched.slots[s.r] == Blocked)
    && (s.link.receiver.ReceiverWoken? ==> s.sched.slots[s.r] == Ready || s.sched.control == On(s.r))
  }

  ghost predicate WorldInv<T>(s: World<T>) {
    s.w < CO_MAX && s.r < CO_MAX && s.w != s.r && Inv(s.sched) && C.Inv(s.link) && Placed(s)
  }

  lemma InvFormed<T>(s: World<T>)
    requires WorldInv(s)
    ensures Formed(s)
  {
    C.InRing(s.link.ring);
  }

  /** The wake-up a turn makes is one the scheduler expects: the registered party is blocked. */
  lemma TurnIsEvent<T>(s: World<T>, a: Act<T>) returns (e: Event)
    requires WorldInv(s) && CanDo(s, a)
    ensures Formed(s)
    ensures Next(s, a).sched == s.sched || (Enabled(s.sched, e) && Next(s, a).sched == Do(s.sched, e))
  {
    hide C.Do, C.InOrder;
    InvFormed(s);
    match a
    case Elsewhere(f) => e := f;
    case SendTurn(_) => e := if s.link.ring.count >= |s.link.ring.buf| then Block else Wake(s.r);
    case RecvTurn => e := if s.link.ring.count == 0 then Block else Wake(s.w);
  }

  lemma TurnKeepsPlaces<T>(s: World<T>, a: Act<T>)
    requires WorldInv(s) && CanDo(s, a) && !a.Elsewhere?
    ensures Formed(s) && Placed(Next(s, a))
  {
    hide C.InOrder, QueueIsReady;
    InvFormed(s);
  }

  lemma ElsewhereKeepsPlaces<T>(s: World<T>, e: Event)
    requires WorldInv(s) && CanDo(s, Elsewhere(e))
    ensures Formed(s) && Placed(Next(s, Elsewhere(e)))
  {
    InvFormed(s);
    hide C.Inv, FirstFree;
    if e.Dispatch? {
      assert s.sched.queue[0] in s.sched.queue;
    }
  }

  lemma ActKeepsInv<T>(s: World<T>, a: Act<T>)
    requires WorldInv(s) && CanDo(s, a)
    ensures Formed(s) && WorldInv(Next(s, a))
  {
    InvFormed(s);
    if a.Elsewhere? {
      ElsewhereKeepsPlaces(s, a.e);
    } else {
      TurnKeepsPlaces(s, a);
    }
    var e := TurnIsEvent(s, a);
    if Next(s, a).sched != s.sched {
      StepKeepsQueue(s.sched, e);
      StepKeepsControl(s.sched, e);
    }
    hide Inv, Do, Placed, C.Inv;
    match a
    case SendTurn(x) => C.StepKeepsInv(s.link, SendEvent(s, x));
    case RecvTurn => C.StepKeepsInv(s.link, RecvEvent(s));
    case Elsewhere(_) =>
  }

  // ---- Over every run ----

  ghost predicate IsInitial<T>(s: World<T>) {
    s.w < CO_MAX && s.r < CO_MAX && s.w != s.r && Scheduling.IsInitial(s.sched) && C.IsInitial(s.link)
  }

  ghost predicate IsStep<T>(s: World<T>, a: Act<T>, t: World<T>) {
    CanDo(s, a) && Formed(s) && t == Next(s, a)
  }

  ghost predicate IsRun<T(!new)>(trace: seq<World<T>>, acts: seq<Act<T>>) {
    |trace| == |acts| + 1 && IsInitial(trace[0])
    && forall i :: 0 <= i < |acts| ==> IsStep(trace[i], acts[i], trace[i + 1])
  }

  lemma {:induction false} RunKeepsInv<T(!new)>(trace: seq<World<T>>, acts: seq<Act<T>>, i: nat)
    requires IsRun(trace, acts) && i < |trace|
    ensures WorldInv(trace[i])
  {
    if i > 0 {
      hide WorldInv, Next, CanDo;
      RunKeepsInv(trace, acts, i - 1);
      assert IsStep(trace[i - 1], acts[i - 1], trace[i]);
      ActKeepsInv(trace[i - 1], acts[i - 1]);
    }
  }

  /** Whoever is registered in the channel is blocked and off the queue, so waking him queues
      him once; whoever was woken is on the queue or on the processor. */
  lemma RegisteredIsBlocked<T(!new)>(trace: seq<World<T>>, acts: seq<Act<T>>, i: nat)
    requires IsRun(trace, acts) && i < |trace|
    ensures var s := trace[i];
            (s.link.recvWaiter ==> s.r < CO_MAX && s.sched.slots[s.r] == Blocked && s.r !in s.sched.queue)
            && (s.link.sendWaiter ==> s.w < CO_MAX && s.sched.slots[s.w] == Blocked && s.w !in s.sched.queue)
            && (s.link.receiver.ReceiverWoken? ==> s.r in s.sched.queue || s.sched.control == On(s.r))
            && (s.link.sender.SenderWoken? ==> s.w in s.sched.queue || s.sched.control == On(s.w))
  {
    RunKeepsInv(trace, acts, i);
    hide C.InOrder, IsRun;
  }

  /** When `co_run` is about to return nobody who was woken is left behind: a sender is still
      suspended only on a full channel that nobody is receiving from, a receiver only on an
      empty one that nobody is sending to. */
  lemma LeftSuspended<T(!new)>(trace: seq<World<T>>, acts: seq<Act<T>>, i: nat)
    requires IsRun(trace, acts) && i < |trace| && Enabled(trace[i].sched, Leave)
    ensures var s := trace[i];
            !s.link.sender.SenderWoken? && !s.link.receiver.ReceiverWoken?
            && (s.link.sender.SenderBlocked? ==>
                  s.link.receiver.ReceiverFree? && s.link.ring.count == |s.link.ring.buf|)
            && (s.link.receiver.ReceiverBlocked? ==>
                  s.link.sender.SenderFree? && s.link.ring.count == 0 && s.link.received == s.link.offered)
  {
    RunKeepsInv(trace, acts, i);
    hide IsRun;
  }
}
