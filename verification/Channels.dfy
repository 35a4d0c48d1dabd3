/** A bounded channel between one sender and one receiver, as a transition system.
    Coroutines switch only where they suspend, so an attempt to send or to receive, from the
    test of the loop to the next suspension or the return, is one step. */
module Channels {
  import opened Rings

  // ---- Sender, receiver and channel ----

  /** The sender is outside `send`, suspended in it, or woken and about to retry. */
  datatype Sender<T> = SenderFree | SenderBlocked(x: T) | SenderWoken(x: T)

  datatype Receiver = ReceiverFree | ReceiverBlocked | ReceiverWoken

  /** The channel with its two waiter slots, the two parties, and the history: the values
      offered to `send`, those it has accepted, and those `recv` has delivered. */
  datatype Link<T> = Link(
    ring: Ring<T>,
    sendWaiter: bool,
    recvWaiter: bool,
    sender: Sender<T>,
    receiver: Receiver,
    offered: seq<T>,
    sent: seq<T>,
    received: seq<T>
  )

  datatype Event<T> = CallSend(x: T) | RetrySend | CallRecv | RetryRecv

  predicate Enabled<T>(s: Link<T>, e: Event<T>) {
    match e
    case CallSend(_) => s.sender.SenderFree?
    case RetrySend => s.sender.SenderWoken?
    case CallRecv => s.receiver.ReceiverFree?
    case RetryRecv => s.receiver.ReceiverWoken?
  }

  /** One turn of the loop of `co_chan_send` and, if it goes through, the rest. */
  function TrySend<T>(s: Link<T>, x: T): Link<T>
    requires |s.ring.buf| >= 1 && s.ring.tail < |s.ring.buf|
  {
    if s.ring.count >= |s.ring.buf| then s.(sendWaiter := true, sender := SenderBlocked(x))
    else s.(ring := Push(s.ring, x), sender := SenderFree, sent := s.sent + [x], recvWaiter := false,
            receiver := if s.recvWaiter then ReceiverWoken else s.receiver)
  }

  /** One turn of the loop of `co_chan_recv` and, if it goes through, the rest. */
  function TryRecv<T>(s: Link<T>): Link<T>
    requires |s.ring.buf| >= 1 && s.ring.head < |s.ring.buf|
  {
    if s.ring.count == 0 then s.(recvWaiter := true, receiver := ReceiverBlocked)
    else s.(ring := Pop(s.ring), receiver := ReceiverFree, received := s.received + [s.ring.buf[s.ring.head]],
            sendWaiter := false,
            sender := if s.sendWaiter && s.sender.SenderBlocked? then SenderWoken(s.sender.x) else s.sender)
  }

  function Do<T>(s: Link<T>, e: Event<T>): Link<T>
    requires Enabled(s, e) && |s.ring.buf| >= 1 && s.ring.head < |s.ring.buf| && s.ring.tail < |s.ring.buf|
  {
    match e
    case CallSend(x) => TrySend(s.(offered := s.offered + [x]), x)
    case RetrySend => TrySend(s, s.sender.x)
    case CallRecv => TryRecv(s)
    case RetryRecv => TryRecv(s)
  }

  function Pending<T>(sender: Sender<T>): seq<T> {
    if sender.SenderFree? then [] else [sender.x]
  }

  /** Nothing is lost, duplicated or reordered. */
  ghost predicate InOrder<T>(s: Link<T>) {
    RingOk(s.ring)
    && s.sent == s.received + Contents(s.ring)
    && s.offered == s.sent + Pending(s.sender)
  }

  /** A party is suspended exactly when it is registered, and then only for cause; a party
      that has been woken will get through. */
  ghost predicate WaitersOk<T>(s: Link<T>) {
    (s.recvWaiter <==> s.receiver.ReceiverBlocked?)
    && (s.sendWaiter <==> s.sender.SenderBlocked?)
    && (s.recvWaiter ==> s.ring.count == 0)
    && (s.sendWaiter ==> s.ring.count == |s.ring.buf|)
    && (s.receiver.ReceiverWoken? ==> s.ring.count > 0)
    && (s.sender.SenderWoken? ==> s.ring.count < |s.ring.buf|)
  }

  ghost predicate Inv<T>(s: Link<T>) {
    InOrder(s) && WaitersOk(s)
  }

  ghost predicate IsInitial<T>(s: Link<T>) {
    RingOk(s.ring) && s.ring.count == 0 && !s.sendWaiter && !s.recvWaiter && s.sender == SenderFree
    && s.receiver == ReceiverFree && s.offered == [] && s.sent == [] && s.received == []
  }

  lemma InRing<T>(r: Ring<T>)
    requires RingOk(r)
    ensures r.tail < |r.buf|
  {
  }

  lemma SendKeepsInv<T>(s: Link<T>, x: T)
    requires Inv(s.(sender := SenderFree, sendWaiter := false, offered := s.sent))
    requires s.sender == SenderFree || s.sender == SenderWoken(x)
    requires s.offered == s.sent + [x] && !s.sendWaiter
    requires s.receiver.ReceiverWoken? ==> s.ring.count > 0
    ensures s.ring.tail < |s.ring.buf| && Inv(TrySend(s, x))
  {
    if s.ring.count < |s.ring.buf| {
      PushAppends(s.ring, x);
    }
  }

  lemma RecvKeepsInv<T>(s: Link<T>)
    requires Inv(s) && !s.receiver.ReceiverBlocked?
    ensures Inv(TryRecv(s))
  {
    if s.ring.count > 0 {
      PopTakesFirst(s.ring);
    }
  }

  lemma StepKeepsInv<T>(s: Link<T>, e: Event<T>)
    requires Inv(s) && Enabled(s, e)
    ensures s.ring.tail < |s.ring.buf| && Inv(Do(s, e))
  {
    InRing(s.ring);
    match e
    case CallSend(x) => SendKeepsInv(s.(offered := s.offered + [x]), x);
    case RetrySend => SendKeepsInv(s, s.sender.x);
    case _ => RecvKeepsInv(s);
  }

  // ---- Over every run ----

  ghost predicate IsRun<T(!new)>(trace: seq<Link<T>>, events: seq<Event<T>>) {
    |trace| == |events| + 1 && IsInitial(trace[0])
    && forall i :: 0 <= i < |events| ==> IsStep(trace[i], events[i], trace[i + 1])
  }

  ghost predicate IsStep<T>(s: Link<T>, e: Event<T>, t: Link<T>) {
    Enabled(s, e) && |s.ring.buf| >= 1 && s.ring.head < |s.ring.buf| && s.ring.tail < |s.ring.buf| && t == Do(s, e)
  }

  lemma {:induction false} RunKeepsInv<T(!new)>(trace: seq<Link<T>>, events: seq<Event<T>>, i: nat)
    requires IsRun(trace, events) && i < |trace|
    ensures Inv(trace[i])
  {
    if i > 0 {
      RunKeepsInv(trace, events, i - 1);
      assert IsStep(trace[i - 1], events[i - 1], trace[i]);
      StepKeepsInv(trace[i - 1], events[i - 1]);
    }
  }

  /** First in, first out: at every moment of every run the receiver has had a prefix of what
      was accepted, which is a prefix of what was offered; the ring holds the difference. */
  lemma DeliveredInOrder<T(!new)>(trace: seq<Link<T>>, events: seq<Event<T>>, i: nat)
    requires IsRun(trace, events) && i < |trace|
    ensures trace[i].received <= trace[i].sent <= trace[i].offered
    ensures |trace[i].offered| <= |trace[i].sent| + 1
    ensures RingOk(trace[i].ring) && trace[i].sent[|trace[i].received|..] == Contents(trace[i].ring)
  {
    RunKeepsInv(trace, events, i);
  }

  /** No lost wake-up: a suspended receiver is registered on an empty channel, a suspended
      sender on a full one, so the two are never suspended together. */
  lemma NoLostWakeup<T(!new)>(trace: seq<Link<T>>, events: seq<Event<T>>, i: nat)
    requires IsRun(trace, events) && i < |trace|
    ensures trace[i].receiver.ReceiverBlocked? ==> trace[i].recvWaiter && trace[i].ring.count == 0
    ensures trace[i].sender.SenderBlocked? ==> trace[i].sendWaiter && trace[i].ring.count == |trace[i].ring.buf|
    ensures !(trace[i].receiver.ReceiverBlocked? && trace[i].sender.SenderBlocked?)
  {
    RunKeepsInv(trace, events, i);
  }

  /** A party that was woken goes through at its next turn: no second suspension. */
  lemma WokenGoesThrough<T(!new)>(trace: seq<Link<T>>, events: seq<Event<T>>, i: nat)
    requires IsRun(trace, events) && i < |events|
    ensures events[i].RetryRecv? ==>
              trace[i + 1].receiver == ReceiverFree && |trace[i + 1].received| == |trace[i].received| + 1
    ensures events[i].RetrySend? ==> trace[i + 1].sender == SenderFree && trace[i + 1].sent == trace[i].offered
  {
    RunKeepsInv(trace, events, i);
    RunKeepsInv(trace, events, i + 1);
    assert IsStep(trace[i], events[i], trace[i + 1]);
  }
}
