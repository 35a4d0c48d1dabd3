/** The channel's own data, in place, on top of the scheduler: each turn of a loop is a turn of
    the conversation. */
module Channel {
  import opened Rings
  import opened Scheduler
  import opened Scheduling
  import opened Conversation
  import C = Channels

  class CoChan<T> {
    const buf: array<T>
    var head: nat
    var tail: nat
    var count: nat
    var recvWaiter: Coroutine?
    var sendWaiter: Coroutine?

    ghost function Ring(): Rings.Ring<T>
      reads this, buf
    {
      Rings.Ring(buf[..], head, tail, count)
    }

    ghost predicate Valid()
      reads this, buf
    {
      RingOk(Ring())
    }

    ghost function Held(): seq<T>
      requires Valid()
      reads this, buf
    {
      Contents(Ring())
    }

    /** `co_chan_make` when memory can be had; `blank` is what the fresh buffer is filled with. */
    constructor (cap: nat, blank: T)
      requires cap >= 1
      ensures Valid() && fresh(buf) && buf.Length == cap
      ensures Held() == [] && recvWaiter == null && sendWaiter == null
    {
      buf := new T[cap](_ => blank);
      head, tail, count := 0, 0, 0;
      recvWaiter, sendWaiter := null, null;
    }

    /** Channel and scheduler in memory are those of world v; a waiter field holds the very
        coroutine of the party registered there. */
    ghost predicate Stands(sched: CoSched, v: World<T>)
      reads this, buf, sched, sched.pool
    {
      Valid() && sched.Valid() && v.w < CO_MAX && v.r < CO_MAX
      && sched.Abs() == v.sched && Ring() == v.link.ring
      && recvWaiter == (if v.link.recvWaiter then sched.pool[v.r] else null)
      && sendWaiter == (if v.link.sendWaiter then sched.pool[v.w] else null)
    }

    /** A fresh channel on a fresh scheduler is where a run of the conversation starts. */
    lemma Opens(sched: CoSched, w: nat, r: nat) returns (v: World<T>)
      requires Valid() && Held() == [] && recvWaiter == null && sendWaiter == null
      requires sched.Valid() && Scheduling.IsInitial(sched.Abs()) && w < CO_MAX && r < CO_MAX && w != r
      ensures Stands(sched, v) && Conversation.IsInitial(v) && v.w == w && v.r == r
    {
      hide CoSched.Linked, Inv;
      assert |Held()| == count;
      var link := C.Link(Ring(), false, false, C.SenderFree, C.ReceiverFree, [], [], []);
      v := World(sched.Abs(), link, w, r);
    }

    /** The value goes to the tail of the ring. */
    method Store(x: T)
      requires Valid() && count < buf.Length
      modifies this`tail, this`count, buf
      ensures Valid() && Ring() == Push(old(Ring()), x) && Held() == old(Held()) + [x]
    {
      PushAppends(Ring(), x);
      buf[tail] := x;
      tail := (tail + 1) % buf.Length;
      count := count + 1;
      assert Ring() == Push(old(Ring()), x);
    }

    /** The oldest value leaves the ring. */
    method Take() returns (x: T)
      requires Valid() && count > 0
      modifies this`head, this`count
      ensures Valid() && Ring() == Pop(old(Ring())) && x == Ring().buf[old(head)] && old(Held()) == [x] + Held()
    {
      PopTakesFirst(Ring());
      x := buf[head];
      head := (head + 1) % buf.Length;
      count := count - 1;
      assert Ring() == Pop(old(Ring()));
    }

    /** One turn of the loop of `co_chan_send`: suspend on a full channel, or store the value
        and wake the receiver. */
    method TrySend(sched: CoSched, x: T, ghost v: World<T>) returns (done: bool)
      requires Stands(sched, v) && WorldInv(v) && CanDo(v, SendTurn(x))
      modifies this, buf, sched, sched.pool
      ensures Formed(v) && Stands(sched, Next(v, SendTurn(x)))
      ensures done == (old(count) < buf.Length) && Held() == if done then old(Held()) + [x] else old(Held())
    {
      hide RingOk, Contents, CoSched.Linked, Inv, Do, Enabled, WorldInv, Next, Formed, Push;
      SendEffect(v, x);
      if count >= buf.Length {
        sched.CurrentRuns();
        sendWaiter := sched.current;
        sched.BlockCo();
        return false;
      }
      Store(x);
      if recvWaiter != null {
        sched.WakeCo(recvWaiter, v.r);
        recvWaiter := null;
      }
      assert sched.Abs() == Next(v, SendTurn(x)).sched;
      return true;
    }

    /** One turn of the loop of `co_chan_recv`: suspend on an empty channel, or take the oldest
        value and wake the sender. */
    method TryRecv(sched: CoSched, blank: T, ghost v: World<T>) returns (done: bool, x: T)
      requires Stands(sched, v) && WorldInv(v) && CanDo(v, RecvTurn)
      modifies this, sched, sched.pool
      ensures Formed(v) && Stands(sched, Next(v, RecvTurn))
      ensures done == (old(count) > 0) && old(Held()) == if done then [x] + Held() else Held()
      ensures done ==> Next(v, RecvTurn).link.received == v.link.received + [x]
    {
      hide RingOk, Contents, CoSched.Linked, Inv, Do, Enabled, WorldInv, Next, Formed, Pop;
      RecvEffect(v);
      if count == 0 {
        sched.CurrentRuns();
        recvWaiter := sched.current;
        sched.BlockCo();
        return false, blank;
      }
      x := Take();
      if sendWaiter != null {
        sched.WakeCo(sendWaiter, v.w);
        sendWaiter := null;
      }
      assert sched.Abs() == Next(v, RecvTurn).sched;
      return true, x;
    }
  }

  /** What the sender's turn makes of the world, in the scheduler's own events. */
  lemma SendEffect<T>(v: World<T>, x: T)
    requires WorldInv(v) && CanDo(v, SendTurn(x))
    ensures Formed(v) && Enabled(v.sched, Block)
    ensures v.link.recvWaiter ==> Enabled(v.sched, Wake(v.r))
    ensures var t := Next(v, SendTurn(x));
            t.w == v.w && t.r == v.r
            && if v.link.ring.count >= |v.link.ring.buf|
               then t.sched == Do(v.sched, Block) && t.link.ring == v.link.ring
                    && t.link.sendWaiter && t.link.recvWaiter == v.link.recvWaiter
               else t.sched == (if v.link.recvWaiter then Do(v.sched, Wake(v.r)) else v.sched)
                    && t.link.ring == Push(v.link.ring, x)
                    && t.link.sendWaiter == v.link.sendWaiter && !t.link.recvWaiter
  {
    hide C.InOrder, QueueIsReady;
    InvFormed(v);
  }

  /** And the receiver's. */
  lemma RecvEffect<T>(v: World<T>)
    requires WorldInv(v) && CanDo(v, RecvTurn)
    ensures Formed(v) && Enabled(v.sched, Block)
    ensures v.link.sendWaiter ==> Enabled(v.sched, Wake(v.w))
    ensures var t := Next(v, RecvTurn);
            t.w == v.w && t.r == v.r
            && if v.link.ring.count == 0
               then t.sched == Do(v.sched, Block) && t.link.ring == v.link.ring
                    && t.link.recvWaiter && t.link.sendWaiter == v.link.sendWaiter
               else t.sched == (if v.link.sendWaiter then Do(v.sched, Wake(v.w)) else v.sched)
                    && t.link.ring == Pop(v.link.ring)
                    && t.link.received == v.link.received + [v.link.ring.buf[v.link.ring.head]]
                    && t.link.recvWaiter == v.link.recvWaiter && !t.link.sendWaiter
  {
    hide C.InOrder, QueueIsReady;
    InvFormed(v);
  }
}
