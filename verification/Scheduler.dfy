/** The scheduler's own data: a pool of coroutines chained through `next` into the run queue.
    Each operation is one event of the transition system. */
module Scheduler {
  import opened Basics
  import opened Scheduling

  class Coroutine {
    var state: Slot
    var next: Coroutine?

    constructor ()
      ensures state == Free && next == null
    {
      state := Free;
      next := null;
    }
  }

  class CoSched {
    const pool: seq<Coroutine>
    var current: Coroutine?
    var head: Coroutine?
    var tail: Coroutine?
    ghost var queue: seq<nat>
    ghost var control: Control

    ghost predicate PoolOk() {
      |pool| == CO_MAX && forall i, j :: 0 <= i < j < CO_MAX ==> pool[i] != pool[j]
    }

    /** The chain from head to tail runs through the queued coroutines in order. */
    ghost predicate Linked()
      requires PoolOk()
      reads this, pool
    {
      Distinct(queue)
      && (forall i :: 0 <= i < |queue| ==> queue[i] < CO_MAX)
      && (queue == [] ==> head == null && tail == null)
      && (queue != [] ==> head == pool[queue[0]] && tail == pool[queue[|queue| - 1]] && tail.next == null)
      && forall i :: 0 <= i < |queue| - 1 ==> pool[queue[i]].next == pool[queue[i + 1]]
    }

    ghost function States(): (s: Slots)
      requires PoolOk()
      reads this, pool
      ensures forall i :: 0 <= i < CO_MAX ==> s[i] == pool[i].state
    {
      seq(CO_MAX, i requires 0 <= i < CO_MAX reads this, pool => pool[i].state)
    }

    ghost function Abs(): Sched
      requires PoolOk()
      reads this, pool
    {
      Sched(States(), queue, control)
    }

    ghost predicate Valid()
      reads this, pool
    {
      PoolOk() && Linked() && Inv(Abs())
      && (control.On? || control.Back? ==> current == pool[control.c])
    }

    lemma CurrentRuns()
      requires Valid() && control.On?
      ensures control.c < CO_MAX && current == pool[control.c]
    {
    }

    constructor ()
      ensures Valid() && IsInitial(Abs())
      ensures fresh(pool)
    {
      var made: seq<Coroutine> := [];
      for i := 0 to CO_MAX
        invariant |made| == i
        invariant forall j :: 0 <= j < i ==> made[j].state == Free && fresh(made[j])
        invariant forall j, k :: 0 <= j < k < i ==> made[j] != made[k]
      {
        var co := new Coroutine();
        made := made + [co];
      }
      pool := made;
      current, head, tail := null, null, null;
      queue, control := [], Outside;
    }

    method Enqueue(co: Coroutine, ghost c: nat)
      requires PoolOk() && Linked() && c < CO_MAX && co == pool[c] && c !in queue
      modifies this`head, this`tail, this`queue, pool`next
      ensures Linked() && queue == old(queue) + [c]
    {
      co.next := null;
      if tail != null {
        tail.next := co;
      } else {
        head := co;
      }
      tail := co;
      queue := queue + [c];
    }

    method Dequeue() returns (co: Coroutine?)
      requires PoolOk() && Linked()
      modifies this`head, this`tail, this`queue, pool`next
      ensures Linked()
      ensures old(queue) == [] ==> co == null && queue == []
      ensures old(queue) != [] ==> co == pool[old(queue)[0]] && queue == old(queue)[1..]
    {
      co := head;
      if co != null {
        TailDistinct(queue);
        head := co.next;
        if head == null {
          tail := null;
        }
        queue := queue[1..];
        co.next := null;
      }
    }

    method FindFree() returns (co: Coroutine?, ghost c: nat)
      requires Valid()
      ensures c == FirstFree(Abs().slots, 0)
      ensures co == if FirstFree(Abs().slots, 0) == CO_MAX then null else pool[FirstFree(Abs().slots, 0)]
    {
      hide Linked, Inv;
      co, c := null, 0;
      for i := 0 to CO_MAX
        invariant c == i && FirstFree(States(), i) == FirstFree(States(), 0) && co == null
      {
        if pool[i].state == Free {
          return pool[i], i;
        }
        c := i + 1;
      }
    }

    /** The pair of lines that make a coroutine ready: state, then queue. */
    method MakeReady(co: Coroutine, ghost c: nat)
      requires Valid() && c < CO_MAX && co == pool[c] && c !in queue
      modifies this`head, this`tail, this`queue, pool
      ensures PoolOk() && Linked()
      ensures Abs() == Sched(old(Abs()).slots[c := Ready], old(queue) + [c], control)
    {
      hide Inv, FirstFree;
      co.state := Ready;
      Enqueue(co, c);
      assert States() == old(States())[c := Ready];
    }

    /** `co_start`: the first free slot, if there is one and its stack could be had. */
    method StartCo(stackOk: bool)
      requires Valid() && InUserCode(Abs())
      modifies this`head, this`tail, this`queue, pool
      ensures Valid() && Abs() == Do(old(Abs()), Start(stackOk))
    {
      hide Linked, Inv, Do, Enabled, FirstFree;
      ghost var before := Abs();
      StartIs(before, stackOk);
      StepKeeps(before, Start(stackOk));
      ghost var c: nat;
      var co: Coroutine?;
      co, c := FindFree();
      if co == null {
        return;
      }
      if !stackOk {
        return;
      }
      ReadyIsQueued(before, c);
      MakeReady(co, c);
    }

    /** A channel's wake-up of a blocked coroutine. */
    method WakeCo(co: Coroutine, ghost d: nat)
      requires Valid() && d < CO_MAX && co == pool[d] && Enabled(Abs(), Wake(d))
      modifies this`head, this`tail, this`queue, pool
      ensures Valid() && Abs() == Do(old(Abs()), Wake(d))
    {
      hide Linked, QueueIsReady, ControlOk, FirstFree;
      StepKeeps(Abs(), Wake(d));
      ReadyIsQueued(Abs(), d);
      MakeReady(co, d);
    }

    /** `co_yield` up to its context switch. */
    method YieldCo()
      requires Valid() && control.On?
      modifies this`head, this`tail, this`queue, this`control, pool
      ensures Valid() && Abs() == Do(old(Abs()), Yield)
    {
      hide Inv, FirstFree;
      StepKeeps(Abs(), Yield);
      ghost var c := control.c;
      RunningNow(Abs());
      var co := current;
      if co.state == Running {
        co.state := Ready;
      }
      Enqueue(co, c);
      control := Back(c);
      assert States() == old(States())[c := Ready];
    }

    /** A channel's suspension of the running coroutine, up to its context switch. */
    method BlockCo()
      requires Valid() && control.On?
      modifies this`control, pool
      ensures Valid() && Abs() == Do(old(Abs()), Block)
    {
      hide Inv, FirstFree;
      StepKeeps(Abs(), Block);
      ghost var c := control.c;
      RunningNow(Abs());
      current.state := Blocked;
      control := Back(c);
      assert States() == old(States())[c := Blocked];
    }

    /** The end of `co_proxy`: the routine has returned. */
    method FinishCo()
      requires Valid() && control.On?
      modifies this`control, pool
      ensures Valid() && Abs() == Do(old(Abs()), Finish)
    {
      hide Inv, FirstFree;
      StepKeeps(Abs(), Finish);
      ghost var c := control.c;
      RunningNow(Abs());
      current.state := Done;
      control := Back(c);
      assert States() == old(States())[c := Done];
    }

    /** The scan `co_run` makes before it leaves; it leaves either way. */
    method AnyBlocked() returns (alive: bool)
      requires PoolOk()
      ensures alive <==> exists i :: 0 <= i < CO_MAX && pool[i].state == Blocked
    {
      alive := false;
      for i := 0 to CO_MAX
        invariant alive <==> exists j :: 0 <= j < i && pool[j].state == Blocked
      {
        if pool[i].state == Blocked {
          alive := true;
        }
      }
    }

    /** One pass at the head of the loop of `co_run`: dispatch the first in the queue, or leave. */
    method NextCo() returns (leaving: bool)
      requires Valid() && control.Loop?
      modifies this, pool
      ensures Valid() && leaving == (old(queue) == [])
      ensures Abs() == Do(old(Abs()), if leaving then Leave else Dispatch)
    {
      hide Inv, FirstFree;
      QueueInPool(Abs());
      StepKeeps(Abs(), if queue == [] then Leave else Dispatch);
      var co := Dequeue();
      if co == null {
        var _ := AnyBlocked();
        current := null;
        control := Outside;
        leaving := true;
        assert States() == old(States());
      } else {
        ghost var c := old(queue)[0];
        current := co;
        co.state := Running;
        control := On(c);
        leaving := false;
        assert States() == old(States())[c := Running];
      }
    }

    /** Back in `co_run` after the switch: a finished coroutine's slot is free again. */
    method SettleCo()
      requires Valid() && control.Back?
      modifies this`control, pool
      ensures Valid() && Abs() == Do(old(Abs()), Settle)
    {
      hide Inv, FirstFree;
      StepKeeps(Abs(), Settle);
      ghost var c := control.c;
      RunningNow(Abs());
      if current.state == Done {
        current.state := Free;
      }
      control := Loop;
      assert States() == if old(States())[c] == Done then old(States())[c := Free] else old(States());
    }
  }

  lemma StepKeeps(s: Sched, e: Event)
    requires Inv(s)
    ensures Enabled(s, e) ==> Inv(Do(s, e))
  {
    if Enabled(s, e) {
      StepKeepsInv(s, e);
    }
  }

  lemma StartIs(s: Sched, stackOk: bool)
    requires InUserCode(s)
    ensures Enabled(s, Start(stackOk))
    ensures FirstFree(s.slots, 0) == CO_MAX || !stackOk ==> Do(s, Start(stackOk)) == s
    ensures var i := FirstFree(s.slots, 0);
            i < CO_MAX && stackOk ==> Do(s, Start(stackOk)) == Sched(s.slots[i := Ready], s.queue + [i], s.control)
  {
  }

  lemma ReadyIsQueued(s: Sched, c: nat)
    requires Inv(s)
    ensures c < CO_MAX && s.slots[c] != Ready ==> c !in s.queue
  {
  }

  lemma RunningNow(s: Sched)
    requires Inv(s)
    ensures s.control.On? ==> s.control.c < CO_MAX && s.slots[s.control.c] == Running && s.control.c !in s.queue
    ensures s.control.Back? ==> s.control.c < CO_MAX
  {
  }

  lemma QueueInPool(s: Sched)
    requires Inv(s)
    ensures s.queue != [] ==> s.queue[0] < CO_MAX
  {
    if s.queue != [] {
      assert s.queue[0] in s.queue;
    }
  }
}
