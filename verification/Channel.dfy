/** Buffered channels between coroutines (uvco/channel.h).

    put, get and getAll are coroutines. Between two suspensions their bodies run without
    interruption: waking a waiter only enqueues it. So each body is modelled by two methods, one up to
    the suspension and one from the resumption on. */
module Channels {
  import opened Wrappers
  import opened Schedulers
  import opened BoundedQueues

  /** A ring of waiters: their handles in suspension order, null for cancelled ones. */
  type Waiters = seq<Entry>

  // ---- the specification ----------------------------------------------------------------------

  datatype Chan<T> = Chan(capacity: nat, items: seq<T>, maxWaiters: nat, readers: Waiters, writers: Waiters)

  datatype Turn<T> =
    | Done               // put: the item is in the channel
    | Took(item: T)      // get: an item has been taken out
    | Waits              // the coroutine is suspended
    | TooManyWaiters     // the waiter ring is full
    | Unserved           // resumed, but there is no space or no item: BOOST_VERIFY fails

  /** The waiter that is woken: the first one that has not been cancelled. */
  function FirstWaiter(w: Waiters): Entry { NextHandle(w, {}) }

  function AfterWaking(w: Waiters): Waiters { AfterNext(w, {}) }

  /** What waking adds to the scheduler. */
  function Woken(w: Waiters): seq<Entry> {
    if FirstWaiter(w).Some? then [FirstWaiter(w)] else []
  }

  function Accept<T>(c: Chan<T>, item: T): Chan<T> {
    c.(items := c.items + [item], readers := AfterWaking(c.readers))
  }

  function Remove<T>(c: Chan<T>): Chan<T>
    requires c.items != []
  {
    c.(items := c.items[1..], writers := AfterWaking(c.writers))
  }

  // ---- the implementation ---------------------------------------------------------------------

  class Channel<T> {
    const queue: BoundedQueue<T>
    const readWaiting: BoundedQueue<Entry>
    const writeWaiting: BoundedQueue<Entry>
    const loop: Scheduler

    ghost predicate Valid()
      reads queue, readWaiting, writeWaiting
    {
      && queue.Valid() && readWaiting.Valid() && writeWaiting.Valid()
      && readWaiting != writeWaiting
      && queue as object != readWaiting && queue as object != writeWaiting
      && readWaiting.cap == writeWaiting.cap
    }

    ghost function View(): Chan<T>
      reads queue, readWaiting, writeWaiting
      requires Valid()
    {
      Chan(queue.cap, queue.Contents(), readWaiting.cap, readWaiting.Contents(), writeWaiting.Contents())
    }

    constructor (capacity: nat, maxWaiters: nat, loop: Scheduler)
      requires capacity < UINT_LIMIT && maxWaiters < UINT_LIMIT
      ensures Valid() && fresh(queue) && fresh(readWaiting) && fresh(writeWaiting) && this.loop == loop
      ensures View() == Chan(capacity, [], maxWaiters, [], [])
    {
      queue := new BoundedQueue(capacity);
      readWaiting := new BoundedQueue(maxWaiters);
      writeWaiting := new BoundedQueue(maxWaiters);
      this.loop := loop;
    }

    /** awake_reader() and awake_writer(): at most one waiter, the first one that is not cancelled. */
    method Awake(waiters: BoundedQueue<Entry>)
      requires Valid() && (waiters == readWaiting || waiters == writeWaiting)
      modifies waiters, loop
      ensures Valid() && waiters.Contents() == AfterWaking(old(waiters.Contents()))
      ensures loop.resumable == old(loop.resumable) + Woken(old(waiters.Contents()))
    {
      ghost var was := waiters.Contents();
      ghost var taken := 0;
      while !waiters.Empty()
        invariant Valid() && loop.resumable == old(loop.resumable)
        invariant taken <= |was| && waiters.Contents() == was[taken..]
        invariant forall i :: 0 <= i < taken ==> was[i] == None
        decreases |waiters.Contents()|
      {
        var r := waiters.Get();
        var handle := r.value;
        if handle != None {
          loop.Enqueue(handle.value);
          assert Skipped(was, {}) == taken;
          return;
        }
        taken := taken + 1;
      }
      assert Skipped(was, {}) == |was|;
    }

    /** ChannelAwaiter_::await_suspend. */
    method Suspend(h: Handle, waiters: BoundedQueue<Entry>) returns (suspended: bool)
      requires Valid() && (waiters == readWaiting || waiters == writeWaiting)
      modifies waiters
      ensures Valid() && suspended == (|old(waiters.Contents())| < waiters.cap)
      ensures waiters.Contents() == old(waiters.Contents()) + if suspended then [Some(h)] else []
    {
      if !waiters.HasSpace() {
        return false;
      }
      var r := waiters.Put(Some(h));
      return true;
    }

    /** ~ChannelAwaiter_: nulls the coroutine's entry, if it still has one. */
    method DestroyAwaiter(h: Handle, waiters: BoundedQueue<Entry>)
      requires Valid() && (waiters == readWaiting || waiters == writeWaiting)
      modifies waiters
      ensures Valid() && waiters.Contents() == Cancelled(old(waiters.Contents()), h)
    {
      waiters.ForEach((e: Entry) => if e == Some(h) then None else e);
    }

    /** put(), up to its end or its suspension. */
    method Put(h: Handle, value: T) returns (turn: Turn<T>)
      requires Valid()
      modifies queue, readWaiting, writeWaiting, loop
      ensures Valid()
      ensures var c := old(View());
              if |c.items| < c.capacity then
                && turn == Done && View() == Accept(c, value)
                && loop.resumable == old(loop.resumable) + Woken(c.readers)
              else
                && loop.resumable == old(loop.resumable)
                && if |c.writers| < c.maxWaiters
                   then turn == Waits && View() == c.(writers := c.writers + [Some(h)])
                   else turn == TooManyWaiters && View() == c
    {
      if !queue.HasSpace() {
        var suspended := Suspend(h, writeWaiting);
        return if suspended then Waits else TooManyWaiters;
      }
      var r := queue.Put(value);
      Awake(readWaiting);
      return Done;
    }

    /** put(), from its resumption on. */
    method PutResumed(h: Handle, value: T) returns (turn: Turn<T>)
      requires Valid() && Some(h) !in writeWaiting.Contents()
      modifies queue, readWaiting, writeWaiting, loop
      ensures Valid()
      ensures var c := old(View());
              if |c.items| < c.capacity then
                && turn == Done && View() == Accept(c, value)
                && loop.resumable == old(loop.resumable) + Woken(c.readers)
              else turn == Unserved && View() == c && loop.resumable == old(loop.resumable)
    {
      DestroyUnregistered(h, writeWaiting);
      if !queue.HasSpace() {
        return Unserved;
      }
      var r := queue.Put(value);
      Awake(readWaiting);
      return Done;
    }

    /** get(), and one round of getAll(), up to the end or the suspension. */
    method Get(h: Handle) returns (turn: Turn<T>)
      requires Valid()
      modifies queue, readWaiting, writeWaiting, loop
      ensures Valid()
      ensures var c := old(View());
              if c.items != [] then
                && turn == Took(c.items[0]) && View() == Remove(c)
                && loop.resumable == old(loop.resumable) + Woken(c.writers)
              else
                && loop.resumable == old(loop.resumable)
                && if |c.readers| < c.maxWaiters
                   then turn == Waits && View() == c.(readers := c.readers + [Some(h)])
                   else turn == TooManyWaiters && View() == c
    {
      if queue.Empty() {
        var suspended := Suspend(h, readWaiting);
        return if suspended then Waits else TooManyWaiters;
      }
      var r := queue.Get();
      Awake(writeWaiting);
      return Took(r.value);
    }

    /** get(), and one round of getAll(), from the resumption on. */
    method GetResumed(h: Handle) returns (turn: Turn<T>)
      requires Valid() && Some(h) !in readWaiting.Contents()
      modifies queue, readWaiting, writeWaiting, loop
      ensures Valid()
      ensures var c := old(View());
              if c.items != [] then
                && turn == Took(c.items[0]) && View() == Remove(c)
                && loop.resumable == old(loop.resumable) + Woken(c.writers)
              else turn == Unserved && View() == c && loop.resumable == old(loop.resumable)
    {
      DestroyUnregistered(h, readWaiting);
      if queue.Empty() {
        return Unserved;
      }
      var r := queue.Get();
      Awake(writeWaiting);
      return Took(r.value);
    }

    /** The awaiter of a resumed coroutine is destroyed after its entry has been taken out. */
    method DestroyUnregistered(h: Handle, waiters: BoundedQueue<Entry>)
      requires Valid() && (waiters == readWaiting || waiters == writeWaiting)
      requires Some(h) !in waiters.Contents()
      modifies waiters
      ensures Valid() && View() == old(View())
    {
      DestroyAwaiter(h, waiters);
      assert waiters.Contents() == old(waiters.Contents());
    }
  }
}
