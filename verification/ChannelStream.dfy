/** A channel drained by one `getAll()` generator (uvco/channel.h:96-113): the composition of the
    channel of `ChannelRuns` with the generator handshake of `GeneratorRuns`. */
module ChannelStreams {
  import opened Wrappers
  import opened Schedulers
  import opened Cores
  import opened Generators
  import opened Channels
  import C = ChannelRuns
  import G = GeneratorRuns

  /** The handle of the generator; every other coroutine only writes to the channel. */
  const READER: Handle := 0

  /** How the generator fails if the ring of readers is full, or if it was resumed without an item. */
  const QUEUE_ERROR: Exception := 1

  datatype Pipe<T> = Pipe(channel: C.System<T>, stream: G.Stream<T>, blocked: bool)

  datatype Event<T> =
    | Write(write: C.Event<T>)   // another coroutine's put, its resumption, or its cancellation
    | Pull                       // the generator's body, from a co_yield or from its start
    | PullResumed                // the same, after waiting for an item
    | Consume(consume: G.Event<T>) // Await, RunConsumer, RunProducer or Cancel

  predicate Enabled<T>(p: Pipe<T>, e: Event<T>) {
    match e
    case Write(w) =>
      (w.Put? || w.PutResumed? || w.CancelWriter? || w.CancelWokenWriter?) && C.Enabled(p.channel, w)
    case Pull => p.stream.producer.Busy? && !p.blocked
    case PullResumed => p.stream.producer.Busy? && p.blocked && READER in p.channel.wokenReaders
    case Consume(g) =>
      (g.Await? || g.RunConsumer? || g.RunProducer? || g.Cancel?) && G.Enabled(p.stream, g)
  }

  /** Taking an item and yielding it, without a suspension in between. */
  function Forward<T>(p: Pipe<T>, e: C.Event<T>): Pipe<T>
    requires p.channel.chan.items != []
  {
    Pipe(C.Step(p.channel, e), G.Step(p.stream, G.Yield(p.channel.chan.items[0])), false)
  }

  function Fail<T>(p: Pipe<T>, e: C.Event<T>): Pipe<T> {
    Pipe(C.Step(p.channel, e), G.Step(p.stream, G.Throw(QUEUE_ERROR)), false)
  }

  function Step<T>(p: Pipe<T>, e: Event<T>): Pipe<T> {
    match e
    case Write(w) => p.(channel := C.Step(p.channel, w))
    case Pull =>
      if p.channel.chan.items != [] then Forward(p, C.Get(READER))
      else if |p.channel.chan.readers| < p.channel.chan.maxWaiters
      then p.(channel := C.Step(p.channel, C.Get(READER)), blocked := true)
      else Fail(p, C.Get(READER))
    case PullResumed =>
      if p.channel.chan.items != [] then Forward(p, C.GetResumed(READER))
      else Fail(p, C.GetResumed(READER))
    case Consume(g) =>
      var stream := G.Step(p.stream, g);
      if g.Cancel? && p.blocked then
        // the generator's frame is destroyed: its awaiter leaves the ring, or it is unscheduled
        Pipe(C.Step(p.channel, if READER in p.channel.wokenReaders then C.CancelWokenReader(READER)
                               else C.CancelReader(READER)), stream, false)
      else p.(stream := stream)
  }

  function Start<T>(capacity: nat, maxWaiters: nat): Pipe<T> {
    Pipe(C.Start(capacity, maxWaiters), G.Init(), false)
  }

  function Run<T>(capacity: nat, maxWaiters: nat, events: seq<Event<T>>): Pipe<T> {
    if events == [] then Start(capacity, maxWaiters)
    else Step(Run(capacity, maxWaiters, events[..|events| - 1]), events[|events| - 1])
  }

  predicate Possible<T>(capacity: nat, maxWaiters: nat, events: seq<Event<T>>) {
    events == []
    || (&& Possible(capacity, maxWaiters, events[..|events| - 1])
        && Enabled(Run(capacity, maxWaiters, events[..|events| - 1]), events[|events| - 1]))
  }

  /** What leaves the channel is what the generator yields. */
  ghost predicate Connected<T(!new)>(p: Pipe<T>) {
    && p.channel.taken == p.stream.yielded
    && C.Conserves(p.channel)
    && (if p.stream.producer.Destroyed? then G.Abandoned(p.stream) else G.Handshake(p.stream))
  }

  lemma ForwardConnected<T(!new)>(p: Pipe<T>, e: C.Event<T>)
    requires Connected(p) && p.stream.producer.Busy? && p.channel.chan.items != []
    requires e == C.Get(READER) || e == C.GetResumed(READER)
    ensures Connected(Forward(p, e))
  {
    C.ConservesKept(p.channel, e);
    G.HandshakeKept(p.stream, G.Yield(p.channel.chan.items[0]));
  }

  lemma FailConnected<T(!new)>(p: Pipe<T>, e: C.Event<T>)
    requires Connected(p) && p.stream.producer.Busy? && p.channel.chan.items == []
    requires e == C.GetResumed(READER) || (e == C.Get(READER) && |p.channel.chan.readers| >= p.channel.chan.maxWaiters)
    ensures Connected(Fail(p, e))
  {
    C.ConservesKept(p.channel, e);
    G.HandshakeKept(p.stream, G.Throw(QUEUE_ERROR));
  }

  lemma PullConnected<T(!new)>(p: Pipe<T>, e: Event<T>)
    requires Connected(p) && Enabled(p, e) && (e.Pull? || e.PullResumed?)
    ensures Connected(Step(p, e))
  {
    var get := if e.Pull? then C.Get(READER) else C.GetResumed(READER);
    if p.channel.chan.items != [] {
      ForwardConnected(p, get);
    } else if e.Pull? && |p.channel.chan.readers| < p.channel.chan.maxWaiters {
      C.ConservesKept(p.channel, get);
    } else {
      FailConnected(p, get);
    }
  }

  lemma ConsumeConnected<T(!new)>(p: Pipe<T>, e: Event<T>)
    requires Connected(p) && Enabled(p, e) && e.Consume?
    ensures Connected(Step(p, e))
  {
    C.ConservesKept(p.channel, C.CancelReader(READER));
    C.ConservesKept(p.channel, C.CancelWokenReader(READER));
    G.AnyStep(p.stream, e.consume);
  }

  lemma ConnectedKept<T(!new)>(p: Pipe<T>, e: Event<T>)
    requires Connected(p) && Enabled(p, e)
    ensures Connected(Step(p, e))
  {
    match e
    case Write(w) => C.ConservesKept(p.channel, w);
    case Consume(_) => ConsumeConnected(p, e);
    case _ => PullConnected(p, e);
  }

  lemma {:induction false} EveryRunConnected<T(!new)>(capacity: nat, maxWaiters: nat, events: seq<Event<T>>)
    requires Possible(capacity, maxWaiters, events)
    ensures Connected(Run(capacity, maxWaiters, events))
  {
    if events != [] {
      var before, e := events[..|events| - 1], events[|events| - 1];
      EveryRunConnected(capacity, maxWaiters, before);
      ConnectedKept(Run(capacity, maxWaiters, before), e);
    } else {
      var p := Start<T>(capacity, maxWaiters);
      assert G.Received(p.stream.answers) + G.InSlot(p.stream.core) == [];
    }
  }

  /** End to end, every accepted item has been received, is in the generator's slot, or is still in
      the channel, in that order. Destroying the generator loses exactly the item in the slot. */
  lemma ItemsAreAccountedFor<T(!new)>(capacity: nat, maxWaiters: nat, events: seq<Event<T>>)
    requires Possible(capacity, maxWaiters, events)
    ensures var p := Run(capacity, maxWaiters, events);
            p.channel.accepted == G.Received(p.stream.answers) + G.InSlot(p.stream.core) + p.channel.chan.items
  {
    EveryRunConnected(capacity, maxWaiters, events);
  }

  // ---- waiting for items -------------------------------------------------------------------------

  predicate Nobody(readers: Waiters) { forall n :: 0 <= n < |readers| ==> readers[n] == None }

  /** The generator waits in the ring, or is scheduled with an item in the channel for it, exactly while
      its body is suspended at the channel; nobody else reads. */
  predicate Reading<T(==)>(g: G.Producer, blocked: bool, readers: Waiters, woken: multiset<Handle>, items: seq<T>) {
    if g.Destroyed? then !blocked && woken == multiset{} && Nobody(readers)
    else if !blocked then readers == [] && woken == multiset{}
    else if items == [] then g.Busy? && readers == [Some(READER)] && woken == multiset{}
    else g.Busy? && readers == [] && woken == multiset{READER}
  }

  ghost predicate Waits<T(!new)>(p: Pipe<T>) {
    var c := p.channel;
    Reading(p.stream.producer, p.blocked, c.chan.readers, c.wokenReaders, c.chan.items)
  }

  lemma RingOfOne(readers: Waiters)
    ensures readers == [Some(READER)] ==> FirstWaiter(readers) == Some(READER) && AfterWaking(readers) == []
    ensures Nobody(readers) ==> FirstWaiter(readers) == None && AfterWaking(readers) == []
  {
    if Nobody(readers) {
      assert Skipped(readers, {}) == |readers|;
    }
  }

  /** An item that arrives wakes the generator if it waits. */
  lemma ArrivalWakes<T>(g: G.Producer, blocked: bool, readers: Waiters, woken: multiset<Handle>, items: seq<T>, v: T)
    requires Reading(g, blocked, readers, woken, items)
    ensures Reading(g, blocked, AfterWaking(readers), woken + C.Handles(Woken(readers)), items + [v])
  {
    RingOfOne(readers);
  }

  lemma AcceptedWaits<T(!new)>(p: Pipe<T>, s: C.System<T>, v: T)
    requires Waits(p.(channel := s))
    ensures Waits(p.(channel := C.Accepted(s, v)))
  {
    ArrivalWakes(p.stream.producer, p.blocked, s.chan.readers, s.wokenReaders, s.chan.items, v);
  }

  /** Everything else that writers do concerns the other ring. */
  predicate SameForReaders<T(==)>(s: C.System<T>, s': C.System<T>) {
    s'.chan.readers == s.chan.readers && s'.wokenReaders == s.wokenReaders && s'.chan.items == s.chan.items
  }

  lemma WriteWaits<T(!new)>(p: Pipe<T>, w: C.Event<T>)
    requires Waits(p) && Enabled(p, Write(w))
    ensures Waits(Step(p, Write(w)))
  {
    var s := p.channel;
    if (w.Put? || w.PutResumed?) && C.HasSpace(s.chan) {
      var s' := if w.Put? then s else s.(wokenWriters := s.wokenWriters - multiset{w.h});
      assert Waits(p.(channel := s'));
      AcceptedWaits(p, s', w.value);
    } else {
      assert SameForReaders(s, C.Step(s, w));
    }
  }

  lemma CancelWaits<T(!new)>(p: Pipe<T>)
    requires Waits(p) && !p.stream.producer.Destroyed?
    ensures Waits(Step(p, Consume(G.Cancel)))
  {
  }

  lemma ConsumeWaits<T(!new)>(p: Pipe<T>, g: G.Event<T>)
    requires Waits(p) && Connected(p) && Enabled(p, Consume(g))
    ensures Waits(Step(p, Consume(g)))
  {
    if g.Cancel? {
      CancelWaits(p);
    }
  }

  lemma PullWaits<T(!new)>(p: Pipe<T>, e: Event<T>)
    requires Waits(p) && Enabled(p, e) && (e.Pull? || e.PullResumed?)
    ensures Waits(Step(p, e))
  {
    assert [] + [Some(READER)] == [Some(READER)];
  }

  lemma {:induction false} EveryRunWaits<T(!new)>(capacity: nat, maxWaiters: nat, events: seq<Event<T>>)
    requires Possible(capacity, maxWaiters, events)
    ensures Waits(Run(capacity, maxWaiters, events))
  {
    if events != [] {
      var before, e := events[..|events| - 1], events[|events| - 1];
      EveryRunWaits(capacity, maxWaiters, before);
      EveryRunConnected(capacity, maxWaiters, before);
      var p := Run(capacity, maxWaiters, before);
      match e
      case Write(w) => WriteWaits(p, w);
      case Consume(g) => ConsumeWaits(p, g);
      case _ => PullWaits(p, e);
    }
  }

  /** In every run: a generator that waits is scheduled if and only if there is an item for it, and then its
      check after the resumption holds. Its stream ends with an exception if and only if it has to wait and
      the channel allows no waiters at all. A destroyed generator is neither scheduled nor in the ring. */
  lemma PullFailsExactly<T(!new)>(capacity: nat, maxWaiters: nat, events: seq<Event<T>>, e: Event<T>)
    requires Possible(capacity, maxWaiters, events)
    ensures var p := Run(capacity, maxWaiters, events);
            && (p.blocked ==> (Enabled(p, PullResumed) <==> p.channel.chan.items != []))
            && (Enabled(p, e) && (e.Pull? || e.PullResumed?) ==>
                  (Step(p, e).stream.producer.Over? <==> p.channel.chan.items == [] && maxWaiters == 0))
            && (p.stream.producer.Destroyed? ==>
                  READER !in p.channel.wokenReaders && FirstWaiter(p.channel.chan.readers) == None)
  {
    var p := Run(capacity, maxWaiters, events);
    EveryRunWaits(capacity, maxWaiters, events);
    ChannelsStay(capacity, maxWaiters, events);
    RingOfOne(p.channel.chan.readers);
  }

  lemma ChannelStays<T>(s: C.System<T>, e: C.Event<T>)
    ensures C.Step(s, e).chan.maxWaiters == s.chan.maxWaiters
  {
  }

  lemma PipeStays<T>(p: Pipe<T>, e: Event<T>)
    ensures Step(p, e).channel.chan.maxWaiters == p.channel.chan.maxWaiters
  {
    match e
    case Write(w) => ChannelStays(p.channel, w);
    case Pull => ChannelStays(p.channel, C.Get(READER));
    case PullResumed => ChannelStays(p.channel, C.GetResumed(READER));
    case Consume(_) =>
      ChannelStays(p.channel, C.CancelReader(READER));
      ChannelStays(p.channel, C.CancelWokenReader(READER));
  }

  lemma {:induction false} ChannelsStay<T>(capacity: nat, maxWaiters: nat, events: seq<Event<T>>)
    ensures Run<T>(capacity, maxWaiters, events).channel.chan.maxWaiters == maxWaiters
  {
    if events != [] {
      ChannelsStay<T>(capacity, maxWaiters, events[..|events| - 1]);
      PipeStays(Run(capacity, maxWaiters, events[..|events| - 1]), events[|events| - 1]);
    }
  }
}
