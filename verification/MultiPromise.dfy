/** Generators (uvco/promise/multipromise.h): a promise core that can be filled, fetched and awaited
    again, and the handshake between a generator and its consumer. */
module Generators {
  import opened Wrappers
  import opened Schedulers
  import opened Cores

  /** A MultiPromiseCore: the inherited core, `suspended_` (parked at a co_yield) and `terminated_`. */
  datatype GenCore<T> = GenCore(base: Core<T>, suspended: bool, terminated: bool)

  function NewGenCore<T>(): GenCore<T> { GenCore(NewCore(), false, false) }

  /** What co_await of a generator gives: a value, nullopt, or an exception. */
  datatype Answer<T> = Got(value: T) | Ended | Raised(error: Exception)

  // ---- the specification ----------------------------------------------------------------------

  predicate AwaitReady<T>(g: GenCore<T>) { g.terminated || g.base.Ready() }

  /** setHandle() followed by resumeGenerator(), which enqueues the generator if `g.suspended`. */
  function Awaited<T>(g: GenCore<T>, h: Handle): GenCore<T> {
    GenCore(Core(WaitedOn, Some(h), g.base.slot), false, g.terminated)
  }

  /** The answer of await_resume(). */
  function Reply<T>(g: GenCore<T>): Answer<T> {
    match g.base.slot
    case None => Ended
    case Some(Value(v)) => Got(v)
    case Some(Thrown(e)) => Raised(e)
  }

  /** await_resume() takes a value out of the slot, but leaves an exception there. */
  function AfterReply<T>(g: GenCore<T>): GenCore<T> {
    if g.base.slot.Some? && g.base.slot.value.Value? then g.(base := AfterFetch(g.base)) else g
  }

  /** co_yield: fill the slot, resume the consumer, park. */
  function Yielded<T>(g: GenCore<T>, v: T): GenCore<T> {
    g.(base := Completed(g.base, Value(v)), suspended := true)
  }

  function Returned<T>(g: GenCore<T>): GenCore<T> {
    g.(base := Resumed(g.base), terminated := true)
  }

  function Threw<T>(g: GenCore<T>, e: Exception): GenCore<T> {
    g.(base := Completed(g.base, Thrown(e)), terminated := true)
  }

  // ---- the implementation ---------------------------------------------------------------------

  class MultiPromiseCore<T> {
    var slot: Option<Outcome<T>>
    var coroutine: Option<Handle>
    var waitingHandle: Option<Handle>
    var phase: Phase
    var suspended: bool
    var terminated: bool
    const loop: Scheduler

    constructor (loop: Scheduler, coroutine: Handle)
      ensures State() == NewGenCore() && this.coroutine == Some(coroutine) && this.loop == loop
    {
      slot, waitingHandle, phase, suspended, terminated := None, None, Init, false, false;
      this.coroutine := Some(coroutine);
      this.loop := loop;
    }

    ghost function State(): GenCore<T>
      reads this
    {
      GenCore(Core(phase, waitingHandle, slot), suspended, terminated)
    }

    method SetHandle(h: Handle)
      requires phase != WaitedOn && waitingHandle == None
      modifies this`waitingHandle, this`phase
      ensures phase == WaitedOn && waitingHandle == Some(h)
    {
      waitingHandle := Some(h);
      phase := WaitedOn;
    }

    method ResumeGenerator()
      requires phase != Finished && (suspended ==> coroutine.Some?)
      modifies this`suspended, loop
      ensures !suspended
      ensures loop.resumable == old(loop.resumable) + if old(suspended) then [coroutine] else []
    {
      if suspended {
        suspended := false;
        loop.Enqueue(coroutine.value);
      }
    }

    /** MultiPromiseAwaiter_::await_suspend. */
    method AwaitSuspend(h: Handle)
      requires phase != WaitedOn && waitingHandle == None && coroutine.Some?
      modifies this`waitingHandle, this`phase, this`suspended, loop
      ensures State() == Awaited(old(State()), h)
      ensures loop.resumable == old(loop.resumable) + if old(suspended) then [coroutine] else []
    {
      SetHandle(h);
      ResumeGenerator();
    }

    /** MultiPromiseAwaiter_::await_resume. */
    method AwaitResume() returns (r: Answer<T>)
      modifies this`slot
      ensures r == Reply(old(State())) && State() == AfterReply(old(State()))
    {
      match slot
      case None =>
        return Ended;
      case Some(Value(v)) =>
        slot := None;
        return Got(v);
      case Some(Thrown(e)) =>
        return Raised(e);
    }

    method Resume()
      requires waitingHandle.Some? ==> phase == WaitedOn
      modifies this`waitingHandle, this`phase, loop
      ensures waitingHandle == None && phase == Finished
      ensures loop.resumable == old(loop.resumable) + Wakes(old(State()).base)
    {
      if waitingHandle.Some? {
        var resume := waitingHandle.value;
        waitingHandle := None;
        loop.Enqueue(resume);
      }
      phase := Finished;
    }

    /** Generator<T>::yield_value and the awaiter it returns, which parks the generator. */
    method YieldValue(value: T)
      requires slot == None && !suspended && (waitingHandle.Some? ==> phase == WaitedOn)
      modifies this`slot, this`suspended, this`waitingHandle, this`phase, loop
      ensures State() == Yielded(old(State()), value)
      ensures loop.resumable == old(loop.resumable) + Wakes(old(State()).base)
    {
      slot := Some(Value(value));
      Resume();
      if slot.Some? {
        suspended := true;
      }
    }

    /** Generator<T>::return_void. */
    method ReturnVoid()
      requires waitingHandle.Some? ==> phase == WaitedOn
      modifies this`terminated, this`waitingHandle, this`phase, loop
      ensures State() == Returned(old(State()))
      ensures loop.resumable == old(loop.resumable) + Wakes(old(State()).base)
    {
      terminated := true;
      Resume();
    }

    /** Generator<T>::unhandled_exception. */
    method UnhandledException(error: Exception)
      requires waitingHandle.Some? ==> phase == WaitedOn
      modifies this`slot, this`terminated, this`waitingHandle, this`phase, loop
      ensures State() == Threw(old(State()), error)
      ensures loop.resumable == old(loop.resumable) + Wakes(old(State()).base)
    {
      slot := Some(Thrown(error));
      terminated := true;
      Resume();
    }

    /** The scheduler's part of cancelGenerator(), which always cancels. */
    method CancelGenerator()
      modifies this`terminated, this`coroutine, loop
      ensures terminated && coroutine == None
      ensures loop.resumable ==
              if old(coroutine).Some? then Cancelled(old(loop.resumable), old(coroutine).value)
              else old(loop.resumable)
    {
      terminated := true;
      if coroutine.Some? {
        var handle := coroutine.value;
        coroutine := None;
        loop.Cancel(handle);
      }
    }

    /** The scheduler's part of destroyCoroutine(), called by move-assignment. */
    method CancelCoroutine()
      modifies loop
      ensures loop.resumable ==
              if coroutine.Some? && phase != Finished
              then Cancelled(old(loop.resumable), coroutine.value) else old(loop.resumable)
    {
      if coroutine.Some? {
        if phase != Finished {
          loop.Cancel(coroutine.value);
        }
      }
    }
  }
}

/** All runs of one generator and its consumer. */
module GeneratorRuns {
  import opened Wrappers
  import opened Schedulers
  import opened Cores
  import opened Generators

  /** Where the generator is. `Busy` covers running and waiting for anything but its consumer. */
  datatype Producer = Busy | Parked | Rescheduled | Over | Destroyed

  datatype Consumer = Away | Waiting | Woken

  datatype Stream<T> = Stream(
    core: GenCore<T>,
    producer: Producer,
    consumer: Consumer,
    yielded: seq<T>,                 // every value passed to co_yield
    answers: seq<Answer<T>>,         // every result of co_await
    failure: Option<Exception>       // what the generator threw
  )

  datatype Event<T> =
    | Yield(value: T)
    | Return
    | Throw(error: Exception)
    | RunProducer        // the scheduler resumes the generator
    | Await(h: Handle)   // the consumer `h` awaits the generator
    | RunConsumer        // the scheduler resumes the consumer
    | Cancel             // the MultiPromise is dropped, cancelled, or assigned to

  /** Only a busy generator acts, only a free consumer awaits or cancels, and only scheduled
      coroutines are resumed. */
  predicate Enabled<T>(s: Stream<T>, e: Event<T>) {
    match e
    case Yield(_) => s.producer.Busy?
    case Return => s.producer.Busy?
    case Throw(_) => s.producer.Busy?
    case RunProducer => s.producer.Rescheduled?
    case Await(_) => s.consumer.Away?
    case RunConsumer => s.consumer.Woken?
    case Cancel => s.consumer.Away? && !s.producer.Destroyed?
  }

  /** The assertions in the bodies of co_yield and co_await. */
  predicate Asserts<T(==)>(s: Stream<T>, e: Event<T>) {
    match e
    case Yield(_) => s.core.base.slot == None && !s.core.suspended
    case Await(_) =>
      if s.producer.Destroyed? || AwaitReady(s.core) then Reply(s.core).Raised? ==> s.core.terminated
      else !s.core.base.phase.WaitedOn? && !s.core.base.IsAwaited()
    case RunConsumer => Reply(s.core).Raised? ==> s.core.terminated
    case _ => true
  }

  function Wake(c: Consumer): Consumer { if c.Waiting? then Woken else c }

  function Step<T>(s: Stream<T>, e: Event<T>): Stream<T> {
    match e
    case Yield(v) =>
      s.(core := Yielded(s.core, v), producer := Parked, consumer := Wake(s.consumer), yielded := s.yielded + [v])
    case Return =>
      s.(core := Returned(s.core), producer := Over, consumer := Wake(s.consumer))
    case Throw(x) =>
      s.(core := Threw(s.core, x), producer := Over, consumer := Wake(s.consumer), failure := Some(x))
    case RunProducer => s.(producer := Busy)
    case Await(h) =>
      // a destroyed generator has left a MultiPromise without a core
      if s.producer.Destroyed? then s.(answers := s.answers + [Ended])
      else if AwaitReady(s.core) then s.(core := AfterReply(s.core), answers := s.answers + [Reply(s.core)])
      else s.(core := Awaited(s.core, h),
              producer := if s.core.suspended then Rescheduled else s.producer,
              consumer := Waiting)
    case RunConsumer =>
      s.(core := AfterReply(s.core), consumer := Away, answers := s.answers + [Reply(s.core)])
    case Cancel => s.(producer := Destroyed)
  }

  function Init<T>(): Stream<T> { Stream(NewGenCore(), Busy, Away, [], [], None) }

  function Run<T>(events: seq<Event<T>>): Stream<T> {
    if events == [] then Init() else Step(Run(events[..|events| - 1]), events[|events| - 1])
  }

  predicate Possible<T>(events: seq<Event<T>>) {
    events == [] || (Possible(events[..|events| - 1]) && Enabled(Run(events[..|events| - 1]), events[|events| - 1]))
  }

  /** The values among the answers. */
  function Received<T>(answers: seq<Answer<T>>): seq<T> {
    if answers == [] then []
    else Received(answers[..|answers| - 1])
         + if answers[|answers| - 1].Got? then [answers[|answers| - 1].value] else []
  }

  function InSlot<T>(g: GenCore<T>): seq<T> {
    if g.base.slot.Some? && g.base.slot.value.Value? then [g.base.slot.value.value] else []
  }

  /** How the stream ends for its consumer. */
  function Final<T>(s: Stream<T>): Answer<T> {
    if s.failure.Some? && !s.producer.Destroyed? then Raised(s.failure.value) else Ended
  }

  ghost predicate Handshake<T(!new)>(s: Stream<T>) {
    var c := s.core.base;
    && !s.producer.Destroyed?
    && c.WellFormed()
    && (c.IsAwaited() <==> s.consumer.Waiting?)
    && (s.core.suspended <==> s.producer.Parked?)
    && (s.core.terminated <==> s.producer.Over?)
    && (s.producer.Busy? || s.producer.Rescheduled? ==> c.slot == None && !c.phase.Finished?)
    && (s.producer.Rescheduled? ==> s.consumer.Waiting?)
    && (s.producer.Parked? ==> c.phase.Finished? && (c.slot.Some? ==> c.slot.value.Value?))
    && (s.producer.Over? ==> c.phase.Finished?
                             && c.slot == if s.failure.Some? then Some(Thrown(s.failure.value)) else None)
    && (s.consumer.Woken? ==> s.producer.Over? || (s.producer.Parked? && c.Ready()))
    && (!s.producer.Over? ==> s.failure == None)
    && Received(s.answers) + InSlot(s.core) == s.yielded
    && forall a :: a in s.answers && !a.Got? ==> s.producer.Over? && a == Final(s)
  }

  /** After a cancellation exactly the value in the slot is lost, and every further answer is nullopt. */
  ghost predicate Abandoned<T(!new)>(s: Stream<T>) {
    s.producer.Destroyed? && s.consumer.Away? && Received(s.answers) + InSlot(s.core) == s.yielded
  }

  lemma ReceivedOne<T>(answers: seq<Answer<T>>, a: Answer<T>)
    ensures Received(answers + [a]) == Received(answers) + if a.Got? then [a.value] else []
  {
    assert (answers + [a])[..|answers|] == answers;
  }

  lemma ProducerKeepsHandshake<T(!new)>(s: Stream<T>, e: Event<T>)
    requires Handshake(s) && Enabled(s, e) && !e.Cancel? && !e.Await? && !e.RunConsumer?
    ensures Asserts(s, e) && Handshake(Step(s, e))
  {
    assert Received(s.answers) + [] == Received(s.answers);
  }

  lemma ReplyKeepsHandshake<T(!new)>(s: Stream<T>)
    requires Handshake(s) && (s.consumer.Woken? || (s.consumer.Away? && AwaitReady(s.core)))
    ensures Reply(s.core).Raised? ==> s.core.terminated
    ensures Handshake(s.(core := AfterReply(s.core), consumer := Away, answers := s.answers + [Reply(s.core)]))
  {
    var r := Reply(s.core);
    var next := s.(core := AfterReply(s.core), consumer := Away, answers := s.answers + [r]);
    ReceivedOne(s.answers, r);
    assert Received(next.answers) + InSlot(next.core) == s.yielded by {
      assert InSlot(next.core) == [];
      assert InSlot(s.core) == if r.Got? then [r.value] else [];
    }
    forall a | a in next.answers && !a.Got?
      ensures next.producer.Over? && a == Final(next)
    {
      assert a in s.answers || a == r;
    }
  }

  lemma ConsumerKeepsHandshake<T(!new)>(s: Stream<T>, e: Event<T>)
    requires Handshake(s) && Enabled(s, e) && (e.Await? || e.RunConsumer?)
    ensures Asserts(s, e) && Handshake(Step(s, e))
  {
    if e.RunConsumer? || AwaitReady(s.core) {
      ReplyKeepsHandshake(s);
      assert Step(s, e) == s.(core := AfterReply(s.core), consumer := Away, answers := s.answers + [Reply(s.core)]);
    } else {
      assert Step(s, e).answers == s.answers && InSlot(Step(s, e).core) == InSlot(s.core);
    }
  }

  lemma HandshakeKept<T(!new)>(s: Stream<T>, e: Event<T>)
    requires Handshake(s) && Enabled(s, e) && !e.Cancel?
    ensures Asserts(s, e) && Handshake(Step(s, e))
  {
    if e.Await? || e.RunConsumer? {
      ConsumerKeepsHandshake(s, e);
    } else {
      ProducerKeepsHandshake(s, e);
    }
  }

  lemma AnyStep<T(!new)>(s: Stream<T>, e: Event<T>)
    requires if s.producer.Destroyed? then Abandoned(s) else Handshake(s)
    requires Enabled(s, e)
    ensures var s' := Step(s, e); if s'.producer.Destroyed? then Abandoned(s') else Handshake(s')
  {
    assert Received(s.answers) + [] == Received(s.answers);
    if s.producer.Destroyed? {
      ReceivedOne(s.answers, Ended);
    } else if !e.Cancel? {
      HandshakeKept(s, e);
    }
  }

  lemma {:induction false} EveryRunShakesHands<T(!new)>(events: seq<Event<T>>)
    requires Possible(events)
    ensures var s := Run(events); if s.producer.Destroyed? then Abandoned(s) else Handshake(s)
  {
    if events != [] {
      EveryRunShakesHands(events[..|events| - 1]);
      AnyStep(Run(events[..|events| - 1]), events[|events| - 1]);
    }
  }

  /** In every run what was yielded is what the consumer has received, followed by what is in the slot:
      the consumer is at most one value behind, and destroying the generator loses exactly that value. */
  lemma StreamFidelity<T(!new)>(events: seq<Event<T>>)
    requires Possible(events)
    ensures var s := Run(events);
            && s.yielded == Received(s.answers) + InSlot(s.core)
            && |s.yielded| <= |Received(s.answers)| + 1
  {
    EveryRunShakesHands(events);
  }

  /** No assertion in the handshake ever fails; above all, a generator finds its slot empty at co_yield. */
  lemma AssertionsHold<T(!new)>(events: seq<Event<T>>, e: Event<T>)
    requires Possible(events) && Enabled(Run(events), e)
    ensures !Run(events).producer.Destroyed? ==> Asserts(Run(events), e)
  {
    EveryRunShakesHands(events);
    var s := Run(events);
    if !s.producer.Destroyed? && !e.Cancel? {
      HandshakeKept(s, e);
    }
  }

  /** After the generator has returned, each co_await gives nullopt; after it has thrown, each one
      rethrows that exception; and by then every yielded value has been received. */
  lemma EndIsFinal<T(!new)>(events: seq<Event<T>>, h: Handle)
    requires Possible(events) && Run(events).producer.Over? && Run(events).consumer.Away?
    ensures var s := Run(events);
            && Received(s.answers) == s.yielded
            && AwaitReady(s.core)
            && Step(s, Await(h)) == s.(answers := s.answers + [Final(s)])
  {
    EveryRunShakesHands(events);
    var s := Run(events);
    assert Received(s.answers) + [] == Received(s.answers);
  }

  /** A core that is finished belongs to a generator that is parked at a co_yield or over, so that
      the cancellation which move-assignment skips for finished cores would find no handle. */
  lemma FinishedIsNotScheduled<T(!new)>(events: seq<Event<T>>)
    requires Possible(events) && !Run(events).producer.Destroyed?
    ensures var s := Run(events);
            s.core.base.phase.Finished? <==> s.producer.Parked? || s.producer.Over?
  {
    EveryRunShakesHands(events);
  }
}
