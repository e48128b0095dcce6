/** The state shared by a coroutine and the promise that refers to it (uvco/promise/promise_core.h,
    and the parts of uvco/promise/promise.h that fill and empty its slot). */
module Cores {
  import opened Wrappers
  import opened Schedulers

  datatype Phase = Init | WaitedOn | Finished

  /** An exception pointer; what it points to does not matter here. */
  type Exception = nat

  datatype Outcome<+T> = Value(value: T) | Thrown(error: Exception)

  datatype Failure =
    | AlreadyAwaitedOrFinished  // setHandle
    | FinishedBefore            // co_await of a promise whose result has been fetched
    | Unfulfilled               // unwrap or await_resume without a result
    | Rethrown(error: Exception)

  // ---- the specification ----------------------------------------------------------------------

  datatype Core<T> = Core(phase: Phase, waiting: Option<Handle>, slot: Option<Outcome<T>>)
  {
    predicate IsAwaited() { waiting.Some? }

    predicate Ready() { slot.Some? }

    predicate Stale() { phase.Finished? && !Ready() }

    /** What resetHandle() asserts about every core, and that only a finished core has a result. */
    predicate WellFormed() {
      && (IsAwaited() <==> phase.WaitedOn?)
      && (Ready() ==> phase.Finished?)
    }
  }

  function NewCore<T>(): Core<T> { Core(Init, None, None) }

  function Registered<T>(c: Core<T>, h: Handle): Result<Core<T>, Failure> {
    if c.phase.Init? then Ok(c.(waiting := Some(h), phase := WaitedOn)) else Err(AlreadyAwaitedOrFinished)
  }

  function Deregistered<T>(c: Core<T>): Core<T> {
    if c.phase.WaitedOn? then c.(waiting := None, phase := Init) else c
  }

  /** The core after resume(); the handle it enqueues is `c.waiting`. */
  function Resumed<T>(c: Core<T>): Core<T> {
    c.(waiting := None, phase := Finished)
  }

  /** The coroutine has returned or thrown: its outcome is stored, and the waiter resumed. */
  function Completed<T>(c: Core<T>, o: Outcome<T>): Core<T> {
    Resumed(c.(slot := Some(o)))
  }

  /** What is enqueued when a core is resumed. */
  function Wakes<T>(c: Core<T>): seq<Entry> {
    if c.waiting.Some? then [c.waiting] else []
  }

  /** The result of await_resume(), which empties the slot even if it holds an exception. */
  function Fetched<T>(c: Core<T>): Result<T, Failure> {
    if c.Stale() then Err(FinishedBefore)
    else match c.slot
         case Some(Value(v)) => Ok(v)
         case Some(Thrown(e)) => Err(Rethrown(e))
         case None => Err(Unfulfilled)
  }

  function AfterFetch<T>(c: Core<T>): Core<T> { c.(slot := None) }

  /** The result of unwrap(), which leaves an exception in the slot. */
  function Unwrapped<T>(c: Core<T>): Result<T, Failure> {
    match c.slot
    case Some(Value(v)) => Ok(v)
    case Some(Thrown(e)) => Err(Rethrown(e))
    case None => Err(Unfulfilled)
  }

  function AfterUnwrap<T>(c: Core<T>): Core<T> {
    if c.slot.Some? && c.slot.value.Value? then c.(slot := None) else c
  }

  // ---- the implementation ---------------------------------------------------------------------

  class PromiseCore<T> {
    var slot: Option<Outcome<T>>
    var coroutine: Option<Handle>
    var waitingHandle: Option<Handle>
    var phase: Phase
    const loop: Scheduler

    constructor (loop: Scheduler)
      ensures State() == NewCore() && coroutine == None && this.loop == loop
    {
      slot, coroutine, waitingHandle, phase := None, None, None, Init;
      this.loop := loop;
    }

    ghost function State(): Core<T>
      reads this
    {
      Core(phase, waitingHandle, slot)
    }

    method SetHandle(h: Handle) returns (r: Result<(), Failure>)
      modifies this`waitingHandle, this`phase
      ensures Registered(old(State()), h).Ok? ==> r == Ok(()) && Registered(old(State()), h) == Ok(State())
      ensures Registered(old(State()), h).Err? ==>
                r == Err(AlreadyAwaitedOrFinished) && State() == old(State())
    {
      if phase != Init {
        return Err(AlreadyAwaitedOrFinished);
      }
      waitingHandle := Some(h);
      phase := WaitedOn;
      return Ok(());
    }

    method ResetHandle()
      requires State().WellFormed()
      modifies this`waitingHandle, this`phase
      ensures State() == Deregistered(old(State())) && State().WellFormed()
      ensures State().waiting == None
    {
      if phase == WaitedOn {
        waitingHandle := None;
        phase := Init;
      }
    }

    method Resume()
      requires waitingHandle.Some? ==> phase == WaitedOn
      modifies this`waitingHandle, this`phase, loop
      ensures State() == Resumed(old(State()))
      ensures loop.resumable == old(loop.resumable) + Wakes(old(State()))
    {
      if waitingHandle.Some? {
        var resume := waitingHandle.value;
        waitingHandle := None;
        loop.Enqueue(resume);
      }
      phase := Finished;
    }

    /** The scheduler's part of destroyCoroutine(); the frame itself is destroyed afterwards. */
    method CancelCoroutine()
      modifies loop
      ensures loop.resumable ==
              if coroutine.Some? && phase != Finished
              then Cancelled(old(loop.resumable), coroutine.value) else old(loop.resumable)
    {
      if coroutine.Some? {
        if phase != Finished {
          loop.Cancel(coroutine.value);
        }
      }
    }

    /** Coroutine<T>::return_value. */
    method ReturnValue(value: T)
      requires State().WellFormed() && !(slot.Some? && slot.value.Value?)
      modifies this`slot, this`waitingHandle, this`phase, loop
      ensures old(slot) == None ==>
                && State() == Completed(old(State()), Value(value))
                && loop.resumable == old(loop.resumable) + Wakes(old(State()))
      ensures old(slot) != None ==> State() == old(State()) && loop.resumable == old(loop.resumable)
    {
      if slot.Some? && slot.value.Thrown? {
        return;
      }
      slot := Some(Value(value));
      Resume();
    }

    /** Coroutine<T>::unhandled_exception. */
    method UnhandledException(error: Exception)
      requires State().WellFormed()
      modifies this`slot, this`waitingHandle, this`phase, loop
      ensures State() == Completed(old(State()), Thrown(error))
      ensures loop.resumable == old(loop.resumable) + Wakes(old(State()))
    {
      slot := Some(Thrown(error));
      Resume();
    }

    /** PromiseAwaiter_::await_resume. */
    method AwaitResume() returns (r: Result<T, Failure>)
      modifies this`slot
      ensures r == Fetched(old(State())) && State() == AfterFetch(old(State()))
    {
      if phase == Finished && slot == None {
        return Err(FinishedBefore);
      }
      match slot
      case Some(Value(v)) =>
        slot := None;
        return Ok(v);
      case Some(Thrown(e)) =>
        slot := None;
        return Err(Rethrown(e));
      case None =>
        return Err(Unfulfilled);
    }

    /** Promise<T>::unwrap. */
    method Unwrap() returns (r: Result<T, Failure>)
      modifies this`slot
      ensures r == Unwrapped(old(State())) && State() == AfterUnwrap(old(State()))
    {
      match slot
      case Some(Value(v)) =>
        slot := None;
        return Ok(v);
      case Some(Thrown(e)) =>
        return Err(Rethrown(e));
      case None =>
        return Err(Unfulfilled);
    }
  }
}

/** Everything that can happen to one promise, in any order. */
module PromiseRuns {
  import opened Wrappers
  import opened Schedulers
  import opened Cores

  datatype Event<T> =
    | Register(h: Handle)     // a coroutine, or a select set, starts waiting
    | Deregister              // a select set gives up waiting
    | Finish(o: Outcome<T>)   // the coroutine returns or throws
    | Fetch                   // await_resume
    | Unwrap

  /** A core, and what has been observed of it. */
  datatype Log<T> = Log(
    core: Core<T>,
    result: Option<Outcome<T>>,  // what the coroutine returned or threw
    delivered: seq<T>,           // the values handed out
    rethrown: seq<Exception>,    // the exceptions handed out
    woken: seq<Entry>            // the handles it put into the scheduler
  )

  /** What a co_await or an unwrap has given is handed out. */
  function Handed<T>(l: Log<T>, core: Core<T>, answer: Result<T, Failure>): Log<T> {
    match answer
    case Ok(v) => l.(core := core, delivered := l.delivered + [v])
    case Err(Rethrown(x)) => l.(core := core, rethrown := l.rethrown + [x])
    case Err(_) => l.(core := core)
  }

  function Step<T>(l: Log<T>, e: Event<T>): Log<T> {
    match e
    case Register(h) =>
      (match Registered(l.core, h)
       case Ok(c) => l.(core := c)
       case Err(_) => l)
    case Deregister => l.(core := Deregistered(l.core))
    case Finish(o) =>
      l.(core := Completed(l.core, o), result := Some(o), woken := l.woken + Wakes(l.core))
    case Fetch => Handed(l, AfterFetch(l.core), Fetched(l.core))
    case Unwrap => Handed(l, AfterUnwrap(l.core), Unwrapped(l.core))
  }

  function Run<T>(events: seq<Event<T>>): Log<T> {
    if events == [] then Log(NewCore(), None, [], [], [])
    else Step(Run(events[..|events| - 1]), events[|events| - 1])
  }

  /** A coroutine ends once. */
  predicate EndsOnce<T(==)>(events: seq<Event<T>>) {
    forall i, j :: 0 <= i < j < |events| && events[i].Finish? ==> !events[j].Finish?
  }

  /** Nothing is handed out before the result, and nothing but the result: a value only once, and an
      exception only as it was thrown. A result that has not been handed out is still in the slot. At
      most one waiter is ever woken. */
  predicate Delivery<T(==)>(l: Log<T>) {
    && l.core.WellFormed()
    && (l.core.phase.Finished? <==> l.result.Some?)
    && (l.core.slot.Some? ==> l.core.slot == l.result)
    && (match l.result
        case Some(Value(v)) => l.rethrown == [] && l.delivered == if l.core.Ready() then [] else [v]
        case Some(Thrown(x)) =>
          && l.delivered == [] && (forall y :: y in l.rethrown ==> y == x)
          && (l.core.Ready() || l.rethrown != [])
        case None => l.delivered == [] && l.rethrown == [])
    && |l.woken| <= 1
    && (l.woken != [] ==> l.core.phase.Finished?)
  }

  /** The only way back in a promise's life is giving up a wait; a finished one stays finished. */
  predicate PhaseStep<T>(p: Phase, e: Event<T>, p': Phase) {
    && (p.WaitedOn? && p'.Init? ==> e.Deregister?)
    && (p.Init? && p'.WaitedOn? ==> e.Register?)
    && (!p.Finished? && p'.Finished? ==> e.Finish?)
    && (p.Finished? ==> p'.Finished?)
  }

  lemma DeliveryKept<T>(l: Log<T>, e: Event<T>)
    requires Delivery(l) && (e.Finish? ==> l.result.None?)
    ensures Delivery(Step(l, e)) && PhaseStep(l.core.phase, e, Step(l, e).core.phase)
  {
  }

  lemma {:induction false} EveryRunDelivers<T>(events: seq<Event<T>>)
    requires EndsOnce(events)
    ensures Delivery(Run(events))
    ensures Run(events).result.Some? <==> exists i :: 0 <= i < |events| && events[i].Finish?
  {
    if events != [] {
      var before, e := events[..|events| - 1], events[|events| - 1];
      assert forall i :: 0 <= i < |before| ==> before[i] == events[i];
      assert EndsOnce(before);
      EveryRunDelivers(before);
      if Run(before).result.Some? {
        var i :| 0 <= i < |before| && before[i].Finish?;
        assert events[i].Finish?;
      }
      DeliveryKept(Run(before), e);
    }
  }

  lemma EndsOnceBefore<T>(events: seq<Event<T>>)
    requires events != [] && EndsOnce(events)
    ensures var before, e := events[..|events| - 1], events[|events| - 1];
            && EndsOnce(before)
            && (e.Finish? ==> Run(before).result.None? && forall i :: 0 <= i < |before| ==> !before[i].Finish?)
  {
    var before := events[..|events| - 1];
    assert forall i :: 0 <= i < |before| ==> before[i] == events[i];
    EveryRunDelivers(before);
  }

  /** The result is what the coroutine's end says. */
  lemma {:induction false} ResultIsTheOutcome<T>(events: seq<Event<T>>, o: Outcome<T>)
    requires EndsOnce(events)
    ensures Run(events).result == Some(o) <==> Finish(o) in events
  {
    if events != [] {
      var before, e := events[..|events| - 1], events[|events| - 1];
      assert events == before + [e];
      EndsOnceBefore(events);
      ResultIsTheOutcome(before, o);
    }
  }

  lemma {:induction false} EveryRunGoesForward<T>(events: seq<Event<T>>, n: nat)
    requires EndsOnce(events) && n < |events|
    ensures PhaseStep(Run(events[..n]).core.phase, events[n], Run(events[..n + 1]).core.phase)
  {
    var before := events[..n];
    assert events[..n + 1] == before + [events[n]];
    forall i | 0 <= i < n && before[i].Finish?
      ensures !events[n].Finish?
    {
      assert events[i].Finish?;
    }
    assert EndsOnce(before);
    EveryRunDelivers(before);
    DeliveryKept(Run(before), events[n]);
    var upTo := before + [events[n]];
    assert upTo[..|upTo| - 1] == before;
  }

  /** What a co_await or an unwrap gives for an outcome. */
  function Given<T>(o: Outcome<T>): Result<T, Failure> {
    match o
    case Value(v) => Ok(v)
    case Thrown(x) => Err(Rethrown(x))
  }

  /** Since the coroutine has ended, its result has been fetched; unwrapping fetches only values. */
  predicate TakenSince<T>(events: seq<Event<T>>, o: Outcome<T>) {
    exists i, j :: 0 <= i < j < |events| && events[i].Finish? && (events[j].Fetch? || (o.Value? && events[j].Unwrap?))
  }

  lemma TakenLast<T>(events: seq<Event<T>>, o: Outcome<T>)
    requires events != []
    ensures var before, e := events[..|events| - 1], events[|events| - 1];
            TakenSince(events, o)
            <==> TakenSince(before, o)
                 || ((e.Fetch? || (o.Value? && e.Unwrap?)) && exists i :: 0 <= i < |before| && before[i].Finish?)
  {
    var before, e := events[..|events| - 1], events[|events| - 1];
    if TakenSince(before, o) {
      var i, j :| 0 <= i < j < |before| && before[i].Finish? && (before[j].Fetch? || (o.Value? && before[j].Unwrap?));
      assert events[i].Finish? && (events[j].Fetch? || (o.Value? && events[j].Unwrap?));
    }
    if e.Fetch? || (o.Value? && e.Unwrap?) {
      if i :| 0 <= i < |before| && before[i].Finish? {
        assert events[i].Finish? && events[|events| - 1] == e;
      }
    }
    if TakenSince(events, o) {
      var i, j :| 0 <= i < j < |events| && events[i].Finish? && (events[j].Fetch? || (o.Value? && events[j].Unwrap?));
      assert before[i].Finish?;
      assert j < |before| ==> before[j] == events[j];
    }
  }

  lemma {:induction false} ReadyUntilTaken<T>(events: seq<Event<T>>, o: Outcome<T>)
    requires EndsOnce(events) && Run(events).result == Some(o)
    ensures Run(events).core.Ready() <==> !TakenSince(events, o)
  {
    var before, e := events[..|events| - 1], events[|events| - 1];
    EndsOnceBefore(events);
    EveryRunDelivers(before);
    TakenLast(events, o);
    if !e.Finish? {
      ReadyUntilTaken(before, o);
    }
  }

  /** The first co_await after the coroutine has ended gives its outcome, be it a value or an exception,
      and every later one reports that it has been fetched before. So does unwrapping, except that it can
      be repeated as long as it gives an exception. Before the end both report that there is no result. */
  lemma FirstTakerGetsTheOutcome<T>(events: seq<Event<T>>)
    requires EndsOnce(events)
    ensures var l := Run(events);
            match l.result
            case None => Fetched(l.core) == Unwrapped(l.core) == Err(Unfulfilled)
            case Some(o) =>
              && Fetched(l.core) == (if TakenSince(events, o) then Err(FinishedBefore) else Given(o))
              && Unwrapped(l.core) == (if TakenSince(events, o) then Err(Unfulfilled) else Given(o))
  {
    EveryRunDelivers(events);
    if o :| Run(events).result == Some(o) {
      ReadyUntilTaken(events, o);
    }
  }

  /** Once its value has been fetched, by co_await or by unwrap, every later co_await throws: it
      neither returns at once, nor suspends, nor finds a value. */
  lemma {:induction false} LaterAwaitsThrow<T>(events: seq<Event<T>>, h: Handle)
    requires EndsOnce(events) && Run(events).delivered != []
    ensures var c := Run(events).core;
            c.Stale() && Registered(c, h).Err? && Fetched(c) == Err(FinishedBefore) && Unwrapped(c).Err?
  {
    EveryRunDelivers(events);
  }

  lemma Extended<T>(events: seq<Event<T>>, e: Event<T>)
    ensures Run(events + [e]) == Step(Run(events), e)
  {
    assert (events + [e])[..|events|] == events;
  }

  /** Whoever registers with a promise is woken when its coroutine ends, unless it gives up before. */
  lemma WhoRegistersIsWoken<T>(events: seq<Event<T>>, h: Handle, o: Outcome<T>)
    requires EndsOnce(events)
    ensures Run(events).core.phase.Init? ==>
              && Run(events + [Register(h)] + [Finish(o)]).woken == [Some(h)]
              && Run(events + [Register(h)] + [Deregister] + [Finish(o)]).woken == []
  {
    EveryRunDelivers(events);
    Extended(events, Register(h));
    Extended(events + [Register(h)], Finish(o));
    Extended(events + [Register(h)], Deregister);
    Extended(events + [Register(h)] + [Deregister], Finish(o));
  }

  /** A waiter that stays registered until the coroutine ends is the one that is woken. */
  lemma {:induction false} RegisteredIsWoken<T>(events: seq<Event<T>>, h: Handle, o: Outcome<T>)
    requires EndsOnce(events + [Finish(o)])
    ensures Run(events).core.waiting == Some(h) ==> Run(events + [Finish(o)]).woken == [Some(h)]
    ensures Run(events).core.waiting == None ==> Run(events + [Finish(o)]).woken == []
  {
    var all := events + [Finish(o)];
    assert all[..|all| - 1] == events;
    forall i | 0 <= i < |events|
      ensures events[i] == all[i] && !events[i].Finish?
    {
      assert all[|events|].Finish?;
    }
    assert EndsOnce(events);
    EveryRunDelivers(events);
  }
}
