/** `PromiseCore<void>` and `Promise<void>` (uvco/promise/promise_core.cc, promise.cc): the same
    state machine written a second time, with a flag and an exception instead of a slot. */
module VoidCores {
  import opened Wrappers
  import opened Schedulers
  import opened Cores

  /** The fields of a void core. */
  datatype VoidCore = VoidCore(phase: Phase, waiting: Option<Handle>, ready: bool, exception: Option<Exception>)
  {
    /** PromiseCore<void>::ready(), which is not Promise<void>::ready(). */
    predicate Ready() { exception.Some? || ready }

    predicate Stale() { phase.Finished? && !Ready() }

    /** The core of a value-carrying promise that this one stands for. */
    function AsCore(): Core<()> {
      Core(phase, waiting,
           if exception.Some? then Some(Thrown(exception.value))
           else if ready then Some(Value(())) else None)
    }

    /** except() sets the flag together with the exception, and nothing clears it after that. */
    predicate WellFormed() {
      AsCore().WellFormed() && (exception.Some? ==> ready)
    }
  }

  class PromiseCoreVoid {
    var ready: bool
    var exception: Option<Exception>
    var coroutine: Option<Handle>
    var waitingHandle: Option<Handle>
    var phase: Phase
    const loop: Scheduler

    constructor (loop: Scheduler)
      ensures State().WellFormed() && State().AsCore() == NewCore() && coroutine == None && this.loop == loop
    {
      ready, exception, coroutine, waitingHandle, phase := false, None, None, None, Init;
      this.loop := loop;
    }

    ghost function State(): VoidCore
      reads this
    {
      VoidCore(phase, waitingHandle, ready, exception)
    }

    method SetHandle(h: Handle) returns (r: Result<(), Failure>)
      modifies this`waitingHandle, this`phase
      ensures match Registered(old(State()).AsCore(), h)
              case Ok(c) => r == Ok(()) && State().AsCore() == c
              case Err(f) => r == Err(f) && State() == old(State())
    {
      if phase != Init {
        return Err(AlreadyAwaitedOrFinished);
      }
      waitingHandle := Some(h);
      phase := WaitedOn;
      return Ok(());
    }

    method ResetHandle()
      requires State().WellFormed()
      modifies this`waitingHandle, this`phase
      ensures State().WellFormed() && State().AsCore() == Deregistered(old(State()).AsCore())
      ensures State().waiting == None
    {
      waitingHandle := None;
      if phase == WaitedOn {
        phase := Init;
      }
    }

    method Resume()
      requires waitingHandle.Some? ==> phase == WaitedOn
      modifies this`waitingHandle, this`phase, loop
      ensures State().AsCore() == Resumed(old(State()).AsCore())
      ensures loop.resumable == old(loop.resumable) + Wakes(old(State()).AsCore())
    {
      if waitingHandle.Some? {
        var resume := waitingHandle.value;
        waitingHandle := None;
        loop.Enqueue(resume);
      }
      phase := Finished;
    }

    method CancelCoroutine()
      modifies loop
      ensures loop.resumable ==
              if coroutine.Some? && phase != Finished
              then Cancelled(old(loop.resumable), coroutine.value) else old(loop.resumable)
    {
      if coroutine.Some? {
        if phase != Finished {
          loop.Cancel(coroutine.value);
        }
      }
    }

    /** Coroutine<void>::return_void. */
    method ReturnVoid()
      requires State().WellFormed() && phase != Finished
      modifies this, loop
      ensures State().WellFormed() && State().AsCore() == Completed(old(State()).AsCore(), Value(()))
      ensures coroutine == old(coroutine)
      ensures loop.resumable == old(loop.resumable) + Wakes(old(State()).AsCore())
    {
      ready := true;
      Resume();
    }

    /** Coroutine<void>::unhandled_exception. */
    method UnhandledException(error: Exception)
      requires State().WellFormed() && phase != Finished
      modifies this, loop
      ensures State().WellFormed() && State().AsCore() == Completed(old(State()).AsCore(), Thrown(error))
      ensures coroutine == old(coroutine)
      ensures loop.resumable == old(loop.resumable) + Wakes(old(State()).AsCore())
    {
      exception := Some(error);
      ready := true;
      Resume();
    }

    /** PromiseAwaiter_::await_resume: a stored exception is rethrown, and stays, so that every later
        co_await rethrows it again, where `Promise<T>` reports a fetched promise; a return is reported
        once. The result is the one of a value-carrying promise, and so is the new state if and only
        if no exception is rethrown. */
    method AwaitResume() returns (r: Result<(), Failure>)
      requires State().WellFormed() && phase == Finished
      modifies this`ready
      ensures old(exception).Some? ==> r == Err(Rethrown(old(exception).value)) && State() == old(State())
      ensures old(exception).None? && old(ready) ==> r == Ok(()) && State() == old(State()).(ready := false)
      ensures old(exception).None? && !old(ready) ==> r == Err(FinishedBefore) && State() == old(State())
      ensures r == Fetched(old(State()).AsCore()) && State().WellFormed()
      ensures State().AsCore() == AfterFetch(old(State()).AsCore()) <==> old(State()).exception.None?
    {
      if phase == Finished && !(exception.Some? || ready) {
        return Err(FinishedBefore);
      }
      if exception.Some? {
        return Err(Rethrown(exception.value));
      }
      ready := false;
      return Ok(());
    }

    /** Promise<void>::unwrap consumes nothing, so that unwrapping differs from a value-carrying
        promise exactly when it succeeds. */
    method Unwrap() returns (r: Result<(), Failure>)
      requires State().WellFormed()
      ensures exception.Some? ==> r == Err(Rethrown(exception.value))
      ensures exception.None? ==> r == if ready then Ok(()) else Err(Unfulfilled)
      ensures r == Unwrapped(State().AsCore())
      ensures State().AsCore() == AfterUnwrap(State().AsCore()) <==> r.Err?
    {
      if ready {
        if exception.Some? {
          return Err(Rethrown(exception.value));
        }
        return Ok(());
      }
      return Err(Unfulfilled);
    }
  }
}
