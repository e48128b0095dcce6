/** Waiting for the first of several promises (uvco/promise/select.h). */
module Selects {
  import opened Wrappers
  import opened Schedulers
  import opened Cores

  predicate AnyReady<T>(cs: seq<Core<T>>) {
    exists i :: 0 <= i < |cs| && cs[i].Ready()
  }

  /** `indices` lists exactly the ready members, in index order. */
  ghost predicate ListsReady<T>(indices: seq<nat>, cs: seq<Core<T>>) {
    && (forall i: nat :: i in indices <==> i < |cs| && cs[i].Ready())
    && (forall j, k :: 0 <= j < k < |indices| ==> indices[j] < indices[k])
  }

  function ReadyBelow<T>(cs: seq<Core<T>>, n: nat): (ready: seq<nat>)
    requires n <= |cs|
    ensures forall j :: 0 <= j < |ready| ==> ready[j] < n
    ensures forall j, k :: 0 <= j < k < |ready| ==> ready[j] < ready[k]
    ensures forall i: nat :: i in ready <==> i < n && cs[i].Ready()
  {
    if n == 0 then [] else ReadyBelow(cs, n - 1) + if cs[n - 1].Ready() then [n - 1] else []
  }

  function ReadyMembers<T>(cs: seq<Core<T>>): (ready: seq<nat>)
    ensures ListsReady(ready, cs)
    ensures forall j :: 0 <= j < |ready| ==> ready[j] < |cs|
  {
    ReadyBelow(cs, |cs|)
  }

  lemma NothingListed<T>(cs: seq<Core<T>>)
    ensures ReadyMembers(cs) == [] <==> !AnyReady(cs)
  {
    var ready := ReadyMembers(cs);
    if i: nat :| i < |cs| && cs[i].Ready() {
      assert i in ready;
    }
    if ready != [] {
      assert ready[0] in ready;
    }
  }

  /** A member once the selecting coroutine has registered with all that can still finish. */
  function Joined<T>(c: Core<T>, h: Handle): Core<T> {
    if c.Stale() then c else Core(WaitedOn, Some(h), c.slot)
  }

  function Suspended<T>(cs: seq<Core<T>>, h: Handle): (r: seq<Core<T>>)
  {
    seq(|cs|, i requires 0 <= i < |cs| => Joined(cs[i], h))
  }

  /** A member once nobody is registered with one that is not ready. */
  function LetGo<T>(c: Core<T>): Core<T> { if c.Ready() then c else Deregistered(c) }

  function Released<T>(cs: seq<Core<T>>): (r: seq<Core<T>>)
  {
    seq(|cs|, i requires 0 <= i < |cs| => LetGo(cs[i]))
  }

  lemma ReleasedAreFree<T>(cs: seq<Core<T>>)
    requires forall i :: 0 <= i < |cs| ==> cs[i].WellFormed()
    ensures forall i :: 0 <= i < |cs| ==> Released(cs)[i].waiting == None
  {
  }

  lemma ReleasedIs<T>(promises: seq<PromiseCore<T>>, states: seq<Core<T>>)
    requires |promises| == |states| && forall k :: 0 <= k < |states| ==> promises[k].State() == LetGo(states[k])
    ensures seq(|promises|, i requires 0 <= i < |promises| reads promises => promises[i].State()) == Released(states)
  {
  }

  class SelectSet<T> {
    const promises: seq<PromiseCore<T>>
    const loop: Scheduler
    var suspended: Option<Handle>
    var resumed: bool

    ghost predicate Valid()
      reads promises
    {
      && (forall i, j :: 0 <= i < j < |promises| ==> promises[i] != promises[j])
      && (forall i :: 0 <= i < |promises| ==> promises[i].State().WellFormed())
    }

    ghost function States(): seq<Core<T>>
      reads promises
    {
      seq(|promises|, i requires 0 <= i < |promises| reads promises => promises[i].State())
    }

    constructor (promises: seq<PromiseCore<T>>, loop: Scheduler)
      requires forall i, j :: 0 <= i < j < |promises| ==> promises[i] != promises[j]
      requires forall i :: 0 <= i < |promises| ==> promises[i].State().WellFormed()
      ensures Valid() && this.promises == promises && this.loop == loop
      ensures suspended == None && !resumed
    {
      this.promises, this.loop, this.suspended, this.resumed := promises, loop, None, false;
    }

    method AwaitReady() returns (ready: bool)
      requires !resumed
      modifies this`resumed
      ensures ready == AnyReady(States()) && resumed == ready
    {
      ready := false;
      ghost var states := States();
      for i := 0 to |promises|
        invariant ready <==> AnyReady(states[..i])
      {
        assert states[..i + 1] == states[..i] + [states[i]];
        assert states[..i + 1][i].Ready() == promises[i].slot.Some?;
        assert forall k :: 0 <= k < i ==> states[..i][k] == states[..i + 1][k];
        ready := ready || promises[i].slot.Some?;
      }
      assert states[..|promises|] == states;
      resumed := resumed || ready;
    }

    /** Nobody else awaits the members, and none of them is ready. */
    method AwaitSuspend(h: Handle)
      requires Valid() && !AnyReady(States())
      requires forall i :: 0 <= i < |promises| ==> !States()[i].IsAwaited()
      modifies this`suspended, promises
      ensures Valid() && States() == Suspended(old(States()), h) && suspended == Some(h)
    {
      for i := 0 to |promises|
        invariant Valid()
        invariant forall k :: 0 <= k < i ==> promises[k].State() == Suspended(old(States()), h)[k]
        invariant forall k :: i <= k < |promises| ==> promises[k].State() == old(States())[k]
      {
        var p := promises[i];
        assert !old(States())[i].Ready();
        if !(p.phase == Finished && p.slot == None) {
          var r := p.SetHandle(h);
        }
      }
      suspended := Some(h);
    }

    static method CheckPromise(p: PromiseCore<T>) returns (ready: bool)
      requires p.State().WellFormed()
      modifies p`waitingHandle, p`phase
      ensures ready == old(p.State()).Ready() && p.State() == LetGo(old(p.State()))
    {
      ready := p.slot.Some?;
      if !ready {
        p.ResetHandle();
      }
    }

    /** checkPromises: the ready members in index order; the others are not waited for any more. */
    static method CheckPromises(promises: seq<PromiseCore<T>>, ghost states: seq<Core<T>>) returns (ready: seq<nat>)
      requires forall i, j :: 0 <= i < j < |promises| ==> promises[i] != promises[j]
      requires |states| == |promises|
      requires forall i :: 0 <= i < |promises| ==> promises[i].State() == states[i] && states[i].WellFormed()
      modifies promises
      ensures ready == ReadyMembers(states)
      ensures forall i :: 0 <= i < |promises| ==> promises[i].State() == LetGo(states[i])
    {
      ready := [];
      for i: nat := 0 to |promises|
        invariant forall k :: 0 <= k < |promises| ==>
                    promises[k].State() == if k < i then LetGo(states[k]) else states[k]
        invariant ready == ReadyBelow(states, i)
      {
        var isReady := CheckPromise(promises[i]);
        ready := ready + if isReady then [i] else [];
      }
    }

    /** Afterwards the coroutine that was suspended here is neither registered with a member nor
        scheduled, however many members finished before it ran. */
    method AwaitResume() returns (ready: seq<nat>)
      requires Valid()
      modifies this, promises, loop
      ensures Valid() && resumed && suspended == None
      ensures ready == ReadyMembers(old(States())) && States() == Released(old(States()))
      ensures forall i :: 0 <= i < |promises| ==> promises[i].State().waiting == None
      ensures loop.resumable ==
              if old(suspended).Some? then Cancelled(old(loop.resumable), old(suspended).value)
              else old(loop.resumable)
      ensures old(suspended).Some? ==> old(suspended) !in loop.resumable
    {
      ghost var states := States();
      resumed := true;
      ready := CheckPromises(promises, states);
      ReleasedIs(promises, states);
      ReleasedAreFree(states);
      ghost var released := States();
      if suspended.Some? {
        loop.Cancel(suspended.value);
        suspended := None;
      }
      forall i | 0 <= i < |promises|
        ensures promises[i].State().waiting == None
      {
        assert States()[i] == released[i];
      }
    }

    /** The destructor deregisters a set that has not been resumed. */
    method Destroy()
      requires Valid()
      modifies promises
      ensures Valid()
      ensures !resumed ==> forall i :: 0 <= i < |promises| ==> States()[i] == Deregistered(old(States())[i])
      ensures resumed ==> States() == old(States())
    {
      if !resumed {
        for i := 0 to |promises|
          invariant Valid()
          invariant forall k :: 0 <= k < i ==> promises[k].State() == Deregistered(old(States())[k])
          invariant forall k :: i <= k < |promises| ==> promises[k].State() == old(States())[k]
        {
          var p := promises[i];
          assert p.State() == old(States())[i];
          p.ResetHandle();
        }
      }
    }
  }
}
