/** waitAny(), called again and again over the same promises (uvco/combinators.h). */
module WaitAnys {
  import opened Wrappers
  import opened Schedulers
  import opened Cores
  import opened Selects

  /** A result and the index of the promise it comes from: a std::variant. */
  type Results<+T> = seq<(nat, T)>

  predicate Within(ready: seq<nat>, n: nat) {
    forall j :: 0 <= j < |ready| ==> ready[j] < n
  }

  /** What unwrapping the first `n` ready members gives, one after the other; the first exception is
      passed on. */
  function CollectedFirst<T>(cs: seq<Core<T>>, ready: seq<nat>, n: nat): Result<Results<T>, Failure>
    requires Within(ready, |cs|) && n <= |ready|
  {
    if n == 0 then Ok([])
    else
      match CollectedFirst(cs, ready, n - 1)
      case Err(e) => Err(e)
      case Ok(results) =>
        match Unwrapped(cs[ready[n - 1]])
        case Err(e) => Err(e)
        case Ok(v) => Ok(results + [(ready[n - 1], v)])
  }

  function Collected<T>(cs: seq<Core<T>>, ready: seq<nat>): Result<Results<T>, Failure>
    requires Within(ready, |cs|)
  {
    CollectedFirst(cs, ready, |ready|)
  }

  /** How many members, from the `from`th one on, are unwrapped before an exception is thrown. */
  function Values<T>(cs: seq<Core<T>>, ready: seq<nat>, from: nat): (n: nat)
    requires Within(ready, |cs|) && from <= |ready|
    ensures from <= n <= |ready|
    ensures forall j :: from <= j < n ==> Unwrapped(cs[ready[j]]).Ok?
    ensures n < |ready| ==> Unwrapped(cs[ready[n]]).Err?
    decreases |ready| - from
  {
    if from < |ready| && Unwrapped(cs[ready[from]]).Ok? then Values(cs, ready, from + 1) else from
  }

  /** A member after the first `n` ready members have been unwrapped. */
  function Taken<T>(cs: seq<Core<T>>, ready: seq<nat>, n: nat, i: nat): Core<T>
    requires n <= |ready| && i < |cs|
  {
    if i in ready[..n] then AfterUnwrap(cs[i]) else cs[i]
  }

  lemma TakenNext<T>(cs: seq<Core<T>>, ready: seq<nat>, n: nat, i: nat)
    requires forall j, k :: 0 <= j < k < |ready| ==> ready[j] < ready[k]
    requires n < |ready| && i < |cs|
    ensures Taken(cs, ready, n + 1, i) == if i == ready[n] then AfterUnwrap(cs[i]) else Taken(cs, ready, n, i)
    ensures i == ready[n] ==> Taken(cs, ready, n, i) == cs[i]
  {
    assert ready[..n + 1] == ready[..n] + [ready[n]];
  }

  function AfterCollecting<T>(cs: seq<Core<T>>, ready: seq<nat>): (after: seq<Core<T>>)
    requires Within(ready, |cs|)
    ensures |after| == |cs|
  {
    seq(|cs|, i requires 0 <= i < |cs| => Taken(cs, ready, Values(cs, ready, 0), i))
  }

  lemma {:induction false} CollectedValues<T>(cs: seq<Core<T>>, ready: seq<nat>, n: nat)
    requires Within(ready, |cs|) && n <= |ready|
    ensures CollectedFirst(cs, ready, n).Ok? <==> n <= Values(cs, ready, 0)
    ensures n > Values(cs, ready, 0) ==>
              CollectedFirst(cs, ready, n) == Err(Unwrapped(cs[ready[Values(cs, ready, 0)]]).error)
  {
    if n > 0 {
      CollectedValues(cs, ready, n - 1);
    }
  }

  /** The first `n` ready promises have been unwrapped. */
  ghost predicate Unwound<T>(promises: seq<PromiseCore<T>>, ready: seq<nat>, cs: seq<Core<T>>, n: nat)
    requires n <= |ready| && |cs| == |promises|
    reads promises
  {
    forall i :: 0 <= i < |promises| ==> promises[i].State() == Taken(cs, ready, n, i)
  }

  method UnwrapNext<T>(promises: seq<PromiseCore<T>>, ready: seq<nat>, ghost cs: seq<Core<T>>, n: nat)
    returns (r: Result<T, Failure>)
    requires forall i, j :: 0 <= i < j < |promises| ==> promises[i] != promises[j]
    requires forall j, k :: 0 <= j < k < |ready| ==> ready[j] < ready[k]
    requires Within(ready, |promises|) && n < |ready|
    requires |cs| == |promises| && Unwound(promises, ready, cs, n)
    modifies promises
    ensures r == Unwrapped(cs[ready[n]]) && Unwound(promises, ready, cs, if r.Ok? then n + 1 else n)
  {
    forall i | 0 <= i < |promises|
      ensures Taken(cs, ready, n + 1, i) == if i == ready[n] then AfterUnwrap(cs[i]) else Taken(cs, ready, n, i)
      ensures i == ready[n] ==> Taken(cs, ready, n, i) == cs[i]
    {
      TakenNext(cs, ready, n, i);
    }
    r := promises[ready[n]].Unwrap();
  }

  /** The loop of waitAny() over the ready promises. */
  method Collect<T>(promises: seq<PromiseCore<T>>, ready: seq<nat>, ghost cs: seq<Core<T>>)
    returns (r: Result<Results<T>, Failure>)
    requires forall i, j :: 0 <= i < j < |promises| ==> promises[i] != promises[j]
    requires forall j, k :: 0 <= j < k < |ready| ==> ready[j] < ready[k]
    requires Within(ready, |promises|)
    requires |cs| == |promises| && Unwound(promises, ready, cs, 0)
    modifies promises
    ensures r == Collected(cs, ready) && Unwound(promises, ready, cs, Values(cs, ready, 0))
  {
    var results: Results<T> := [];
    for n: nat := 0 to |ready|
      invariant CollectedFirst(cs, ready, n) == Ok(results) && Unwound(promises, ready, cs, n)
    {
      var value := UnwrapNext(promises, ready, cs, n);
      if value.Err? {
        StopsAt(cs, ready, n);
        return Err(value.error);
      }
      results := results + [(ready[n], value.value)];
    }
    CollectedValues(cs, ready, |ready|);
    return Ok(results);
  }

  lemma StopsAt<T>(cs: seq<Core<T>>, ready: seq<nat>, j: nat)
    requires Within(ready, |cs|) && j < |ready|
    requires CollectedFirst(cs, ready, j).Ok? && Unwrapped(cs[ready[j]]).Err?
    ensures Values(cs, ready, 0) == j && Collected(cs, ready) == Err(Unwrapped(cs[ready[j]]).error)
  {
    CollectedValues(cs, ready, j);
    CollectedValues(cs, ready, |ready|);
  }

  // ---- what one call takes ------------------------------------------------------------------------

  predicate HasThrown<T>(c: Core<T>) { c.slot.Some? && c.slot.value.Thrown? }

  function ThrownFrom<T>(cs: seq<Core<T>>, from: nat): (f: Option<nat>)
    requires from <= |cs|
    ensures f.None? ==> forall i :: from <= i < |cs| ==> !HasThrown(cs[i])
    ensures f.Some? ==> from <= f.value < |cs| && HasThrown(cs[f.value])
    ensures f.Some? ==> forall i :: from <= i < f.value ==> !HasThrown(cs[i])
    decreases |cs| - from
  {
    if from == |cs| then None else if HasThrown(cs[from]) then Some(from) else ThrownFrom(cs, from + 1)
  }

  /** The first member, in index order, that has thrown. */
  function FirstThrown<T>(cs: seq<Core<T>>): Option<nat> { ThrownFrom(cs, 0) }

  /** The members that a call consumes: the ready ones, and if some member has thrown, those of them that
      come before the first such member. */
  predicate Consumes<T>(cs: seq<Core<T>>, j: nat) {
    j < |cs| && cs[j].Ready() && (FirstThrown(cs).Some? ==> j < FirstThrown(cs).value)
  }

  /** `results` are returned unless some member has thrown; else the exception of the first such member is
      passed on. */
  function Answer<T>(cs: seq<Core<T>>, results: Results<T>): Result<Results<T>, Failure> {
    match FirstThrown(cs)
    case None => Ok(results)
    case Some(f) => Err(Rethrown(cs[f].slot.value.error))
  }

  /** What has been unwrapped when the call returns or throws. */
  function Unpacked<T>(cs: seq<Core<T>>, ready: seq<nat>): Results<T>
    requires Within(ready, |cs|)
  {
    CollectedValues(cs, ready, Values(cs, ready, 0));
    CollectedFirst(cs, ready, Values(cs, ready, 0)).value
  }

  lemma {:induction false} CollectedAt<T>(cs: seq<Core<T>>, ready: seq<nat>, n: nat)
    requires Within(ready, |cs|) && n <= |ready| && CollectedFirst(cs, ready, n).Ok?
    ensures var results := CollectedFirst(cs, ready, n).value;
            && |results| == n
            && forall j :: 0 <= j < n ==> results[j].0 == ready[j] && Unwrapped(cs[ready[j]]) == Ok(results[j].1)
  {
    if n > 0 {
      CollectedAt(cs, ready, n - 1);
    }
  }

  lemma UnpackedAt<T>(cs: seq<Core<T>>, ready: seq<nat>)
    requires Within(ready, |cs|)
    ensures |Unpacked(cs, ready)| == Values(cs, ready, 0)
    ensures forall j :: 0 <= j < Values(cs, ready, 0) ==>
              var result := Unpacked(cs, ready)[j];
              result.0 == ready[j] && Unwrapped(cs[ready[j]]) == Ok(result.1)
  {
    CollectedValues(cs, ready, Values(cs, ready, 0));
    CollectedAt(cs, ready, Values(cs, ready, 0));
  }

  /** Unwrapping stops at the first member that has thrown. */
  lemma StopsAtFirstThrown<T>(cs: seq<Core<T>>, ready: seq<nat>)
    requires ListsReady(ready, cs) && Within(ready, |cs|)
    ensures var n := Values(cs, ready, 0);
            if n < |ready| then FirstThrown(cs) == Some(ready[n]) else FirstThrown(cs) == None
  {
    var n := Values(cs, ready, 0);
    if f: nat :| FirstThrown(cs) == Some(f) {
      assert f in ready;
      var m :| 0 <= m < |ready| && ready[m] == f;
      assert Unwrapped(cs[ready[m]]).Err?;
    }
    if n < |ready| {
      assert ready[n] in ready;
      assert HasThrown(cs[ready[n]]);
    }
  }

  lemma ConsumedAreFirst<T>(cs: seq<Core<T>>, ready: seq<nat>, j: nat)
    requires ListsReady(ready, cs) && Within(ready, |cs|)
    ensures j in ready[..Values(cs, ready, 0)] <==> Consumes(cs, j)
  {
    StopsAtFirstThrown(cs, ready);
    var n := Values(cs, ready, 0);
    if j in ready {
      var m :| 0 <= m < |ready| && ready[m] == j;
      assert m < n ==> ready[..n][m] == j;
    }
  }

  /** A call throws if and only if some member has thrown, and then what the first such member has thrown.
      The members that it consumes, whether it throws or not, are exactly the ready ones before that. */
  lemma CallConsumesExactly<T>(cs: seq<Core<T>>, ready: seq<nat>)
    requires ListsReady(ready, cs) && Within(ready, |cs|)
    ensures Collected(cs, ready) == Answer(cs, Unpacked(cs, ready))
    ensures forall j :: 0 <= j < |cs| ==> (AfterCollecting(cs, ready)[j] != cs[j] <==> Consumes(cs, j))
    ensures forall j :: 0 <= j < |cs| && Consumes(cs, j) ==> AfterCollecting(cs, ready)[j] == AfterFetch(cs[j])
  {
    StopsAtFirstThrown(cs, ready);
    CollectedValues(cs, ready, |ready|);
    forall j: nat | j < |cs|
      ensures AfterCollecting(cs, ready)[j] == if Consumes(cs, j) then AfterFetch(cs[j]) else cs[j]
    {
      ConsumedAreFirst(cs, ready, j);
    }
  }

  predicate Includes<T>(results: Results<T>, i: nat) {
    exists a :: 0 <= a < |results| && results[a].0 == i
  }

  lemma UnpackedIncludes<T>(cs: seq<Core<T>>, ready: seq<nat>, j: nat)
    requires ListsReady(ready, cs) && Within(ready, |cs|)
    ensures Includes(Unpacked(cs, ready), j) <==> Consumes(cs, j)
  {
    var n := Values(cs, ready, 0);
    UnpackedAt(cs, ready);
    ConsumedAreFirst(cs, ready, j);
    if j in ready[..n] {
      var m :| 0 <= m < n && ready[..n][m] == j;
      assert Unpacked(cs, ready)[m].0 == j;
    }
    if a :| 0 <= a < n && Unpacked(cs, ready)[a].0 == j {
      assert ready[..n][a] == j;
    }
  }

  /** waitAny() after its select set has been resumed: the results of exactly the ready members. */
  method Resumed<T>(selectSet: SelectSet<T>) returns (r: Result<Results<T>, Failure>)
    requires selectSet.Valid()
    modifies selectSet, selectSet.promises, selectSet.loop
    ensures var cs, ready := Released(old(selectSet.States())), ReadyMembers(old(selectSet.States()));
            && r == Collected(cs, ready)
            && forall i :: 0 <= i < |cs| ==> selectSet.promises[i].State() == AfterCollecting(cs, ready)[i]
  {
    ghost var cs := selectSet.States();
    var ready := selectSet.AwaitResume();
    assert selectSet.States() == Released(cs);
    r := Collect(selectSet.promises, ready, Released(cs));
  }

  // ---- calling it until everything has been returned ------------------------------------------------

  /** The promises, and what became of the calls so far: the results that some of them have returned, the
      exceptions that others have thrown, and the results that were unwrapped before these were thrown.
      `finals` is what the promises have finished with; the coroutine whose call has suspended is
      `waiting`, and `queue` are the scheduler's entries that come from the promises. */
  datatype Rounds<T> = Rounds(
    cs: seq<Core<T>>,
    waiting: Option<Handle>,
    queue: seq<Entry>,
    returned: seq<Results<T>>,
    lost: Results<T>,
    thrown: seq<Failure>,
    finals: map<nat, Outcome<T>>
  )

  datatype Event<T> =
    | Finishes(i: nat, o: Outcome<T>)
    | Call(h: Handle)
    | Resume

  function Start<T>(k: nat): Rounds<T> { Rounds(seq(k, _ => NewCore()), None, [], [], [], [], map[]) }

  /** Nobody else awaits the promises; a suspended call is resumed if it is scheduled. */
  predicate Enabled<T>(s: Rounds<T>, e: Event<T>) {
    match e
    case Finishes(i, _) => i < |s.cs| && !s.cs[i].phase.Finished?
    case Call(_) => s.waiting.None?
    case Resume => s.waiting.Some? && s.waiting in s.queue
  }

  /** The second half of waitAny(), after the entries of the coroutine have been taken and cancelled. An
      exception leaves it with what has been unwrapped by then. */
  function Harvested<T>(s: Rounds<T>): Rounds<T> {
    var cs, ready := Released(s.cs), ReadyMembers(s.cs);
    var queue := if s.waiting.Some? then Cancelled(s.queue, s.waiting.value) else s.queue;
    var after := s.(cs := AfterCollecting(cs, ready), waiting := None, queue := queue);
    match Collected(cs, ready)
    case Ok(results) => after.(returned := s.returned + [results])
    case Err(e) => after.(lost := s.lost + Unpacked(cs, ready), thrown := s.thrown + [e])
  }

  /** The events in which a call returns or throws. */
  predicate Harvests<T>(s: Rounds<T>, e: Event<T>) { e.Resume? || (e.Call? && AnyReady(s.cs)) }

  function Step<T>(s: Rounds<T>, e: Event<T>): Rounds<T> {
    match e
    case Finishes(i, o) =>
      if i < |s.cs|
      then s.(cs := s.cs[i := Completed(s.cs[i], o)], finals := s.finals[i := o], queue := s.queue + Wakes(s.cs[i]))
      else s
    case Call(h) => if AnyReady(s.cs) then Harvested(s) else s.(cs := Suspended(s.cs, h), waiting := Some(h))
    case Resume => Harvested(s)
  }

  function Run<T>(start: Rounds<T>, events: seq<Event<T>>): Rounds<T> {
    if events == [] then start else Step(Run(start, events[..|events| - 1]), events[|events| - 1])
  }

  predicate Possible<T>(start: Rounds<T>, events: seq<Event<T>>) {
    events == []
    || (&& Possible(start, events[..|events| - 1])
        && Enabled(Run(start, events[..|events| - 1]), events[|events| - 1]))
  }

  function Flat<T>(returned: seq<Results<T>>): Results<T> {
    if returned == [] then [] else Flat(returned[..|returned| - 1]) + returned[|returned| - 1]
  }

  /** Results are distinct in their promises, and are the values that these have finished with. */
  ghost predicate Faithful<T>(results: Results<T>, finals: map<nat, Outcome<T>>) {
    && (forall a, b :: 0 <= a < b < |results| ==> results[a].0 != results[b].0)
    && (forall a :: 0 <= a < |results| ==>
          results[a].0 in finals && finals[results[a].0] == Value(results[a].1))
  }

  ghost predicate Apart<T>(some: Results<T>, others: Results<T>) {
    forall i: nat :: !(Includes(some, i) && Includes(others, i))
  }

  ghost predicate SomeThrew<T>(finals: map<nat, Outcome<T>>) {
    exists i :: i in finals && finals[i].Thrown?
  }

  ghost predicate MemberOK<T>(s: Rounds<T>, i: nat)
    requires i < |s.cs|
  {
    var c := s.cs[i];
    && c.WellFormed()
    && (c.phase.Finished? <==> i in s.finals)
    && (c.Ready() ==> c.slot == Some(s.finals[i]))
    && c.waiting == (if c.phase.Finished? then None else s.waiting)
    && (c.Stale() <==> Includes(Flat(s.returned), i) || Includes(s.lost, i))
  }

  /** Only the coroutine whose call has suspended is scheduled, and it is once some promise is ready. */
  ghost predicate Scheduled<T>(s: Rounds<T>) {
    && (forall n :: 0 <= n < |s.queue| && s.queue[n].Some? ==> s.queue[n] == s.waiting)
    && (s.waiting.Some? ==> (s.waiting in s.queue <==> AnyReady(s.cs)))
  }

  predicate InOrder<T>(results: Results<T>) {
    forall a, b :: 0 <= a < b < |results| ==> results[a].0 < results[b].0
  }

  ghost predicate Accounts<T>(s: Rounds<T>) {
    && Scheduled(s)
    && (forall i :: 0 <= i < |s.cs| ==> MemberOK(s, i))
    && (forall i :: i in s.finals ==> i < |s.cs|)
    && Faithful(Flat(s.returned), s.finals) && Faithful(s.lost, s.finals) && Apart(Flat(s.returned), s.lost)
    && (forall r :: 0 <= r < |s.returned| ==> s.returned[r] != [] && InOrder(s.returned[r]))
    && (s.lost != [] || s.thrown != [] ==> SomeThrew(s.finals))
  }

  lemma MoreIncluded<T>(before: Results<T>, results: Results<T>, i: nat)
    ensures Includes(before + results, i) <==> Includes(before, i) || Includes(results, i)
  {
    if Includes(before, i) {
      var a :| 0 <= a < |before| && before[a].0 == i;
      assert (before + results)[a].0 == i;
    }
    if Includes(results, i) {
      var a :| 0 <= a < |results| && results[a].0 == i;
      assert (before + results)[|before| + a].0 == i;
    }
    if Includes(before + results, i) {
      var a :| 0 <= a < |before + results| && (before + results)[a].0 == i;
      assert a < |before| ==> before[a].0 == i;
      assert a >= |before| ==> results[a - |before|].0 == i;
    }
  }

  lemma FaithfulTogether<T>(before: Results<T>, results: Results<T>, finals: map<nat, Outcome<T>>)
    requires Faithful(before, finals) && Faithful(results, finals) && Apart(before, results)
    ensures Faithful(before + results, finals)
  {
    forall a, b | 0 <= a < b < |before + results|
      ensures (before + results)[a].0 != (before + results)[b].0
    {
      if a < |before| <= b {
        var i := before[a].0;
        assert i == results[b - |before|].0 ==> Includes(before, i) && Includes(results, i);
      }
    }
  }

  lemma FlatAppends<T>(returned: seq<Results<T>>, results: Results<T>)
    ensures Flat(returned + [results]) == Flat(returned) + results
  {
    assert (returned + [results])[..|returned|] == returned;
  }

  /** A call that returns or throws has consumed `results`, in the sense of `Consumes`. */
  ghost predicate Harvest<T>(s: Rounds<T>, s': Rounds<T>, results: Results<T>) {
    && |s'.cs| == |s.cs| && s'.finals == s.finals && InOrder(results)
    && s'.waiting == None
    && s'.queue == (if s.waiting.Some? then Cancelled(s.queue, s.waiting.value) else s.queue)
    && (forall j: nat :: Includes(results, j) <==> Consumes(s.cs, j))
    && (forall j :: 0 <= j < |s.cs| ==>
          s'.cs[j] == if Consumes(s.cs, j) then AfterFetch(s.cs[j]) else LetGo(s.cs[j]))
    && match Answer(s.cs, results)
       case Ok(_) => s'.returned == s.returned + [results] && s'.lost == s.lost && s'.thrown == s.thrown
       case Err(e) => s'.returned == s.returned && s'.lost == s.lost + results && s'.thrown == s.thrown + [e]
  }

  lemma {:induction false} ReleasedThrow<T>(cs: seq<Core<T>>, from: nat)
    requires from <= |cs|
    ensures ThrownFrom(Released(cs), from) == ThrownFrom(cs, from)
    decreases |cs| - from
  {
    if from < |cs| {
      ReleasedThrow(cs, from + 1);
    }
  }

  lemma HarvestedCores<T>(cs: seq<Core<T>>)
    ensures var released, ready := Released(cs), ReadyMembers(cs);
            && Collected(released, ready) == Answer(cs, Unpacked(released, ready))
            && (forall j: nat :: Includes(Unpacked(released, ready), j) <==> Consumes(cs, j))
            && forall j :: 0 <= j < |cs| ==>
                 AfterCollecting(released, ready)[j] == if Consumes(cs, j) then AfterFetch(cs[j]) else LetGo(cs[j])
  {
    var released, ready := Released(cs), ReadyMembers(cs);
    ReleasedThrow(cs, 0);
    CallConsumesExactly(released, ready);
    forall j: nat
      ensures Includes(Unpacked(released, ready), j) <==> Consumes(cs, j)
    {
      UnpackedIncludes(released, ready, j);
    }
  }

  lemma HarvestConsumes<T>(s: Rounds<T>) returns (results: Results<T>)
    ensures Harvest(s, Harvested(s), results)
    ensures results == Unpacked(Released(s.cs), ReadyMembers(s.cs))
  {
    results := Unpacked(Released(s.cs), ReadyMembers(s.cs));
    HarvestedCores(s.cs);
    UnpackedAt(Released(s.cs), ReadyMembers(s.cs));
  }

  /** What a call unwraps are values that no call has unwrapped before. */
  lemma UnpackedIsNew<T>(s: Rounds<T>)
    requires Accounts(s)
    ensures var results := Unpacked(Released(s.cs), ReadyMembers(s.cs));
            Faithful(results, s.finals) && Apart(Flat(s.returned), results) && Apart(s.lost, results)
  {
    var cs, ready := Released(s.cs), ReadyMembers(s.cs);
    UnpackedAt(cs, ready);
    var results := Unpacked(cs, ready);
    forall a | 0 <= a < |results|
      ensures results[a].0 in s.finals && s.finals[results[a].0] == Value(results[a].1)
    {
      assert MemberOK(s, ready[a]);
    }
    forall i: nat | Includes(results, i)
      ensures !Includes(Flat(s.returned), i) && !Includes(s.lost, i)
    {
      UnpackedIncludes(cs, ready, i);
      assert MemberOK(s, i);
    }
  }

  lemma HarvestMember<T>(s: Rounds<T>, s': Rounds<T>, results: Results<T>, i: nat)
    requires Harvest(s, s', results) && i < |s.cs| && MemberOK(s, i)
    ensures MemberOK(s', i)
  {
    FlatAppends(s.returned, results);
    MoreIncluded(Flat(s.returned), results, i);
    MoreIncluded(s.lost, results, i);
  }

  /** A call that returns has something to return. */
  lemma SomethingReturned<T>(s: Rounds<T>, s': Rounds<T>, results: Results<T>)
    requires AnyReady(s.cs) && FirstThrown(s.cs) == None && Harvest(s, s', results)
    ensures results != []
  {
    var i: nat :| i < |s.cs| && s.cs[i].Ready();
    assert Includes(results, i);
  }

  lemma ApartTogether<T>(before: Results<T>, results: Results<T>, others: Results<T>)
    requires Apart(before, others) && Apart(others, results)
    ensures Apart(before + results, others) && Apart(others, before + results)
  {
    forall i: nat
      ensures Includes(before + results, i) <==> Includes(before, i) || Includes(results, i)
    {
      MoreIncluded(before, results, i);
    }
  }

  lemma HarvestKeeps<T>(s: Rounds<T>, s': Rounds<T>, results: Results<T>)
    requires Accounts(s) && AnyReady(s.cs) && Harvest(s, s', results)
    requires Faithful(results, s.finals) && Apart(Flat(s.returned), results) && Apart(s.lost, results)
    ensures Accounts(s')
  {
    FlatAppends(s.returned, results);
    FaithfulTogether(Flat(s.returned), results, s.finals);
    FaithfulTogether(s.lost, results, s.finals);
    forall i | 0 <= i < |s'.cs|
      ensures MemberOK(s', i)
    {
      HarvestMember(s, s', results, i);
    }
    match FirstThrown(s.cs)
    case None =>
      ApartTogether(Flat(s.returned), results, s.lost);
      SomethingReturned(s, s', results);
    case Some(f) =>
      ApartTogether(s.lost, results, Flat(s.returned));
      assert MemberOK(s, f) && s.finals[f].Thrown?;
  }

  lemma HarvestAccounts<T>(s: Rounds<T>)
    requires Accounts(s) && AnyReady(s.cs)
    ensures Accounts(Harvested(s)) && |Harvested(s).cs| == |s.cs|
  {
    var results := HarvestConsumes(s);
    UnpackedIsNew(s);
    HarvestKeeps(s, Harvested(s), results);
  }

  lemma FinishingAccounts<T>(s: Rounds<T>, i: nat, o: Outcome<T>)
    requires Accounts(s) && Enabled(s, Finishes(i, o))
    ensures Accounts(Step(s, Finishes(i, o)))
  {
    var s' := Step(s, Finishes(i, o));
    assert MemberOK(s, i);
    forall results: Results<T> | Faithful(results, s.finals)
      ensures Faithful(results, s'.finals)
    {
    }
    if j :| j in s.finals && s.finals[j].Thrown? {
      assert j in s'.finals && s'.finals[j].Thrown?;
    }
    forall k | 0 <= k < |s'.cs|
      ensures MemberOK(s', k)
    {
      assert MemberOK(s, k);
    }
  }

  lemma StepAccounts<T>(s: Rounds<T>, e: Event<T>)
    requires Accounts(s) && Enabled(s, e)
    ensures Accounts(Step(s, e)) && |Step(s, e).cs| == |s.cs|
  {
    match e
    case Finishes(i, o) => FinishingAccounts(s, i, o);
    case Resume => HarvestAccounts(s);
    case Call(h) =>
      if AnyReady(s.cs) {
        HarvestAccounts(s);
      } else {
        forall k | 0 <= k < |s.cs|
          ensures MemberOK(Step(s, e), k)
        {
          assert MemberOK(s, k);
        }
      }
  }

  lemma {:induction false} RunAccounts<T>(start: Rounds<T>, events: seq<Event<T>>)
    requires Accounts(start) && Possible(start, events)
    ensures Accounts(Run(start, events)) && |Run(start, events).cs| == |start.cs|
  {
    if events != [] {
      RunAccounts(start, events[..|events| - 1]);
      StepAccounts(Run(start, events[..|events| - 1]), events[|events| - 1]);
    }
  }

  lemma EveryRunAccounts<T>(k: nat, events: seq<Event<T>>)
    requires Possible(Start(k), events)
    ensures Accounts(Run(Start(k), events)) && |Run(Start(k), events).cs| == k
  {
    RunAccounts(Start(k), events);
  }

  lemma {:induction false} Flattened<T>(returned: seq<Results<T>>)
    requires forall r :: 0 <= r < |returned| ==> returned[r] != []
    ensures |returned| <= |Flat(returned)|
  {
    if returned != [] {
      Flattened(returned[..|returned| - 1]);
    }
  }

  lemma {:induction false} DistinctSources<T>(results: Results<T>, k: nat)
    requires forall a, b :: 0 <= a < b < |results| ==> results[a].0 != results[b].0
    requires forall a :: 0 <= a < |results| ==> results[a].0 < k
    ensures |results| <= k
    decreases k
  {
    if results != [] {
      assert results[0].0 < k;
      if a :| 0 <= a < |results| && results[a].0 == k - 1 {
        DistinctSources(results[..a] + results[a + 1..], k - 1);
      } else {
        DistinctSources(results, k - 1);
      }
    }
  }

  /** In every run over `k` promises: no result is returned twice, or both returned and lost; each is the
      value that its promise has finished with; no call returns an empty list, so that at most `k` calls
      return. Whatever a promise has finished with has been returned, has been lost, or is still there. */
  lemma WaitAnyReturnsEachResultOnce<T>(k: nat, events: seq<Event<T>>)
    requires Possible(Start(k), events)
    ensures var s := Run(Start(k), events);
            && Faithful(Flat(s.returned) + s.lost, s.finals)
            && |s.returned| <= |Flat(s.returned)| <= |Flat(s.returned)| + |s.lost| <= k
            && (forall r :: 0 <= r < |s.returned| ==> s.returned[r] != [] && InOrder(s.returned[r]))
            && forall i: nat :: i in s.finals ==>
                 && i < |s.cs|
                 && (s.cs[i].slot == Some(s.finals[i])
                     <==> !Includes(Flat(s.returned), i) && !Includes(s.lost, i))
  {
    var s := Run(Start(k), events);
    EveryRunAccounts(k, events);
    Flattened(s.returned);
    FaithfulTogether(Flat(s.returned), s.lost, s.finals);
    DistinctSources(Flat(s.returned) + s.lost, k);
    forall i: nat | i in s.finals
      ensures i < |s.cs|
      ensures s.cs[i].slot == Some(s.finals[i]) <==> !Includes(Flat(s.returned), i) && !Includes(s.lost, i)
    {
      assert MemberOK(s, i);
    }
  }

  lemma ThrownIsThere<T>(s: Rounds<T>)
    requires Accounts(s)
    ensures SomeThrew(s.finals) <==> FirstThrown(s.cs).Some?
    ensures FirstThrown(s.cs).Some? ==> AnyReady(s.cs)
  {
    if i :| i in s.finals && s.finals[i].Thrown? {
      assert MemberOK(s, i);
      assert HasThrown(s.cs[i]);
    }
    if f: nat :| FirstThrown(s.cs) == Some(f) {
      assert MemberOK(s, f);
    }
  }

  lemma CompleteExactly<T>(s: Rounds<T>, s': Rounds<T>, results: Results<T>)
    requires Accounts(s) && Accounts(s') && Harvest(s, s', results)
    requires forall i :: 0 <= i < |s.cs| ==> i in s.finals
    ensures (forall i :: 0 <= i < |s.cs| ==> Includes(Flat(s'.returned), i)) <==> !SomeThrew(s.finals)
  {
    ThrownIsThere(s);
    forall i | 0 <= i < |s.cs|
      ensures Includes(Flat(s'.returned), i) ==> s.finals[i].Value?
      ensures !SomeThrew(s.finals) ==> Includes(Flat(s'.returned), i)
    {
      assert MemberOK(s', i);
    }
    if i :| i in s.finals && s.finals[i].Thrown? {
      assert !Includes(Flat(s'.returned), i);
    }
  }

  lemma CompletesExactly<T>(s: Rounds<T>, e: Event<T>)
    requires Accounts(s) && Enabled(s, e) && Harvests(s, e) && forall i :: 0 <= i < |s.cs| ==> i in s.finals
    ensures (forall i :: 0 <= i < |s.cs| ==> Includes(Flat(Step(s, e).returned), i)) <==> !SomeThrew(s.finals)
  {
    HarvestAccounts(s);
    var results := HarvestConsumes(s);
    var s' := Step(s, e);
    assert s' == Harvested(s);
    CompleteExactly(s, s', results);
  }

  /** Once all promises have finished, the next call that returns or throws completes the results if and
      only if none of them has thrown. */
  lemma LastCallReturnsTheRest<T>(k: nat, events: seq<Event<T>>, e: Event<T>)
    requires Possible(Start(k), events)
    requires var s := Run(Start(k), events);
             Enabled(s, e) && Harvests(s, e) && forall i :: 0 <= i < k ==> i in s.finals
    ensures var s := Run(Start(k), events);
            (forall i :: 0 <= i < k ==> Includes(Flat(Step(s, e).returned), i)) <==> !SomeThrew(s.finals)
  {
    EveryRunAccounts(k, events);
    CompletesExactly(Run(Start(k), events), e);
  }

  /** A call that has suspended is scheduled if and only if some promise has finished since, and nobody is
      scheduled by the promises otherwise. */
  lemma SuspendedCallIsScheduledExactly<T>(k: nat, events: seq<Event<T>>, h: Handle)
    requires Possible(Start(k), events)
    ensures var s := Run(Start(k), events);
            Some(h) in s.queue <==> s.waiting == Some(h) && AnyReady(s.cs)
  {
    EveryRunAccounts(k, events);
  }

  lemma AnswerableExactly<T>(s: Rounds<T>, o: Outcome<T>)
    requires Accounts(s) && s.waiting.Some?
    ensures (exists i: nat :: i < |s.cs| && !s.cs[i].Stale())
       <==> (Enabled(s, Resume) || exists i: nat :: Enabled(s, Finishes(i, o)))
  {
    if i: nat :| i < |s.cs| && !s.cs[i].Stale() {
      assert MemberOK(s, i);
      assert Enabled(s, Finishes(i, o)) || s.cs[i].Ready();
    }
    if i: nat :| Enabled(s, Finishes(i, o)) {
      assert !s.cs[i].Stale();
    }
  }

  /** The next promise that finishes schedules whoever waits. */
  lemma FinishSchedules<T>(s: Rounds<T>, i: nat, o: Outcome<T>)
    requires Accounts(s) && s.waiting.Some? && Enabled(s, Finishes(i, o))
    ensures Enabled(Step(s, Finishes(i, o)), Resume)
  {
    assert MemberOK(s, i);
    var queue := s.queue + Wakes(s.cs[i]);
    assert queue[|s.queue|] == s.waiting;
  }

  /** A call that has suspended can still be answered exactly if some promise has not been consumed; over
      promises that have all been consumed it waits forever. */
  lemma SuspendedCallIsAnswered<T>(k: nat, events: seq<Event<T>>, o: Outcome<T>)
    requires Possible(Start(k), events) && Run(Start(k), events).waiting.Some?
    ensures var s := Run(Start(k), events);
            && |s.cs| == k
            && ((exists i: nat :: i < k && !s.cs[i].Stale())
                <==> (Enabled(s, Resume) || exists i: nat :: Enabled(s, Finishes(i, o))))
            && forall i: nat :: Enabled(s, Finishes(i, o)) ==> Enabled(Step(s, Finishes(i, o)), Resume)
  {
    var s := Run(Start(k), events);
    EveryRunAccounts(k, events);
    AnswerableExactly(s, o);
    forall i: nat | Enabled(s, Finishes(i, o))
      ensures Enabled(Step(s, Finishes(i, o)), Resume)
    {
      FinishSchedules(s, i, o);
    }
  }

  // ---- members that throw -----------------------------------------------------------------------------

  /** A call of a run throws, instead of returning, if and only if some promise has finished with an
      exception, now or at any time before: a member that has thrown is never consumed. */
  lemma CallThrowsExactly<T>(k: nat, events: seq<Event<T>>, e: Event<T>)
    requires Possible(Start(k), events)
    requires Enabled(Run(Start(k), events), e) && Harvests(Run(Start(k), events), e)
    ensures var s, s' := Run(Start(k), events), Step(Run(Start(k), events), e);
            match FirstThrown(s.cs)
            case Some(f) =>
              && SomeThrew(s.finals) && f in s.finals && s.finals[f].Thrown?
              && s'.thrown == s.thrown + [Rethrown(s.finals[f].error)] && s'.returned == s.returned
            case None =>
              && !SomeThrew(s.finals)
              && |s'.returned| == |s.returned| + 1 && s'.thrown == s.thrown
  {
    var s := Run(Start(k), events);
    EveryRunAccounts(k, events);
    ThrownIsThere(s);
    if FirstThrown(s.cs).Some? {
      assert MemberOK(s, FirstThrown(s.cs).value);
    }
    var _ := HarvestConsumes(s);
  }

  lemma NothingReturned<T>(s: Rounds<T>, e: Event<T>)
    requires Accounts(s) && SomeThrew(s.finals) && Enabled(s, e)
    ensures SomeThrew(Step(s, e).finals) && Step(s, e).returned == s.returned
  {
    match e
    case Finishes(j, o) =>
      var i :| i in s.finals && s.finals[i].Thrown?;
      assert MemberOK(s, i);
      assert i in s.finals[j := o] && s.finals[j := o][i].Thrown?;
    case _ =>
      ThrownIsThere(s);
      var _ := HarvestConsumes(s);
  }

  lemma {:induction false} NothingReturnedAfter<T>(s: Rounds<T>, more: seq<Event<T>>)
    requires Accounts(s) && SomeThrew(s.finals) && Possible(s, more)
    ensures Accounts(Run(s, more)) && SomeThrew(Run(s, more).finals) && Run(s, more).returned == s.returned
  {
    if more != [] {
      var before, e := more[..|more| - 1], more[|more| - 1];
      NothingReturnedAfter(s, before);
      StepAccounts(Run(s, before), e);
      NothingReturned(Run(s, before), e);
    }
  }

  /** From then on every call throws without suspending first, and nothing is ever returned again, however
      many of the other promises finish with a value. */
  lemma ThrownMemberKeepsThrowing<T>(k: nat, events: seq<Event<T>>, more: seq<Event<T>>, e: Event<T>)
    requires Possible(Start(k), events) && SomeThrew(Run(Start(k), events).finals)
    requires Possible(Run(Start(k), events), more)
    requires Enabled(Run(Run(Start(k), events), more), e) && !e.Finishes?
    ensures var s, t := Run(Start(k), events), Run(Run(Start(k), events), more);
            && Step(t, e).returned == t.returned == s.returned
            && |Step(t, e).thrown| == |t.thrown| + 1 && Step(t, e).waiting == None
  {
    var s := Run(Start(k), events);
    EveryRunAccounts(k, events);
    NothingReturnedAfter(s, more);
    ThrownIsThere(Run(s, more));
    var _ := HarvestConsumes(Run(s, more));
  }

  /** The call that is answered in `e` finds promise `j` ready, and before the first one that has thrown. */
  predicate Loses<T>(s: Rounds<T>, e: Event<T>, j: nat) {
    && Harvests(s, e) && FirstThrown(s.cs).Some?
    && j < |s.cs| && s.cs[j].Ready() && j < FirstThrown(s.cs).value
  }

  lemma LosesOne<T>(s: Rounds<T>, e: Event<T>, j: nat)
    ensures Includes(Step(s, e).lost, j) <==> Includes(s.lost, j) || Loses(s, e, j)
  {
    if Harvests(s, e) {
      var results := HarvestConsumes(s);
      MoreIncluded(s.lost, results, j);
    }
  }

  predicate LosesAt<T>(start: Rounds<T>, events: seq<Event<T>>, n: nat, j: nat) {
    n < |events| && Loses(Run(start, events[..n]), events[n], j)
  }

  lemma LosesEarlier<T>(start: Rounds<T>, events: seq<Event<T>>, n: nat, j: nat)
    requires n < |events| - 1
    ensures LosesAt(start, events, n, j) <==> LosesAt(start, events[..|events| - 1], n, j)
  {
    assert events[..|events| - 1][..n] == events[..n];
  }

  lemma LosesLast<T>(start: Rounds<T>, events: seq<Event<T>>, last: nat, j: nat)
    requires |events| == last + 1
    ensures LosesAt(start, events, last, j) <==> Loses(Run(start, events[..last]), events[last], j)
  {
  }

  lemma OneMore(now: nat -> bool, before: nat -> bool, last: nat)
    requires forall n: nat :: n < last ==> (now(n) <==> before(n))
    requires forall n: nat :: n >= last ==> !before(n) && (n > last ==> !now(n))
    ensures (exists n: nat :: now(n)) <==> (exists n: nat :: before(n)) || now(last)
  {
  }

  lemma LosesNow<T>(start: Rounds<T>, events: seq<Event<T>>, last: nat, j: nat)
    requires |events| == last + 1
    ensures (exists n: nat :: LosesAt(start, events, n, j))
       <==> (exists n: nat :: LosesAt(start, events[..last], n, j)) || LosesAt(start, events, last, j)
  {
    forall n: nat | n < last
      ensures LosesAt(start, events, n, j) <==> LosesAt(start, events[..last], n, j)
    {
      LosesEarlier(start, events, n, j);
    }
    OneMore((n: nat) => LosesAt(start, events, n, j), (n: nat) => LosesAt(start, events[..last], n, j), last);
  }

  lemma {:induction false} LostFrom<T>(start: Rounds<T>, events: seq<Event<T>>, j: nat)
    ensures Includes(Run(start, events).lost, j)
       <==> Includes(start.lost, j) || exists n: nat :: LosesAt(start, events, n, j)
  {
    if events != [] {
      var last := |events| - 1;
      LostFrom(start, events[..last], j);
      LosesOne(Run(start, events[..last]), events[last], j);
      LosesLast(start, events, last, j);
      LosesNow(start, events, last, j);
    }
  }

  /** A result is lost in a run if and only if some call of the run finds it ready before the first member
      that has thrown. */
  lemma LostExactly<T>(k: nat, events: seq<Event<T>>, j: nat)
    requires Possible(Start(k), events)
    ensures Includes(Run(Start(k), events).lost, j) <==> exists n: nat :: LosesAt(Start(k), events, n, j)
  {
    LostFrom(Start(k), events, j);
  }

  lemma OneEvent<T>(start: Rounds<T>, events: seq<Event<T>>, before: Rounds<T>, e: Event<T>, after: Rounds<T>)
    requires Possible(start, events) && Run(start, events) == before && Enabled(before, e) && Step(before, e) == after
    ensures Possible(start, events + [e]) && Run(start, events + [e]) == after
  {
    assert (events + [e])[..|events|] == events;
  }

  lemma ReadyOfTwo<T>(cs: seq<Core<T>>)
    requires |cs| == 2 && cs[1].Ready()
    ensures ReadyMembers(cs) == if cs[0].Ready() then [0, 1] else [1]
  {
    assert ReadyBelow(cs, 0) == [];
    assert ReadyBelow(cs, 1) == if cs[0].Ready() then [0] else [];
  }

  lemma UnpackingTwo<T>(cs: seq<Core<T>>, v: T, x: Exception)
    requires cs == [Core(Finished, None, Some(Value(v))), Core(Finished, None, Some(Thrown(x)))]
    ensures Unpacked(cs, [0, 1]) == [(0, v)] && Collected(cs, [0, 1]) == Err(Rethrown(x))
    ensures AfterCollecting(cs, [0, 1]) == [Core(Finished, None, None), cs[1]]
  {
    var ready: seq<nat> := [0, 1];
    assert Values(cs, ready, 1) == 1;
    assert CollectedFirst(cs, ready, 0) == Ok([]) && [] + [(0, v)] == [(0, v)];
    assert CollectedFirst(cs, ready, 1) == Ok([(0, v)]);
  }

  lemma UnpackingOne<T>(cs: seq<Core<T>>, x: Exception)
    requires cs == [Core(Finished, None, None), Core(Finished, None, Some(Thrown(x)))]
    ensures Unpacked(cs, [1]) == [] && Collected(cs, [1]) == Err(Rethrown(x)) && AfterCollecting(cs, [1]) == cs
  {
    assert Values(cs, [1], 0) == 0;
  }

  lemma HarvestOfOne<T>(s: Rounds<T>, x: Exception)
    requires s.cs == [Core(Finished, None, None), Core(Finished, None, Some(Thrown(x)))] && s.waiting.None?
    ensures Harvested(s) == s.(thrown := s.thrown + [Rethrown(x)])
  {
    assert Released(s.cs) == s.cs && s.lost + [] == s.lost;
    ReadyOfTwo(s.cs);
    UnpackingOne(s.cs, x);
  }

  function BothFinished<T>(v: T, x: Exception): Rounds<T> {
    Rounds([Core(Finished, None, Some(Value(v))), Core(Finished, None, Some(Thrown(x)))], None, [],
           [], [], [], map[0 := Value(v), 1 := Thrown(x)])
  }

  function ValueLost<T>(v: T, x: Exception, thrown: seq<Failure>): Rounds<T> {
    Rounds([Core(Finished, None, None), Core(Finished, None, Some(Thrown(x)))], None, [],
           [], [(0, v)], thrown, map[0 := Value(v), 1 := Thrown(x)])
  }

  lemma FirstCallLoses<T>(v: T, x: Exception, h: Handle)
    ensures Enabled(BothFinished(v, x), Call(h))
    ensures Step(BothFinished(v, x), Call(h)) == ValueLost(v, x, [Rethrown(x)])
  {
    var s := BothFinished(v, x);
    assert s.cs[1].Ready() && Released(s.cs) == s.cs;
    ReadyOfTwo(s.cs);
    UnpackingTwo(s.cs, v, x);
  }

  lemma NextCallThrows<T>(v: T, x: Exception, h: Handle, thrown: seq<Failure>)
    ensures Enabled(ValueLost(v, x, thrown), Call(h))
    ensures Step(ValueLost(v, x, thrown), Call(h)) == ValueLost(v, x, thrown + [Rethrown(x)])
  {
    var s := ValueLost(v, x, thrown);
    assert s.cs[1].Ready();
    HarvestOfOne(s, x);
  }

  /** One promise finishes with a value and the other one throws: a call throws, the value is gone, and the
      next call throws again. */
  lemma ResultIsLost<T>(v: T, x: Exception, h: Handle)
    ensures var events := [Finishes(0, Value(v))] + [Finishes(1, Thrown(x))] + [Call(h)] + [Call(h)];
            Possible(Start(2), events) && Run(Start(2), events) == ValueLost(v, x, [Rethrown(x), Rethrown(x)])
  {
    var one, two := Finishes(0, Value(v)), Finishes(1, Thrown(x));
    OneEvent(Start(2), [], Start(2), one, Step(Start(2), one));
    assert [] + [one] == [one];
    OneEvent(Start(2), [one], Step(Start(2), one), two, BothFinished(v, x));
    FirstCallLoses(v, x, h);
    OneEvent(Start(2), [one] + [two], BothFinished(v, x), Call(h), ValueLost(v, x, [Rethrown(x)]));
    NextCallThrows(v, x, h, [Rethrown(x)]);
    OneEvent(Start(2), [one] + [two] + [Call(h)], ValueLost(v, x, [Rethrown(x)]), Call(h),
             ValueLost(v, x, [Rethrown(x)] + [Rethrown(x)]));
  }
}
