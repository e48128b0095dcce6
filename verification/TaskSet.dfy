/** Coroutines that wait until another one releases them (WaitPoint in uvco/combinators.h, .cc). */
module WaitPoints {
  import opened Wrappers
  import opened Schedulers

  function Entries(hs: seq<Handle>): (es: seq<Entry>)
    ensures |es| == |hs| && forall i :: 0 <= i < |hs| ==> es[i] == Some(hs[i])
  {
    seq(|hs|, i requires 0 <= i < |hs| => Some(hs[i]))
  }

  class WaitPoint {
    var waiters: seq<Handle>
    const loop: Scheduler

    constructor (loop: Scheduler)
      ensures waiters == [] && this.loop == loop
    {
      waiters := [];
      this.loop := loop;
    }

    method Enqueue(h: Handle)
      modifies this
      ensures waiters == old(waiters) + [h]
    {
      waiters := waiters + [h];
    }

    method ReleaseOne()
      modifies this, loop
      ensures old(waiters) == [] ==> waiters == [] && loop.resumable == old(loop.resumable)
      ensures old(waiters) != [] ==>
                && waiters == old(waiters)[1..]
                && loop.resumable == old(loop.resumable) + [Some(old(waiters)[0])]
    {
      if waiters == [] {
        return;
      }
      loop.Enqueue(waiters[0]);
      waiters := waiters[1..];
    }

    /** All waiters are scheduled, in the order in which they came. */
    method ReleaseAll()
      modifies this, loop
      ensures waiters == [] && loop.resumable == old(loop.resumable) + Entries(old(waiters))
    {
      ghost var n := 0;
      while waiters != []
        invariant n <= |old(waiters)| && waiters == old(waiters)[n..]
        invariant loop.resumable == old(loop.resumable) + Entries(old(waiters)[..n])
        decreases |waiters|
      {
        ReleaseOne();
        assert Entries(old(waiters)[..n + 1]) == Entries(old(waiters)[..n]) + [Some(old(waiters)[n])];
        n := n + 1;
      }
      assert old(waiters)[..n] == old(waiters);
    }
  }
}

/** The book-keeping of TaskSetImpl (uvco/combinators.cc). */
module TaskSets {
  import opened Wrappers
  import opened Schedulers
  import opened WaitPoints

  type Id = nat

  /** The number of values of size_t. */
  const SIZES: nat := 0x1_0000_0000_0000_0000

  /** `tasks` are the keys of the map of running wrappers, `done` the wrappers that wait for clean-up. */
  datatype Tasks = Tasks(counter: Id, tasks: set<Id>, done: seq<Id>, waiters: seq<Handle>)

  predicate IsEmpty(t: Tasks) { (|t.tasks| - |t.done|) % SIZES == 0 }

  /** The test at the end of a wrapper. */
  predicate LooksLast(t: Tasks) { (|t.tasks| - |t.done| - 1) % SIZES == 0 }

  function Elements(s: seq<Id>): set<Id> { set i | i in s }

  function Begun(t: Tasks): Tasks { t.(counter := t.counter + 1) }

  function Kept(t: Tasks, id: Id): Tasks { t.(tasks := t.tasks + {id}) }

  function Awaited(t: Tasks, h: Handle): Tasks { if IsEmpty(t) then t else t.(waiters := t.waiters + [h]) }

  function Ended(t: Tasks, id: Id): Tasks {
    t.(tasks := t.tasks - Elements(t.done), done := [id], waiters := if LooksLast(t) then [] else t.waiters)
  }

  class TaskSet {
    var counter: Id
    var tasks: set<Id>
    var doneTasks: seq<Id>
    const onEmpty: WaitPoint

    constructor (loop: Scheduler)
      ensures State() == Tasks(0, {}, [], []) && onEmpty.loop == loop && fresh(onEmpty)
    {
      counter, tasks, doneTasks := 0, {}, [];
      onEmpty := new WaitPoint(loop);
    }

    ghost function State(): Tasks
      reads this, onEmpty
    {
      Tasks(counter, tasks, doneTasks, onEmpty.waiters)
    }

    /** add(), up to the start of the wrapper ... */
    method BeginAdd() returns (id: Id)
      modifies this`counter
      ensures id == old(counter) && State() == Begun(old(State()))
    {
      id := counter;
      counter := counter + 1;
    }

    /** ... and after the wrapper has suspended for the first time, or ended. */
    method Store(id: Id)
      modifies this`tasks
      ensures State() == Kept(old(State()), id)
    {
      tasks := tasks + {id};
    }

    method Empty() returns (empty: bool)
      ensures empty == IsEmpty(State())
      ensures |doneTasks| <= |tasks| < SIZES ==> (empty <==> |tasks| == |doneTasks|)
    {
      empty := 0 == (|tasks| - |doneTasks|) % SIZES;
    }

    /** onEmpty(), called by the coroutine `h`. */
    method OnEmpty(h: Handle) returns (waits: bool)
      modifies onEmpty
      ensures waits == !IsEmpty(State())
      ensures State() == Awaited(old(State()), h)
    {
      var empty := Empty();
      if !empty {
        onEmpty.Enqueue(h);
      }
      return !empty;
    }

    /** The end of wrap(), after the task has returned or thrown. */
    method End(id: Id)
      modifies this, onEmpty, onEmpty.loop
      ensures State() == Ended(old(State()), id)
      ensures onEmpty.loop.resumable
              == old(onEmpty.loop.resumable) + if LooksLast(old(State())) then Entries(old(onEmpty.waiters)) else []
    {
      if (|tasks| - |doneTasks| - 1) % SIZES == 0 {
        onEmpty.ReleaseAll();
      }
      ghost var n := 0;
      while doneTasks != []
        invariant n <= |old(doneTasks)| && doneTasks == old(doneTasks)[n..]
        invariant tasks == old(tasks) - Elements(old(doneTasks)[..n])
        invariant counter == old(counter) && onEmpty.waiters == Ended(old(State()), id).waiters
        invariant onEmpty.loop.resumable
                  == old(onEmpty.loop.resumable) + if LooksLast(old(State())) then Entries(old(onEmpty.waiters)) else []
        decreases |doneTasks|
      {
        tasks := tasks - {doneTasks[0]};
        doneTasks := doneTasks[1..];
        assert old(doneTasks)[..n + 1] == old(doneTasks)[..n] + [old(doneTasks)[n]];
        n := n + 1;
      }
      assert old(doneTasks)[..n] == old(doneTasks);
      doneTasks := doneTasks + [id];
    }
  }

  // ---- all runs ------------------------------------------------------------------------------------

  /** `adding` are the tasks whose wrapper has been started but not stored yet. */
  datatype History = History(t: Tasks, adding: set<Id>, finished: set<Id>)

  datatype Event = Begin | Stored(id: Id) | Finish(id: Id) | AwaitEmpty(h: Handle)

  predicate Enabled(s: History, e: Event) {
    match e
    case Begin => s.t.counter + 1 < SIZES
    case Stored(id) => id in s.adding
    case Finish(id) => id < s.t.counter && id !in s.finished
    case AwaitEmpty(_) => true
  }

  function Step(s: History, e: Event): History {
    match e
    case Begin => s.(t := Begun(s.t), adding := s.adding + {s.t.counter})
    case Stored(id) => s.(t := Kept(s.t, id), adding := s.adding - {id})
    case Finish(id) => s.(t := Ended(s.t, id), finished := s.finished + {id})
    case AwaitEmpty(h) => s.(t := Awaited(s.t, h))
  }

  /** No wrapper ends before add() has stored it. */
  predicate Orderly(s: History, e: Event) { e.Finish? ==> e.id in s.t.tasks }

  const START: History := History(Tasks(0, {}, [], []), {}, {})

  function Run(s: History, events: seq<Event>): History
    decreases |events|
  {
    if events == [] then s else Run(Step(s, events[0]), events[1..])
  }

  predicate Possible(s: History, events: seq<Event>, orderly: bool)
    decreases |events|
  {
    events == []
    || (&& Enabled(s, events[0]) && (orderly ==> Orderly(s, events[0]))
        && Possible(Step(s, events[0]), events[1..], orderly))
  }

  function Unfinished(s: History): set<Id> { s.t.tasks - s.finished }

  /** Every task that has been added is stored, being added, or over; at most one that is over is still
      stored, and waits for clean-up; and nobody waits for an empty set when it is empty. */
  ghost predicate Accounted(s: History) {
    && s.t.counter < SIZES
    && (forall id: Id :: id in s.t.tasks || id in s.adding || id in s.finished <==> id < s.t.counter)
    && (forall id :: id in s.adding ==> id !in s.t.tasks && id !in s.finished)
    && |s.t.done| <= 1
    && (forall id :: id in s.t.done <==> id in s.t.tasks && id in s.finished)
    && (s.t.waiters != [] ==> Unfinished(s) != {})
  }

  lemma {:induction false} Bounded(s: set<Id>, n: nat)
    requires forall id :: id in s ==> id < n
    ensures |s| <= n
    decreases n
  {
    if id :| id in s {
      assert id < n;
      assert s == (s - {n - 1}) + (s * {n - 1});
      Bounded(s - {n - 1}, n - 1);
    }
  }

  lemma DoneSize(done: seq<Id>)
    requires |done| <= 1
    ensures |Elements(done)| == |done|
  {
    if done != [] {
      assert done == [done[0]] && Elements(done) == {done[0]};
    }
  }

  /** The number of unfinished tasks is the difference that the code computes, without wrap-around. */
  lemma Counts(s: History)
    requires Accounted(s)
    ensures |Unfinished(s)| == |s.t.tasks| - |s.t.done| < SIZES
    ensures IsEmpty(s.t) <==> Unfinished(s) == {}
    ensures LooksLast(s.t) <==> |Unfinished(s)| == 1
  {
    var done := Elements(s.t.done);
    assert s.t.tasks == Unfinished(s) + done && Unfinished(s) !! done;
    DoneSize(s.t.done);
    forall id | id in s.t.tasks
      ensures id < s.t.counter
    {
    }
    Bounded(s.t.tasks, s.t.counter);
  }

  lemma FinishAccounts(s: History, id: Id)
    requires Accounted(s) && Enabled(s, Finish(id)) && id in s.t.tasks
    ensures Accounted(Step(s, Finish(id)))
    ensures Step(s, Finish(id)).t.tasks == Unfinished(s)
    ensures Unfinished(Step(s, Finish(id))) == Unfinished(s) - {id}
  {
    Counts(s);
    var s' := Step(s, Finish(id));
    assert Unfinished(s') == Unfinished(s) - {id};
    if Unfinished(s') == {} {
      assert Unfinished(s) == {id};
    }
  }

  lemma StepAccounts(s: History, e: Event)
    requires Accounted(s) && Enabled(s, e) && Orderly(s, e)
    ensures Accounted(Step(s, e))
  {
    var s' := Step(s, e);
    match e
    case Finish(id) => FinishAccounts(s, id);
    case AwaitEmpty(h) => Counts(s);
    case Begin => assert Unfinished(s') == Unfinished(s);
    case Stored(id) => assert Unfinished(s') == Unfinished(s) + {id};
  }

  lemma {:induction false} RunAccounts(s: History, events: seq<Event>)
    requires Accounted(s) && Possible(s, events, true)
    ensures Accounted(Run(s, events))
    decreases |events|
  {
    if events != [] {
      StepAccounts(s, events[0]);
      RunAccounts(Step(s, events[0]), events[1..]);
    }
  }

  /** In every run in which wrappers end only after add() has stored them: the tasks that wait for
      clean-up are stored, over, distinct, and at most one; neither subtraction wraps around; empty()
      holds if and only if no task is unfinished; and nobody waits then. */
  lemma TaskSetAccounts(events: seq<Event>, s: History)
    requires Possible(START, events, true) && s == Run(START, events)
    ensures |s.t.done| <= 1 && |s.t.done| <= |s.t.tasks|
    ensures forall id :: id in s.t.done <==> id in s.t.tasks && id in s.finished
    ensures IsEmpty(s.t) <==> forall id :: id in s.t.tasks ==> id in s.finished
    ensures IsEmpty(s.t) ==> s.t.waiters == []
  {
    RunAccounts(START, events);
    Counts(s);
    assert forall id :: id in s.t.tasks ==> id in s.finished || id in Unfinished(s);
  }

  /** In these runs, those who wait for an empty set are released exactly if no other task is
      unfinished; and the frames that are freed are those of wrappers that had ended before, never that
      of the wrapper which is running. */
  lemma OrderlyEndReleasesExactly(events: seq<Event>, s: History, id: Id)
    requires Possible(START, events, true) && s == Run(START, events)
    requires Enabled(s, Finish(id)) && id in s.t.tasks
    ensures var s' := Step(s, Finish(id));
            && (LooksLast(s.t) <==> forall other :: other in s.t.tasks && other !in s.finished ==> other == id)
            && 1 <= |s.t.tasks| - |s.t.done|
            && s'.t.tasks == Unfinished(s) && id in s'.t.tasks
            && (IsEmpty(s'.t) <==> LooksLast(s.t))
  {
    RunAccounts(START, events);
    Counts(s);
    FinishAccounts(s, id);
    Counts(Step(s, Finish(id)));
    assert id in Unfinished(s);
    assert Unfinished(s) == (Unfinished(s) - {id}) + {id};
  }

  /** The coroutines that have had to wait for an empty set, in the order in which they came. */
  function Asked(s: History, events: seq<Event>): seq<Handle>
    decreases |events|
  {
    if events == [] then []
    else
      (if events[0].AwaitEmpty? && !IsEmpty(s.t) then [events[0].h] else []) + Asked(Step(s, events[0]), events[1..])
  }

  /** The coroutines that the ends of wrappers have put into the scheduler. */
  function LetGo(s: History, events: seq<Event>): seq<Handle>
    decreases |events|
  {
    if events == [] then []
    else (if events[0].Finish? && LooksLast(s.t) then s.t.waiters else []) + LetGo(Step(s, events[0]), events[1..])
  }

  /** In every run whatsoever, the coroutines that had to wait are those that have been released, followed
      by those that still wait: each is released once, in the order in which they came. */
  lemma {:induction false} ReleasedInOrder(s: History, events: seq<Event>)
    requires Possible(s, events, false)
    ensures s.t.waiters + Asked(s, events) == LetGo(s, events) + Run(s, events).t.waiters
    decreases |events|
  {
    if events == [] {
      assert s.t.waiters + [] == [] + s.t.waiters;
    } else {
      var next := Step(s, events[0]);
      ReleasedInOrder(next, events[1..]);
      var asked := if events[0].AwaitEmpty? && !IsEmpty(s.t) then [events[0].h] else [];
      var released := if events[0].Finish? && LooksLast(s.t) then s.t.waiters else [];
      assert s.t.waiters + asked == released + next.t.waiters;
      Regrouped(s.t.waiters, asked, Asked(next, events[1..]), released, next.t.waiters,
                LetGo(next, events[1..]), Run(s, events).t.waiters);
    }
  }

  lemma Regrouped(before: seq<Handle>, asked: seq<Handle>, more: seq<Handle>, released: seq<Handle>,
                  between: seq<Handle>, others: seq<Handle>, after: seq<Handle>)
    requires before + asked == released + between && between + more == others + after
    ensures before + (asked + more) == (released + others) + after
  {
    calc {
      before + (asked + more);
      (before + asked) + more;
      (released + between) + more;
      released + (between + more);
      released + (others + after);
      (released + others) + after;
    }
  }

  // ---- wrappers that end inside add() ----------------------------------------------------------------

  lemma CleanedUp(s: History)
    requires Accounted(s)
    ensures s.t.tasks - Elements(s.t.done) == Unfinished(s)
  {
  }

  /** A task that is over and still stored, but does not wait for clean-up. */
  predicate Leaked(s: History, id: Id) {
    id in s.t.tasks && id in s.finished && id !in s.t.done
  }

  /** While a wrapper that has ended is not stored, the next wrapper that ends takes its place in the
      list of those that wait for clean-up. */
  lemma {:induction false} OvertakenExactly(s: History, events: seq<Event>, id: Id)
    requires Possible(s, events, false) && id in s.adding && id in s.finished && |s.t.done| <= 1
    requires Stored(id) !in events
    ensures var s' := Run(s, events);
            && id in s'.adding && id in s'.finished && |s'.t.done| <= 1
            && (id in s'.t.done <==> id in s.t.done && forall k :: 0 <= k < |events| ==> !events[k].Finish?)
    decreases |events|
  {
    if events != [] {
      var rest := events[1..];
      OvertakenExactly(Step(s, events[0]), rest, id);
      assert forall k :: 0 <= k < |rest| ==> rest[k] == events[k + 1];
      if forall k :: 0 <= k < |rest| ==> !rest[k].Finish? {
        forall k | 0 < k < |events|
          ensures !events[k].Finish?
        {
          assert events[k] == rest[k - 1];
        }
      }
    }
  }

  /** A task that ends before it is stored will be cleaned up if and only if no other task ends in
      between, whatever else happens; otherwise it is leaked. */
  lemma LeakedExactly(s: History, events: seq<Event>, id: Id)
    requires Enabled(s, Finish(id)) && id in s.adding
    requires Possible(Step(s, Finish(id)), events, false) && Stored(id) !in events
    ensures var s' := Run(Step(s, Finish(id)), events);
            && Enabled(s', Stored(id))
            && (id in Step(s', Stored(id)).t.done <==> forall k :: 0 <= k < |events| ==> !events[k].Finish?)
            && (Leaked(Step(s', Stored(id)), id) <==> exists k :: 0 <= k < |events| && events[k].Finish?)
  {
    OvertakenExactly(Step(s, Finish(id)), events, id);
  }

  /** What holds in every run, also where wrappers end before they are stored. */
  ghost predicate Counted(s: History) {
    && s.t.counter < SIZES && |s.t.done| <= 1
    && (forall id :: id in s.t.tasks || id in s.adding || id in s.finished ==> id < s.t.counter)
    && (forall id :: id in s.t.done ==> id in s.finished)
    && s.t.tasks !! s.adding
    && (forall id: Id :: id < s.t.counter && id !in s.finished ==> id in s.t.tasks || id in s.adding)
  }

  lemma {:induction false} RunCounts(s: History, events: seq<Event>)
    requires Counted(s) && Possible(s, events, false)
    ensures Counted(Run(s, events))
    decreases |events|
  {
    if events != [] {
      StepCounts(s, events[0]);
      RunCounts(Step(s, events[0]), events[1..]);
    }
  }

  lemma StepCounts(s: History, e: Event)
    requires Counted(s) && Enabled(s, e)
    ensures Counted(Step(s, e))
  {
  }

  function LeakedTasks(s: History): set<Id> {
    set id | id in s.t.tasks && Leaked(s, id)
  }

  /** The wrapper that waits for clean-up has ended inside add(), and is not stored yet. */
  function Pending(s: History): nat {
    if s.t.done != [] && s.t.done[0] !in s.t.tasks then 1 else 0
  }

  /** The tasks that are neither over nor `id`. */
  function Others(s: History, id: Id): set<Id> { s.t.tasks + s.adding - s.finished - {id} }

  lemma Partition(whole: set<Id>, a: set<Id>, b: set<Id>, c: set<Id>)
    requires whole == a + b + c && a !! b && a !! c && b !! c
    ensures |whole| == |a| + |b| + |c|
  {
    assert |a + b| == |a| + |b|;
  }

  lemma Wraps(x: int)
    requires -(SIZES as int) < x < SIZES
    ensures x % SIZES == 0 <==> x == 0
  {
  }

  lemma Sizes(s: History)
    requires Counted(s)
    ensures |s.t.tasks| - |s.t.done| == |Unfinished(s)| + |LeakedTasks(s)| - Pending(s)
    ensures |s.t.tasks| < SIZES
  {
    var marked := s.t.tasks * Elements(s.t.done);
    assert s.t.tasks == Unfinished(s) + LeakedTasks(s) + marked;
    Partition(s.t.tasks, Unfinished(s), LeakedTasks(s), marked);
    MarkedSize(s.t.tasks, s.t.done);
    Bounded(s.t.tasks, s.t.counter);
  }

  /** What the code computes, in every state. */
  lemma Difference(s: History)
    requires Counted(s)
    ensures IsEmpty(s.t) <==> |Unfinished(s)| + |LeakedTasks(s)| == Pending(s)
    ensures LooksLast(s.t) <==> |Unfinished(s)| + |LeakedTasks(s)| == 1 + Pending(s)
  {
    Sizes(s);
    Wraps(|s.t.tasks| - |s.t.done|);
    Wraps(|s.t.tasks| - |s.t.done| - 1);
  }

  lemma MarkedSize(tasks: set<Id>, done: seq<Id>)
    requires |done| <= 1
    ensures |tasks * Elements(done)| == if done != [] && done[0] in tasks then 1 else 0
  {
    if done != [] {
      assert done == [done[0]] && Elements(done) == {done[0]};
      assert tasks * {done[0]} == if done[0] in tasks then {done[0]} else {};
    }
  }

  /** In every run: the end of a wrapper releases those who wait for an empty set if and only if the
      unfinished stored tasks and the leaked ones are one, or two while the wrapper that is marked for
      clean-up has not been stored. */
  lemma EndReleasesExactly(events: seq<Event>, s: History, id: Id)
    requires Possible(START, events, false) && s == Run(START, events) && Enabled(s, Finish(id))
    ensures Step(s, Finish(id)).t.waiters == if LooksLast(s.t) then [] else s.t.waiters
    ensures LooksLast(s.t) <==> |Unfinished(s)| + |LeakedTasks(s)| == 1 + Pending(s)
  {
    RunCounts(START, events);
    Difference(s);
  }

  /** So they are released too early, or not although the last task has ended, exactly in these cases. */
  lemma EndIsWrongExactly(events: seq<Event>, s: History, id: Id)
    requires Possible(START, events, false) && s == Run(START, events) && Enabled(s, Finish(id))
    ensures LooksLast(s.t) && Others(s, id) != {}
       <==> Others(s, id) != {} && |Unfinished(s)| + |LeakedTasks(s)| == 1 + Pending(s)
    ensures !LooksLast(s.t) && Others(s, id) == {}
       <==> Others(s, id) == {} && |LeakedTasks(s)| != if id in s.t.tasks then Pending(s) else 1 + Pending(s)
  {
    EndReleasesExactly(events, s, id);
    RunCounts(START, events);
    if Others(s, id) == {} {
      assert Unfinished(s) == if id in s.t.tasks then {id} else {} by {
        forall other | other in Unfinished(s)
          ensures other == id
        {
          assert other !in Others(s, id);
        }
      }
    }
  }

  /** In particular: if no other wrapper has ended inside add() before, a wrapper that ends there and is
      stored next loses nothing, but releases those who wait for an empty set too early if and only if
      exactly one stored task is unfinished. */
  lemma EagerEndReleasesEarlyExactly(s: History, id: Id)
    requires Accounted(s) && id in s.adding
    ensures var s' := Step(Step(s, Finish(id)), Stored(id));
            && Accounted(s')
            && Unfinished(s') == Unfinished(s)
            && (s'.t.waiters == s.t.waiters <==> s.t.waiters == [] || |Unfinished(s)| != 1)
            && (s'.t.waiters != s.t.waiters ==> s'.t.waiters == [] && !IsEmpty(s'.t))
  {
    Counts(s);
    var s' := Step(Step(s, Finish(id)), Stored(id));
    CleanedUp(s);
    assert Unfinished(s') == Unfinished(s);
    Counts(s');
  }

  /** A leaked task is never cleaned up, in any continuation. */
  lemma {:induction false} LeakedForever(s: History, events: seq<Event>, id: Id)
    requires Leaked(s, id) && Possible(s, events, false)
    ensures Leaked(Run(s, events), id)
    decreases |events|
  {
    if events != [] {
      LeakedForever(Step(s, events[0]), events[1..], id);
    }
  }

  /** In every continuation, empty() holds if and only if the leaked task is the only one that is stored
      and another one has ended before it is stored. */
  lemma LeakedIsEmptyExactly(s: History, events: seq<Event>, id: Id)
    requires Counted(s) && Leaked(s, id) && Possible(s, events, false)
    ensures var s' := Run(s, events);
            IsEmpty(s'.t) <==> s'.t.tasks == {id} && s'.t.done != [] && s'.t.done[0] !in s'.t.tasks
  {
    LeakedForever(s, events, id);
    RunCounts(s, events);
    var t := Run(s, events).t;
    Bounded(t.tasks, t.counter);
    assert t.tasks == {id} + (t.tasks - {id});
  }

  /** In orderly continuations it never does. */
  lemma {:induction false} LeakedIsNeverEmpty(s: History, events: seq<Event>, id: Id)
    requires Counted(s) && Leaked(s, id) && (forall d :: d in s.t.done ==> d in s.t.tasks && d in s.finished)
    requires Possible(s, events, true)
    ensures Leaked(Run(s, events), id) && !IsEmpty(Run(s, events).t)
    decreases |events|
  {
    if events == [] {
      LeakedIsEmptyExactly(s, [], id);
    } else {
      LeakedIsNeverEmpty(Step(s, events[0]), events[1..], id);
    }
  }

  // ---- runs in which this happens --------------------------------------------------------------------

  lemma OneEvent(s: History, e: Event, rest: seq<Event>)
    requires Enabled(s, e)
    ensures Run(s, [e] + rest) == Run(Step(s, e), rest)
    ensures Possible(s, [e] + rest, false) <==> Possible(Step(s, e), rest, false)
  {
    assert ([e] + rest)[1..] == rest;
  }

  /** A coroutine waits for the task 0; the task 1 ends inside add(), and the coroutine is released
      although the task 0 is unfinished. */
  lemma ReleasedEarly(h: Handle)
    ensures var events := [Begin] + ([Stored(0)] + ([AwaitEmpty(h)] + ([Begin] + ([Finish(1)] + ([Stored(1)] + [])))));
            && Possible(START, events, false)
            && Run(START, events) == History(Tasks(2, {0, 1}, [1], []), {}, {1})
  {
    var s1 := Step(START, Begin);
    var s2 := Step(s1, Stored(0));
    var s3 := Step(s2, AwaitEmpty(h));
    var s4 := Step(s3, Begin);
    var s5 := Step(s4, Finish(1));
    var s6 := Step(s5, Stored(1));
    assert s3 == History(Tasks(1, {0}, [], [h]), {}, {});
    assert s4 == History(Tasks(2, {0}, [], [h]), {1}, {});
    assert s5 == History(Tasks(2, {0}, [1], []), {1}, {1});
    assert s6 == History(Tasks(2, {0, 1}, [1], []), {}, {1});
    OneEvent(s5, Stored(1), []);
    OneEvent(s4, Finish(1), [Stored(1)] + []);
    OneEvent(s3, Begin, [Finish(1)] + ([Stored(1)] + []));
    OneEvent(s2, AwaitEmpty(h), [Begin] + ([Finish(1)] + ([Stored(1)] + [])));
    OneEvent(s1, Stored(0), [AwaitEmpty(h)] + ([Begin] + ([Finish(1)] + ([Stored(1)] + []))));
    OneEvent(START, Begin, [Stored(0)] + ([AwaitEmpty(h)] + ([Begin] + ([Finish(1)] + ([Stored(1)] + [])))));
  }

  /** The task 1 is stored and ends while the task 0, which has ended inside add(), is not stored: both
      are over, and the set is not empty. */
  lemma LeakHappens()
    ensures var events := [Begin] + ([Begin] + ([Stored(1)] + ([Finish(0)] + ([Finish(1)] + ([Stored(0)] + [])))));
            && Possible(START, events, false)
            && Run(START, events) == History(Tasks(2, {0, 1}, [1], []), {}, {0, 1})
            && Leaked(Run(START, events), 0) && !IsEmpty(Run(START, events).t)
  {
    var s1 := Step(START, Begin);
    var s2 := Step(s1, Begin);
    var s3 := Step(s2, Stored(1));
    var s4 := Step(s3, Finish(0));
    var s5 := Step(s4, Finish(1));
    var s6 := Step(s5, Stored(0));
    assert s3 == History(Tasks(2, {1}, [], []), {0}, {});
    assert s4 == History(Tasks(2, {1}, [0], []), {0}, {0});
    assert s5 == History(Tasks(2, {1}, [1], []), {0}, {0, 1});
    assert s6 == History(Tasks(2, {0, 1}, [1], []), {}, {0, 1});
    OneEvent(s5, Stored(0), []);
    OneEvent(s4, Finish(1), [Stored(0)] + []);
    OneEvent(s3, Finish(0), [Finish(1)] + ([Stored(0)] + []));
    OneEvent(s2, Stored(1), [Finish(0)] + ([Finish(1)] + ([Stored(0)] + [])));
    OneEvent(s1, Begin, [Stored(1)] + ([Finish(0)] + ([Finish(1)] + ([Stored(0)] + []))));
    OneEvent(START, Begin, [Begin] + ([Stored(1)] + ([Finish(0)] + ([Finish(1)] + ([Stored(0)] + [])))));
  }

  /** ... until a third task ends inside add(). */
  lemma LeakIsHidden(s: History)
    requires s == History(Tasks(2, {0, 1}, [1], []), {}, {0, 1})
    ensures Possible(s, [Begin] + ([Finish(2)] + []), false) && IsEmpty(Run(s, [Begin] + ([Finish(2)] + [])).t)
  {
    var s1 := Step(s, Begin);
    var s2 := Step(s1, Finish(2));
    assert s2.t.tasks == {0} && s2.t.done == [2];
    OneEvent(s1, Finish(2), []);
    OneEvent(s, Begin, [Finish(2)] + []);
  }

  /** Two tasks end inside nested calls of add(): the second end releases the coroutine although two other
      tasks are unfinished. */
  lemma ReleasedByNestedAdds(h: Handle)
    ensures var last := [Begin] + ([Finish(2)] + ([Begin] + ([Finish(3)] + [])));
            var events := [Begin] + ([Stored(0)] + ([Begin] + ([Stored(1)] + ([AwaitEmpty(h)] + last))));
            && Possible(START, events, false)
            && Run(START, events) == History(Tasks(4, {0, 1}, [3], []), {2, 3}, {2, 3})
  {
    var s1 := Step(START, Begin);
    var s2 := Step(s1, Stored(0));
    var s3 := Step(s2, Begin);
    var s4 := Step(s3, Stored(1));
    var s5 := Step(s4, AwaitEmpty(h));
    assert s4 == History(Tasks(2, {0, 1}, [], []), {}, {});
    assert s5 == History(Tasks(2, {0, 1}, [], [h]), {}, {});
    NestedAdds(s5, h);
    var last := [Begin] + ([Finish(2)] + ([Begin] + ([Finish(3)] + [])));
    OneEvent(s4, AwaitEmpty(h), last);
    OneEvent(s3, Stored(1), [AwaitEmpty(h)] + last);
    OneEvent(s2, Begin, [Stored(1)] + ([AwaitEmpty(h)] + last));
    OneEvent(s1, Stored(0), [Begin] + ([Stored(1)] + ([AwaitEmpty(h)] + last)));
    OneEvent(START, Begin, [Stored(0)] + ([Begin] + ([Stored(1)] + ([AwaitEmpty(h)] + last))));
  }

  lemma NestedAdds(s: History, h: Handle)
    requires s == History(Tasks(2, {0, 1}, [], [h]), {}, {})
    ensures var last := [Begin] + ([Finish(2)] + ([Begin] + ([Finish(3)] + [])));
            Possible(s, last, false) && Run(s, last) == History(Tasks(4, {0, 1}, [3], []), {2, 3}, {2, 3})
  {
    var s1 := Step(s, Begin);
    var s2 := Step(s1, Finish(2));
    var s3 := Step(s2, Begin);
    var s4 := Step(s3, Finish(3));
    assert s2 == History(Tasks(3, {0, 1}, [2], [h]), {2}, {2});
    assert s3 == History(Tasks(4, {0, 1}, [2], [h]), {2, 3}, {2});
    assert s4 == History(Tasks(4, {0, 1}, [3], []), {2, 3}, {2, 3});
    OneEvent(s3, Finish(3), []);
    OneEvent(s2, Begin, [Finish(3)] + []);
    OneEvent(s1, Finish(2), [Begin] + ([Finish(3)] + []));
    OneEvent(s, Begin, [Finish(2)] + ([Begin] + ([Finish(3)] + [])));
  }

  /** After a leak, a coroutine that waits for an empty set is not released although every task is over. */
  lemma NeverReleased(s: History, h: Handle)
    requires s == History(Tasks(2, {0, 1}, [1], []), {}, {0, 1})
    ensures var events := [Begin] + ([Stored(2)] + ([AwaitEmpty(h)] + ([Finish(2)] + [])));
            && Possible(s, events, false)
            && Run(s, events) == History(Tasks(3, {0, 2}, [2], [h]), {}, {0, 1, 2})
  {
    var s1 := Step(s, Begin);
    var s2 := Step(s1, Stored(2));
    var s3 := Step(s2, AwaitEmpty(h));
    var s4 := Step(s3, Finish(2));
    assert s2 == History(Tasks(3, {0, 1, 2}, [1], []), {}, {0, 1});
    assert s3 == History(Tasks(3, {0, 1, 2}, [1], [h]), {}, {0, 1});
    assert s4 == History(Tasks(3, {0, 2}, [2], [h]), {}, {0, 1, 2});
    OneEvent(s3, Finish(2), []);
    OneEvent(s2, AwaitEmpty(h), [Finish(2)] + []);
    OneEvent(s1, Stored(2), [AwaitEmpty(h)] + ([Finish(2)] + []));
    OneEvent(s, Begin, [Stored(2)] + ([AwaitEmpty(h)] + ([Finish(2)] + [])));
  }
}
