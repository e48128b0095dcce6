/** Why a coroutine that waits by a plain co_await must not be destroyed before the promise it waits
    for: its awaiter does not deregister. */
module DroppedNext {
  import opened Wrappers
  import opened Schedulers
  import opened Cores
  import opened Generators
  import opened Channels
  import opened Runtime
  import opened Destruction
  import opened RuntimeInvariant
  import opened RuntimeSafety

  /** A generator, the coroutine 0, waits for input. */
  function Generating(): World {
    World(map[0 := Frame(NewCore(), Gen(false, false), None, AtExternal(true))], [], map[], [])
  }

  /** The coroutine 1 awaits its next value, as MultiPromise::next() does. */
  function Awaiting(): World {
    World(map[0 := Frame(Core(WaitedOn, Some(1), None), Gen(false, false), None, AtExternal(true)),
              1 := Frame(NewCore(), Plain, None, AtGenerator(0))], [], map[], [])
  }

  /** The promise of coroutine 1 has been dropped. */
  function Dangling(): World {
    World(map[0 := Frame(Core(WaitedOn, Some(1), None), Gen(false, false), None, AtExternal(true))], [], map[], [])
  }

  /** The generator has got its input, and yields. */
  function Scheduling(v: Value): World {
    World(map[0 := Frame(Core(Finished, None, Some(Value(v))), Gen(true, false), None, AtYield)], [Some(1)], map[], [])
  }

  ghost predicate Reachable(start: World, w: World) {
    exists events :: Reaches(start, events, w)
  }

  lemma ReachableNext(start: World, before: World, e: Event, after: World)
    requires Reachable(start, before) && Enabled(before, e) && Step(before, e) == after
    ensures Reachable(start, after)
  {
    var events :| Reaches(start, events, before);
    assert (events + [e])[..|events + [e]| - 1] == events;
    assert Reaches(start, events + [e], after);
  }

  lemma ReachableNow(w: World)
    ensures Reachable(w, w)
  {
    assert Reaches(w, [], w);
  }

  lemma StartAlone(w: World, n: Handle, generator: bool)
    requires w.stack == [] && n !in w.frames
    ensures Enabled(w, Start(n, generator, {}))
    ensures Step(w, Start(n, generator, {}))
            == w.(frames := w.frames[n := Frame(NewCore(), if generator then Gen(false, false) else Plain,
                                                None, OnStack)],
                  stack := [n])
  {
    var e := Start(n, generator, {});
    assert Step(w, e).frames
        == w.frames[n := Frame(NewCore(), if generator then Gen(false, false) else Plain, None, OnStack)];
  }

  lemma NextIsAwaited(w: World)
    requires w == Generating().(frames := Generating().frames[1 := Frame(NewCore(), Plain, None, OnStack)],
                                stack := [1])
    ensures Enabled(w, AwaitGenerator(0)) && Step(w, AwaitGenerator(0)) == Awaiting()
  {
    assert Step(w, AwaitGenerator(0)).frames == Awaiting().frames;
  }

  lemma GeneratorWaits(w: World)
    requires w == World(map[0 := Frame(NewCore(), Gen(false, false), None, OnStack)], [], map[], [0])
    ensures Enabled(w, WaitExternally(false)) && Step(w, WaitExternally(false)) == Generating()
  {
  }

  lemma AwaitingIsReachable()
    ensures Reachable(Empty(map[]), Awaiting())
  {
    var w0 := Empty(map[]);
    ReachableNow(w0);
    StartAlone(w0, 0, true);
    var w1 := Step(w0, Start(0, true, {}));
    ReachableNext(w0, w0, Start(0, true, {}), w1);
    GeneratorWaits(w1);
    ReachableNext(w0, w1, WaitExternally(false), Generating());
    StartAlone(Generating(), 1, false);
    var w3 := Step(Generating(), Start(1, false, {}));
    ReachableNext(w0, Generating(), Start(1, false, {}), w3);
    NextIsAwaited(w3);
    ReachableNext(w0, w3, AwaitGenerator(0), Awaiting());
  }

  lemma DroppingLeavesHandle()
    ensures Owns(Awaiting(), 1) && Doomed(Awaiting(), 1, true) == {1}
    ensures Unreferenced(Awaiting(), {1}) && !NoneLeftBehind(Awaiting(), {1})
    ensures Destroy(Awaiting(), 1, true) == Dangling()
  {
    var w := Awaiting();
    var rest := Unhook(w, 1, true);
    assert rest.frames == Dangling().frames;
    assert Kids(w, 1) == {};
    assert Destroy(w, 1, true) == DestroyAll(rest, {}) == rest;
    assert w.frames[0].core.waiting == Some(1);
  }

  lemma InputArrives(w: World)
    requires w == Dangling()
    ensures Enabled(w, Callback(0))
    ensures Step(w, Callback(0)) == World(map[0 := w.frames[0].(place := AtExternal(false))], [Some(0)], map[], [])
  {
  }

  lemma GeneratorContinues(w: World, x: Frame)
    requires x.place == AtExternal(false) && w == World(map[0 := x], [Some(0)], map[], [])
    ensures Enabled(w, Loop)
    ensures Step(w, Loop) == World(map[0 := x.(place := OnStack)], [], map[], [0])
  {
  }

  lemma GeneratorYields(w: World, v: Value)
    requires w == World(map[0 := Frame(Core(WaitedOn, Some(1), None), Gen(false, false), None, OnStack)],
                        [], map[], [0])
    ensures Enabled(w, CoYield(v)) && Step(w, CoYield(v)) == Scheduling(v)
  {
  }

  lemma HandleIsScheduled(v: Value)
    ensures Reachable(Dangling(), Scheduling(v))
  {
    var w0 := Dangling();
    ReachableNow(w0);
    InputArrives(w0);
    var w1 := Step(w0, Callback(0));
    ReachableNext(w0, w0, Callback(0), w1);
    GeneratorContinues(w1, w1.frames[0]);
    var w2 := Step(w1, Loop);
    ReachableNext(w0, w1, Loop, w2);
    GeneratorYields(w2, v);
    ReachableNext(w0, w2, CoYield(v), Scheduling(v));
  }

  /** The call of next() on somebody else's generator is dropped while it waits. Nothing refers to the
      dropped coroutine; still its handle stays with the generator, and is scheduled when that yields. */
  lemma DroppedNextIsScheduled(v: Value)
    ensures Reachable(Empty(map[]), Awaiting())
    ensures Owns(Awaiting(), 1) && Unreferenced(Awaiting(), Doomed(Awaiting(), 1, true))
    ensures Reachable(Destroy(Awaiting(), 1, true), Scheduling(v))
    ensures Some(1) in Scheduling(v).queue && 1 !in Scheduling(v).frames
  {
    AwaitingIsReachable();
    DroppingLeavesHandle();
    HandleIsScheduled(v);
    assert Scheduling(v).queue[0] == Some(1);
  }
}

/** A coroutine that is left by an exception destroys its locals before it wakes its waiter. */
module Unwinding {
  import opened Wrappers
  import opened Schedulers
  import opened Cores
  import opened Generators
  import opened Channels
  import opened Runtime
  import opened Destruction
  import opened RuntimeInvariant
  import opened RuntimeSafety
  import opened RuntimeOwnership
  import opened DroppedNext

  /** The running coroutine 0 owns the coroutine 1, which awaits it. */
  function AwaitedByChild(): World {
    World(map[0 := Frame(Core(WaitedOn, Some(1), None), Plain, None, OnStack),
              1 := Frame(NewCore(), Plain, Some(0), AtPromise(0))], [], map[], [0])
  }

  /** The coroutine 0, its child, and the queue and stack of a moment on the way there. */
  function Moment(parent: Place, child: Place, queue: seq<Entry>, stack: seq<Handle>): World {
    World(map[0 := Frame(NewCore(), Plain, None, parent), 1 := Frame(NewCore(), Plain, Some(0), child)],
          queue, map[], stack)
  }

  lemma ChildStarts(w: World)
    requires w == World(map[0 := Frame(NewCore(), Plain, None, OnStack)], [], map[], [0])
    ensures Enabled(w, Start(1, false, {})) && Step(w, Start(1, false, {})) == Moment(OnStack, OnStack, [], [0, 1])
  {
    assert Step(w, Start(1, false, {})).frames == Moment(OnStack, OnStack, [], [0, 1]).frames;
  }

  lemma TopWaits(parent: Place, child: Place, stack: seq<Handle>, w: World, w': World)
    requires w == Moment(parent, child, [], stack)
    requires stack == [0, 1] || stack == [0]
    requires w' == if stack == [0] then Moment(AtExternal(true), child, [], [])
                   else Moment(parent, AtExternal(true), [], [0])
    ensures Enabled(w, WaitExternally(false)) && Step(w, WaitExternally(false)) == w'
  {
    assert stack[..|stack| - 1] == w'.stack;
    assert Step(w, WaitExternally(false)).frames == w'.frames;
  }

  lemma ChildIsCalledBack(w: World)
    requires w == Moment(AtExternal(true), AtExternal(true), [], [])
    ensures Enabled(w, Callback(1))
    ensures Step(w, Callback(1)) == Moment(AtExternal(true), AtExternal(false), [Some(1)], [])
  {
    assert Step(w, Callback(1)).frames == Moment(AtExternal(true), AtExternal(false), [Some(1)], []).frames;
  }

  lemma ChildRuns(w: World)
    requires w == Moment(AtExternal(true), AtExternal(false), [Some(1)], [])
    ensures Enabled(w, Loop) && Step(w, Loop) == Moment(AtExternal(true), OnStack, [], [1])
  {
    assert Step(w, Loop).frames == Moment(AtExternal(true), OnStack, [], [1]).frames;
  }

  /** The child awaits its parent, whose promise the main program holds. */
  lemma ChildAwaits(w: World)
    requires w == Moment(AtExternal(true), OnStack, [], [1])
    ensures Enabled(w, Await(0)) && Step(w, Await(0)) == Resumable(AtExternal(true), [], [])
  {
    assert Step(w, Await(0)).frames == Resumable(AtExternal(true), [], []).frames;
  }

  function Resumable(parent: Place, queue: seq<Entry>, stack: seq<Handle>): World {
    World(map[0 := Frame(Core(WaitedOn, Some(1), None), Plain, None, parent),
              1 := Frame(NewCore(), Plain, Some(0), AtPromise(0))], queue, map[], stack)
  }

  lemma ParentIsCalledBack(w: World)
    requires w == Resumable(AtExternal(true), [], [])
    ensures Enabled(w, Callback(0)) && Step(w, Callback(0)) == Resumable(AtExternal(false), [Some(0)], [])
  {
    assert Step(w, Callback(0)).frames == Resumable(AtExternal(false), [Some(0)], []).frames;
  }

  lemma ParentRuns(w: World)
    requires w == Resumable(AtExternal(false), [Some(0)], [])
    ensures Enabled(w, Loop) && Step(w, Loop) == AwaitedByChild()
  {
    assert Step(w, Loop).frames == AwaitedByChild().frames;
  }

  lemma BothWait()
    ensures Reachable(Empty(map[]), Moment(AtExternal(true), AtExternal(true), [], []))
  {
    var w0 := Empty(map[]);
    ReachableNow(w0);
    StartAlone(w0, 0, false);
    var w1 := Step(w0, Start(0, false, {}));
    ReachableNext(w0, w0, Start(0, false, {}), w1);
    ChildStarts(w1);
    var w2 := Moment(OnStack, OnStack, [], [0, 1]);
    ReachableNext(w0, w1, Start(1, false, {}), w2);
    var w3 := Moment(OnStack, AtExternal(true), [], [0]);
    TopWaits(OnStack, OnStack, [0, 1], w2, w3);
    ReachableNext(w0, w2, WaitExternally(false), w3);
    var w4 := Moment(AtExternal(true), AtExternal(true), [], []);
    TopWaits(OnStack, AtExternal(true), [0], w3, w4);
    ReachableNext(w0, w3, WaitExternally(false), w4);
  }

  lemma AwaitedByChildIsReachable()
    ensures Reachable(Empty(map[]), AwaitedByChild())
  {
    var w0, w4 := Empty(map[]), Moment(AtExternal(true), AtExternal(true), [], []);
    BothWait();
    ChildIsCalledBack(w4);
    var w5 := Moment(AtExternal(true), AtExternal(false), [Some(1)], []);
    ReachableNext(w0, w4, Callback(1), w5);
    ChildRuns(w5);
    var w6 := Moment(AtExternal(true), OnStack, [], [1]);
    ReachableNext(w0, w5, Loop, w6);
    ChildAwaits(w6);
    var w7 := Resumable(AtExternal(true), [], []);
    ReachableNext(w0, w6, Await(0), w7);
    ParentIsCalledBack(w7);
    var w8 := Resumable(AtExternal(false), [Some(0)], []);
    ReachableNext(w0, w7, Callback(0), w8);
    ParentRuns(w8);
    ReachableNext(w0, w8, Loop, AwaitedByChild());
  }

  lemma OnlyTheChildDies(w: World)
    requires Settled(w) && w.frames.Keys == {0, 1} && w.frames[0].owner == None && w.frames[1].owner == Some(0)
    ensures DoomedAll(w, {1}) == {1} && DestroyAll(w, {1}) == Erase(w, {1})
  {
    AllRootsDie(w, {1});
    RecursiveDestructionErasesAll(w, {1}, {1});
  }

  lemma AwaitedByChildIsSettled()
    ensures Reachable(Empty(map[]), AwaitedByChild()) && Inv(AwaitedByChild()) && Settled(AwaitedByChild())
  {
    AwaitedByChildIsReachable();
    var events :| Reaches(Empty(map[]), events, AwaitedByChild());
    EveryRunIsSafe(map[], events, AwaitedByChild());
    InvIsSettled(AwaitedByChild());
  }

  lemma ChildIsDroppable(w: World, v: Value)
    requires w == AwaitedByChild()
    ensures var after := Ends(w, Value(v));
            && after.frames.Keys == {0, 1} && after.frames[0].owner == None && after.frames[1].owner == Some(0)
            && Droppable(after, {1})
  {
  }

  lemma ReturningIsEnabled(w: World, v: Value)
    requires w == AwaitedByChild() && Inv(w)
    ensures Enabled(w, Finish(Value(v), {1}))
  {
    ChildIsDroppable(w, v);
    var after := Ends(w, Value(v));
    EndsKeeps(w, Value(v));
    InvIsSettled(after);
    OnlyTheChildDies(after);
    assert {1} <= Kids(w, 0);
  }

  lemma UnwindingIsNotEnabled(w: World, error: Exception)
    requires w == AwaitedByChild() && DoomedAll(w, {1}) == {1}
    ensures Callable(w, Finish(Thrown(error), {1})) && !Enabled(w, Finish(Thrown(error), {1}))
  {
    assert w.frames[0].core.waiting == Some(1);
  }

  lemma UnwindingSchedules(w: World, error: Exception)
    requires w == AwaitedByChild() && DoomedAll(w, {1}) == {1} && DestroyAll(w, {1}) == Erase(w, {1})
    ensures var after := Concluded(w, Thrown(error), {1}); Some(1) in after.queue && 1 !in after.frames
  {
    var unwound := Erase(w, {1});
    assert unwound.queue == [] && unwound.frames[0].core == w.frames[0].core;
    assert Ends(unwound, Thrown(error)).queue[0] == Some(1);
  }

  /** Returning, the coroutine may destroy the child that awaits it, because it has woken it before. If
      it is left by an exception, the child's handle stays in its core, and is scheduled after the
      child's destruction. */
  lemma UnwoundChildIsScheduled(v: Value, error: Exception)
    ensures Reachable(Empty(map[]), AwaitedByChild())
    ensures Enabled(AwaitedByChild(), Finish(Value(v), {1}))
    ensures Callable(AwaitedByChild(), Finish(Thrown(error), {1}))
    ensures !Enabled(AwaitedByChild(), Finish(Thrown(error), {1}))
    ensures 0 !in DoomedAll(AwaitedByChild(), {1})
    ensures var after := Concluded(AwaitedByChild(), Thrown(error), {1}); Some(1) in after.queue && 1 !in after.frames
  {
    AwaitedByChildIsSettled();
    OnlyTheChildDies(AwaitedByChild());
    ReturningIsEnabled(AwaitedByChild(), v);
    UnwindingIsNotEnabled(AwaitedByChild(), error);
    UnwindingSchedules(AwaitedByChild(), error);
  }
}

/** A generator with two consumers: the second one takes the value for which the first one has been woken. */
module StolenValue {
  import opened Wrappers
  import opened Schedulers
  import opened Cores
  import opened Generators
  import opened Channels
  import opened Runtime
  import opened DroppedNext

  /** The coroutine 1 has awaited the generator 0, which has yielded. */
  function Yielded(v: Value): World {
    World(map[0 := Frame(Core(Finished, None, Some(Value(v))), Gen(true, false), None, AtYield),
              1 := Frame(NewCore(), Plain, None, AtGenerator(0))], [Some(1)], map[], [])
  }

  /** The coroutine 2 has come and taken the value. */
  function Stolen(): World {
    World(map[0 := Frame(Core(Finished, None, None), Gen(true, false), None, AtYield),
              1 := Frame(NewCore(), Plain, None, AtGenerator(0)),
              2 := Frame(NewCore(), Plain, None, AtExternal(true))], [Some(1)], map[], [])
  }

  lemma GeneratorIsCalled(w: World)
    requires w == Awaiting()
    ensures Enabled(w, Callback(0))
    ensures Step(w, Callback(0))
         == w.(frames := w.frames[0 := w.frames[0].(place := AtExternal(false))], queue := [Some(0)])
  {
  }

  lemma GeneratorRuns(w: World)
    requires w == Awaiting().(frames := Awaiting().frames[0 := Awaiting().frames[0].(place := AtExternal(false))],
                              queue := [Some(0)])
    ensures Enabled(w, Loop)
    ensures Step(w, Loop) == w.(frames := w.frames[0 := w.frames[0].(place := OnStack)], queue := [], stack := [0])
  {
  }

  lemma GeneratorYieldsTo(w: World, v: Value)
    requires w == Awaiting().(frames := Awaiting().frames[0 := Awaiting().frames[0].(place := OnStack)],
                              stack := [0])
    ensures Enabled(w, CoYield(v)) && Step(w, CoYield(v)) == Yielded(v)
  {
    assert Step(w, CoYield(v)).frames == Yielded(v).frames;
  }

  function Arrived(v: Value): World {
    Yielded(v).(frames := Yielded(v).frames[2 := Frame(NewCore(), Plain, None, OnStack)], stack := [2])
  }

  function Taking(): World {
    Stolen().(frames := Stolen().frames[2 := Frame(NewCore(), Plain, None, OnStack)], stack := [2])
  }

  lemma ThiefArrives(v: Value)
    ensures Enabled(Yielded(v), Start(2, false, {})) && Step(Yielded(v), Start(2, false, {})) == Arrived(v)
  {
    StartAlone(Yielded(v), 2, false);
  }

  lemma ThiefTakes(v: Value)
    ensures Enabled(Arrived(v), AwaitGenerator(0)) && Step(Arrived(v), AwaitGenerator(0)) == Taking()
  {
    assert Step(Arrived(v), AwaitGenerator(0)).frames == Taking().frames;
  }

  lemma ThiefLeaves()
    ensures Enabled(Taking(), WaitExternally(false)) && Step(Taking(), WaitExternally(false)) == Stolen()
  {
    assert Step(Taking(), WaitExternally(false)).frames == Stolen().frames;
  }

  lemma YieldedIsReachable(v: Value)
    ensures Reachable(Empty(map[]), Yielded(v))
  {
    var w0 := Empty(map[]);
    AwaitingIsReachable();
    GeneratorIsCalled(Awaiting());
    var w1 := Step(Awaiting(), Callback(0));
    ReachableNext(w0, Awaiting(), Callback(0), w1);
    GeneratorRuns(w1);
    var w2 := Step(w1, Loop);
    ReachableNext(w0, w1, Loop, w2);
    GeneratorYieldsTo(w2, v);
    ReachableNext(w0, w2, CoYield(v), Yielded(v));
  }

  lemma StolenIsReachable(v: Value)
    ensures Reachable(Empty(map[]), Stolen())
  {
    var w0 := Empty(map[]);
    YieldedIsReachable(v);
    ThiefArrives(v);
    ReachableNext(w0, Yielded(v), Start(2, false, {}), Arrived(v));
    ThiefTakes(v);
    ReachableNext(w0, Arrived(v), AwaitGenerator(0), Taking());
    ThiefLeaves();
    ReachableNext(w0, Taking(), WaitExternally(false), Stolen());
  }

  lemma FirstIsNext()
    ensures NextHandle(Stolen().queue, DoneSet(Stolen())) == Some(1)
  {
    assert DoneSet(Stolen()) == {};
  }

  /** The first consumer is resumed next, and is told that the generator has nothing more, although it stands
      at a co_yield and may go on. */
  lemma ValueIsStolen(v: Value)
    ensures Reachable(Empty(map[]), Stolen())
    ensures NextHandle(Stolen().queue, DoneSet(Stolen())) == Some(1) && Stolen().frames[1].place == AtGenerator(0)
    ensures Reply(Stolen().frames[0].AsGen()) == Ended && !Stolen().frames[0].kind.terminated
  {
    StolenIsReachable(v);
    FirstIsNext();
  }
}
