/** The channels of the runtime, seen one by one: what the whole runtime does to a channel is a run of
    that channel in the sense of ChannelRuns, so that whatever is proved there holds here. */
module RuntimeChannels {
  import opened Wrappers
  import opened Schedulers
  import opened Cores
  import opened Generators
  import opened Channels
  import opened Runtime
  import opened Destruction
  import opened RuntimeInvariant
  import opened RuntimeSteps
  import opened RuntimeSafety
  import opened RuntimeTheorems
  import CR = ChannelRuns
  import SR = SchedulerRuns

  // ---- turns that end at a channel -----------------------------------------------------------------

  predicate At(w: World, f: Handle, c: nat, side: Side) {
    f in w.frames && w.frames[f].place == AtChannel(c, side)
  }

  /** The coroutine that has just been resumed was waiting at a channel: what it does first is to take
      its item there, or to put it there. */
  function Duty(w: World, w': World): Option<(nat, Side)> {
    if w'.stack != [] && Top(w') in w.frames && w.frames[Top(w')].place.AtChannel?
    then Some((w.frames[Top(w')].place.c, w.frames[Top(w')].place.side)) else None
  }

  predicate Prompt(due: Option<(nat, Side)>, e: Event) {
    match due
    case Some((c, Reader)) => e == GetResumed(c)
    case Some((c, Writer)) => e.PutResumed? && e.c == c
    case None => !e.GetResumed? && !e.PutResumed?
  }

  predicate IsOwed(w: World, due: Option<(nat, Side)>, c: nat, side: Side, f: Handle) {
    || (At(w, f, c, side) && c in w.chans && Some(f) !in Ring(w.chans[c], side))
    || (due == Some((c, side)) && w.stack != [] && f == Top(w))
  }

  /** The coroutines that have been woken at a channel and have not yet taken or put an item. */
  function Owed(w: World, due: Option<(nat, Side)>, c: nat, side: Side): set<Handle> {
    set f | f in w.frames && IsOwed(w, due, c, side, f)
  }

  /** The channel `c` of the world is in the state `s`. */
  predicate Shows(w: World, due: Option<(nat, Side)>, c: nat, s: CR.System<Value>) {
    && c in w.chans && s.chan == w.chans[c]
    && s.wokenReaders == multiset(Owed(w, due, c, Reader))
    && s.wokenWriters == multiset(Owed(w, due, c, Writer))
  }

  /** What a run may be required to respect: that nobody who has been woken at a channel is destroyed
      before it runs, and that no fresh call takes what is owed to a woken coroutine. */
  datatype Rules = Rules(survive: bool, fair: bool)

  ghost predicate WokenSurvive(w: World, e: Event)
    requires Enabled(w, e)
  {
    forall f, c, side ::
      At(w, f, c, side) && c in w.chans && f !in Step(w, e).frames ==> Some(f) in Ring(w.chans[c], side)
  }

  predicate NoBypass(w: World, e: Event) {
    match e
    case Get(c) => c in w.chans ==> w.chans[c].items == [] || |Owed(w, None, c, Reader)| < |w.chans[c].items|
    case Put(c, _) =>
      c in w.chans ==>
        || !CR.HasSpace(w.chans[c])
        || |Owed(w, None, c, Writer)| < w.chans[c].capacity - |w.chans[c].items|
    case _ => true
  }

  ghost predicate Respects(w: World, e: Event, rules: Rules)
    requires Enabled(w, e)
  {
    (rules.survive ==> WokenSurvive(w, e)) && (rules.fair ==> NoBypass(w, e))
  }

  /** Worlds that are reached while every coroutine that is resumed at a channel turns to it first, as
      put() and get() do; with the calls that have been made at each channel. */
  ghost predicate ReachesPromptly(
    start: World, events: seq<Event>, w: World, due: Option<(nat, Side)>, calls: map<nat, seq<CR.Event<Value>>>,
    rules: Rules)
    decreases |events|
  {
    if events == [] then w == start && due == None && calls == map c | c in start.chans :: []
    else
      var prefix, last := events[..|events| - 1], events[|events| - 1];
      exists before, owed, earlier ::
        && ReachesPromptly(start, prefix, before, owed, earlier, rules)
        && Enabled(before, last) && Prompt(owed, last) && Respects(before, last, rules)
        && w == Step(before, last) && due == Duty(before, w)
        && calls == map c | c in earlier :: earlier[c] + CallAt(before, last, c)
  }

  // ---- runs of one channel -----------------------------------------------------------------------------

  ghost predicate Follows(rules: Rules, s: CR.System<Value>, e: CR.Event<Value>) {
    (rules.survive ==> CR.WokenSurvive(s, e)) && (rules.fair ==> CR.NoBypass(s, e))
  }

  ghost function Following(rules: Rules): (CR.System<Value>, CR.Event<Value>) -> bool {
    (s, e) => Follows(rules, s, e)
  }

  predicate IsCall(e: CR.Event<Value>) { e.Put? || e.Get? || e.PutResumed? || e.GetResumed? }

  /** The calls among the events of a channel, as opposed to cancellations. */
  function CallsIn(events: seq<CR.Event<Value>>): seq<CR.Event<Value>> {
    if events == [] then []
    else CallsIn(events[..|events| - 1]) + if IsCall(events[|events| - 1]) then [events[|events| - 1]] else []
  }

  /** How a channel starts, what its runs respect, and the calls that coroutines have made so far. */
  datatype Course = Course(start: CR.System<Value>, rules: Rules, calls: seq<CR.Event<Value>>)

  /** Some run of the channel with exactly these calls leads to `s`. */
  ghost predicate Reached(course: Course, s: CR.System<Value>) {
    exists events ::
      && CR.Possible(course.start, events, Following(course.rules)) && CR.Run(course.start, events) == s
      && CallsIn(events) == course.calls
  }

  function Calling(course: Course, e: CR.Event<Value>): Course {
    if IsCall(e) then course.(calls := course.calls + [e]) else course
  }

  lemma CallsExtended(before: seq<CR.Event<Value>>, e: CR.Event<Value>)
    ensures CallsIn(before + [e]) == CallsIn(before) + if IsCall(e) then [e] else []
  {
    assert (before + [e])[..|before|] == before;
  }

  lemma CallingIs(course: Course, e: CR.Event<Value>)
    ensures Calling(course, e).calls == course.calls + if IsCall(e) then [e] else []
  {
    assert course.calls + [] == course.calls;
  }

  lemma ReachedNext(course: Course, s: CR.System<Value>, e: CR.Event<Value>)
    requires Reached(course, s) && CR.Enabled(s, e) && Follows(course.rules, s, e)
    ensures Reached(Calling(course, e), CR.Step(s, e))
  {
    var before :|
      && CR.Possible(course.start, before, Following(course.rules)) && CR.Run(course.start, before) == s
      && CallsIn(before) == course.calls;
    var events, after := CR.RunOne(course.start, before, e, Following(course.rules));
    CallsExtended(before, e);
    CallingIs(course, e);
  }

  /** The call at the channel `c` that an event makes. */
  function CallAt(w: World, e: Event, c: nat): seq<CR.Event<Value>> {
    if w.stack == [] then []
    else
      match e
      case Put(d, item) => if d == c then [CR.Put(Top(w), item)] else []
      case Get(d) => if d == c then [CR.Get(Top(w))] else []
      case PutResumed(d, item) => if d == c then [CR.PutResumed(Top(w), item)] else []
      case GetResumed(d) => if d == c then [CR.GetResumed(Top(w))] else []
      case _ => []
  }

  // ---- steps that a channel does not notice --------------------------------------------------------------

  ghost predicate SameAt(w: World, w': World) {
    w'.chans == w.chans && forall f, c, side :: At(w', f, c, side) <==> At(w, f, c, side)
  }

  lemma SameOwed(w: World, w': World, c: nat, s: CR.System<Value>)
    requires SameAt(w, w') && Shows(w, None, c, s)
    ensures Shows(w', None, c, s)
  {
    forall side
      ensures Owed(w', None, c, side) == Owed(w, None, c, side)
    {
      forall f
        ensures IsOwed(w', None, c, side, f) <==> IsOwed(w, None, c, side, f)
      {
        assert At(w', f, c, side) <==> At(w, f, c, side);
      }
    }
  }

  /** Nobody new is on the stack. */
  ghost predicate NobodyResumed(w: World, w': World) {
    forall f :: f in w'.stack && f in w.frames ==> f in w.stack
  }

  lemma NoDuty(w: World, w': World)
    requires StackOK(w) && NobodyResumed(w, w')
    ensures Duty(w, w') == None
  {
    if w'.stack != [] && Top(w') in w.frames {
      assert Top(w') in w'.stack;
      var i :| 0 <= i < |w.stack| && w.stack[i] == Top(w');
    }
  }

  lemma Unnoticed(w: World, w': World, c: nat, s: CR.System<Value>)
    requires StackOK(w) && SameAt(w, w') && NobodyResumed(w, w') && Shows(w, None, c, s)
    ensures Shows(w', Duty(w, w'), c, s)
  {
    SameOwed(w, w', c, s);
    NoDuty(w, w');
  }

  /** Only the place of the coroutine that runs next changes. */
  lemma ResumedPlaces(w: World, h: Handle)
    requires Inv(w) && NextHandle(w.queue, DoneSet(w)) == Some(h)
    ensures var w' := RunNext(w);
            && h in w.frames && w'.chans == w.chans && w'.stack == w.stack + [h] && w'.frames.Keys == w.frames.Keys
            && forall f :: f in w.frames ==> w'.frames[f].place == if f == h then OnStack else w.frames[f].place
  {
    NextIsSuspended(w, h);
    var rest := w.(queue := AfterNext(w.queue, DoneSet(w)));
    forall f | f in w.frames
      ensures ResumptionOf(rest, h, f)
    {
      ResumptionFrame(rest, h, f);
    }
  }

  lemma ScheduledIsOwed(w: World, h: Handle, c: nat, side: Side)
    requires Inv(w) && NextHandle(w.queue, DoneSet(w)) == Some(h) && At(w, h, c, side)
    ensures c in w.chans && Some(h) !in Ring(w.chans[c], side)
  {
    NextIsSuspended(w, h);
    assert PlaceOK(w, h);
    assert Occ(Ring(w.chans[c], side), h) == 0;
  }

  lemma ResumedIsDue(w: World, h: Handle, w': World, due: Option<(nat, Side)>, c: nat, side: Side)
    requires h in w.frames && w'.chans == w.chans && w'.stack == w.stack + [h] && w'.frames.Keys == w.frames.Keys
    requires forall f :: f in w.frames ==> w'.frames[f].place == if f == h then OnStack else w.frames[f].place
    requires due == Some((c, side)) <==> At(w, h, c, side)
    requires At(w, h, c, side) ==> c in w.chans && Some(h) !in Ring(w.chans[c], side)
    ensures Owed(w', due, c, side) == Owed(w, None, c, side)
  {
    forall f | f in w.frames
      ensures IsOwed(w', due, c, side, f) <==> IsOwed(w, None, c, side, f)
    {
    }
  }

  lemma NextShows(w: World, x: World, c: nat, s: CR.System<Value>)
    requires StackOK(w) && Inv(x) && SameAt(w, x) && w.frames.Keys == x.frames.Keys && NobodyResumed(w, x)
    requires Shows(w, None, c, s)
    ensures Shows(RunNext(x), Duty(w, RunNext(x)), c, s)
  {
    SameOwed(w, x, c, s);
    var w' := RunNext(x);
    var next := NextHandle(x.queue, DoneSet(x));
    if next == None {
      SameOwed(x, w', c, s);
      NoDuty(w, w');
    } else {
      var h := next.value;
      ResumedPlaces(x, h);
      assert Top(w') == h;
      forall side
        ensures Owed(w', Duty(w, w'), c, side) == Owed(x, None, c, side)
      {
        assert At(w, h, c, side) <==> At(x, h, c, side);
        if At(x, h, c, side) {
          ScheduledIsOwed(x, h, c, side);
        }
        assert Duty(w, w') == Some((c, side)) <==> At(w, h, c, side);
        ResumedIsDue(x, h, w', Duty(w, w'), c, side);
      }
    }
  }

  // ---- the events, one by one ----------------------------------------------------------------------------

  /** The running coroutine suspends, and not at a channel. */
  lemma SuspendedSameAt(w: World, x: World, joined: set<Handle>)
    requires Suspension(w, x, joined) && w.frames[Top(w)].place.OnStack?
    requires x.chans == w.chans && !x.frames[Top(w)].place.AtChannel?
    ensures SameAt(w, x) && NobodyResumed(w, x)
  {
  }

  lemma HandedOn(w: World, x: World, joined: set<Handle>, c: nat, s: CR.System<Value>)
    requires Inv(w) && GoodSuspension(w, x, joined)
    requires x.chans == w.chans && !x.frames[Top(w)].place.AtChannel?
    requires Shows(w, None, c, s)
    ensures Shows(RunNext(x), Duty(w, RunNext(x)), c, s) && Shows(x, Duty(w, x), c, s)
  {
    TopUnregistered(w);
    SuspendedSameAt(w, x, joined);
    SuspensionKeeps(w, x, joined);
    NextShows(w, x, c, s);
    Unnoticed(w, x, c, s);
  }

  /** Slots may be emptied and promises may change hands; nobody moves. */
  lemma NobodyMoves(w: World, w': World, c: nat, s: CR.System<Value>)
    requires StackOK(w) && w'.chans == w.chans && w'.stack == w.stack && w'.frames.Keys == w.frames.Keys
    requires forall f :: f in w.frames ==> w'.frames[f].place == w.frames[f].place
    requires Shows(w, None, c, s)
    ensures Shows(w', Duty(w, w'), c, s)
  {
    Unnoticed(w, w', c, s);
  }

  lemma AwaitShows(w: World, p: Handle, c: nat, s: CR.System<Value>)
    requires Inv(w) && Enabled(w, Await(p)) && Shows(w, None, c, s)
    ensures Shows(Step(w, Await(p)), Duty(w, Step(w, Await(p))), c, s)
  {
    var core := w.frames[p].core;
    if core.phase.Init? && !core.Ready() {
      TopIsReady(w);
      assert CoreOK(w.frames[p]);
      AwaitSuspends(w, p);
      HandedOn(w, Leave(SetCore(w, p, Core(WaitedOn, Some(Top(w)), core.slot)), AtPromise(p)), {p}, c, s);
    } else {
      NobodyMoves(w, Step(w, Await(p)), c, s);
    }
  }

  lemma AwaitGeneratorShows(w: World, g: Handle, c: nat, s: CR.System<Value>)
    requires Inv(w) && Enabled(w, AwaitGenerator(g)) && Shows(w, None, c, s)
    ensures Shows(Step(w, AwaitGenerator(g)), Duty(w, Step(w, AwaitGenerator(g))), c, s)
  {
    if AwaitReady(w.frames[g].AsGen()) {
      NobodyMoves(w, Step(w, AwaitGenerator(g)), c, s);
    } else {
      TopIsReady(w);
      assert CoreOK(w.frames[g]);
      AwaitGeneratorSuspends(w, g);
      HandedOn(w, AwaitedGenerator(w, g), {g}, c, s);
    }
  }

  lemma ReleasedShows(w: World, ps: seq<Handle>, c: nat, s: CR.System<Value>)
    requires StackOK(w) && Shows(w, None, c, s)
    ensures Shows(Release(w, ps), Duty(w, Release(w, ps)), c, s)
    ensures Shows(SetDropped(w, ps), Duty(w, SetDropped(w, ps)), c, s)
  {
    NobodyMoves(w, Release(w, ps), c, s);
    NobodyMoves(w, SetDropped(w, ps), c, s);
  }

  lemma SelectedShows(w: World, ps: seq<Handle>, c: nat, s: CR.System<Value>)
    requires Inv(w) && Running(w) && Selectable(w, ps) && Shows(w, None, c, s)
    ensures Shows(RunNext(Selected(w, ps)), Duty(w, RunNext(Selected(w, ps))), c, s)
  {
    TopIsReady(w);
    SelectSuspends(w, ps);
    HandedOn(w, Selected(w, ps), Joined(w, ps), c, s);
  }

  lemma SelectShows(w: World, ps: seq<Handle>, c: nat, s: CR.System<Value>)
    requires Inv(w) && Enabled(w, Select(ps)) && Shows(w, None, c, s)
    ensures Shows(Step(w, Select(ps)), Duty(w, Step(w, Select(ps))), c, s)
  {
    if exists p :: p in ps && w.frames[p].core.Ready() {
      ReleasedShows(w, ps, c, s);
    } else {
      assert forall p :: p in ps ==> CoreOK(w.frames[p]);
      SelectedShows(w, ps, c, s);
    }
  }

  lemma WaitShows(w: World, e: Event, c: nat, s: CR.System<Value>)
    requires Inv(w) && Enabled(w, e) && (e.WaitExternally? || e.Yield?) && Shows(w, None, c, s)
    ensures Shows(Step(w, e), Duty(w, Step(w, e)), c, s)
  {
    TopIsReady(w);
    WaitSuspends(w);
    YieldSuspends(w);
    if e.Yield? {
      HandedOn(w, Enqueued(Leave(w, AtExternal(false)), [Some(Top(w))]), {}, c, s);
    } else {
      HandedOn(w, Leave(w, AtExternal(true)), {}, c, s);
    }
  }

  /** The running coroutine yields or ends. */
  lemma CompletionShows(w: World, w': World, c: nat, s: CR.System<Value>)
    requires StackOK(w) && Completion(w, w') && Shows(w, None, c, s)
    ensures Shows(w', Duty(w, w'), c, s)
  {
    LeaveStack(w, AtEnd);
    assert SameAt(w, w');
    Unnoticed(w, w', c, s);
  }

  lemma StartShows(w: World, n: Handle, generator: bool, args: set<Handle>, c: nat, s: CR.System<Value>)
    requires StackOK(w) && n !in w.frames && Shows(w, None, c, s)
    ensures Shows(Started(w, n, generator, args), Duty(w, Started(w, n, generator, args)), c, s)
  {
    assert SameAt(w, Started(w, n, generator, args));
    Unnoticed(w, Started(w, n, generator, args), c, s);
  }

  lemma CallbackShows(w: World, h: Handle, c: nat, s: CR.System<Value>)
    requires StackOK(w) && h in w.frames && w.frames[h].place == AtExternal(true) && Shows(w, None, c, s)
    ensures Shows(CalledBack(w, h), Duty(w, CalledBack(w, h)), c, s)
  {
    assert SameAt(w, CalledBack(w, h));
    Unnoticed(w, CalledBack(w, h), c, s);
  }

  lemma YieldedShows(w: World, v: Value, c: nat, s: CR.System<Value>)
    requires Inv(w) && Running(w) && w.frames[Top(w)].kind.Gen? && Shows(w, None, c, s)
    ensures Shows(Yields(w, v), Duty(w, Yields(w, v)), c, s)
  {
    TopIsReady(w);
    YieldsCompletes(w, v);
    CompletionShows(w, Yields(w, v), c, s);
  }

  lemma MovedShows(w: World, p: Handle, to: Option<Handle>, c: nat, s: CR.System<Value>)
    requires StackOK(w) && p in w.frames && Shows(w, None, c, s)
    ensures Shows(MovedTo(w, p, to), Duty(w, MovedTo(w, p, to)), c, s)
  {
    NobodyMoves(w, MovedTo(w, p, to), c, s);
  }

  lemma UnwrappedShows(w: World, p: Handle, core: Core<Value>, c: nat, s: CR.System<Value>)
    requires StackOK(w) && p in w.frames && Shows(w, None, c, s)
    ensures Shows(SetCore(w, p, core), Duty(w, SetCore(w, p, core)), c, s)
  {
    NobodyMoves(w, SetCore(w, p, core), c, s);
  }

  lemma HandingShows(w: World, e: Event, c: nat, s: CR.System<Value>)
    requires Inv(w) && Enabled(w, e) && Shows(w, None, c, s)
    requires e.Start? || e.Unwrap? || e.Move? || e.DropSet?
    ensures Shows(Step(w, e), Duty(w, Step(w, e)), c, s)
  {
    match e
    case Start(n, generator, args) => StartShows(w, n, generator, args, c, s);
    case Unwrap(p) => UnwrappedShows(w, p, AfterUnwrap(w.frames[p].core), c, s);
    case Move(p, to) => MovedShows(w, p, to, c, s);
    case DropSet(ps) => ReleasedShows(w, ps, c, s);
  }

  lemma TurnShows(w: World, e: Event, c: nat, s: CR.System<Value>)
    requires Inv(w) && Enabled(w, e) && Shows(w, None, c, s)
    requires e.Callback? || e.CoYield? || e.Loop?
    ensures Shows(Step(w, e), Duty(w, Step(w, e)), c, s)
  {
    match e
    case Callback(h) => CallbackShows(w, h, c, s);
    case CoYield(v) => YieldedShows(w, v, c, s);
    case Loop => NextShows(w, w, c, s);
  }

  // ---- putting and taking --------------------------------------------------------------------------------

  /** The coroutine that was due no longer is. */
  lemma Discharged(w: World, c: nat, side: Side)
    requires StackOK(w) && Running(w)
    ensures Owed(w, Some((c, side)), c, side) == Owed(w, None, c, side) + {Top(w)}
    ensures Top(w) !in Owed(w, None, c, side)
    ensures multiset(Owed(w, Some((c, side)), c, side)) - multiset{Top(w)} == multiset(Owed(w, None, c, side))
    ensures forall d, other :: !(d == c && other == side) ==>
              Owed(w, Some((c, side)), d, other) == Owed(w, None, d, other)
  {
    var before, after := Owed(w, Some((c, side)), c, side), Owed(w, None, c, side);
    assert w.frames[w.stack[|w.stack| - 1]].place.OnStack?;
    assert before == after + {Top(w)};
    assert multiset(before) == multiset(after) + multiset{Top(w)};
    forall d, other | !(d == c && other == side)
      ensures Owed(w, Some((c, side)), d, other) == Owed(w, None, d, other)
    {
    }
  }

  lemma AfterWakingHolds(ring: Waiters, f: Handle)
    ensures Some(f) in AfterWaking(ring) <==> Occ(ring, f) > if FirstWaiter(ring) == Some(f) then 1 else 0
    ensures Some(f) in ring <==> Occ(ring, f) > 0
  {
    OccNext(ring, {}, f);
    assert Some(f) in AfterWaking(ring) <==> Occ(AfterWaking(ring), f) > 0;
  }

  lemma WaiterOccursOnce(w: World, c: nat, side: Side, f: Handle)
    requires Inv(w) && c in w.chans && Some(f) in Ring(w.chans[c], side)
    ensures At(w, f, c, side) && Occ(Ring(w.chans[c], side), f) == 1
  {
    assert PlaceOK(w, f);
    assert Occ(Ring(w.chans[c], side), f) > 0;
  }

  lemma WakingOwes(w: World, w': World, c: nat, side: Side, f: Handle)
    requires Inv(w) && Waking(w, w', c, side)
    ensures IsOwed(w', None, c, side, f)
       <==> IsOwed(w, None, c, side, f) || FirstWaiter(Ring(w.chans[c], side)) == Some(f)
    ensures FirstWaiter(Ring(w.chans[c], side)) == Some(f) ==> At(w, f, c, side) && !IsOwed(w, None, c, side, f)
  {
    var ring := Ring(w.chans[c], side);
    AfterWakingHolds(ring, f);
    if Some(f) in ring {
      WaiterOccursOnce(w, c, side, f);
    }
  }

  lemma OneMore(some: set<Handle>, h: Handle)
    requires h !in some
    ensures multiset(some + {h}) == multiset(some) + multiset{h}
  {
  }

  lemma OwedGains(w: World, w': World, c: nat, side: Side, first: Entry)
    requires w'.frames == w.frames
    requires forall f: Handle ::
               IsOwed(w', None, c, side, f) <==> IsOwed(w, None, c, side, f) || (f in w.frames && first == Some(f))
    ensures Owed(w', None, c, side) == Owed(w, None, c, side) + set f | f in w.frames && first == Some(f)
  {
  }

  lemma WokenIsOwed(w: World, w': World, c: nat, side: Side)
    requires Inv(w) && Waking(w, w', c, side)
    ensures multiset(Owed(w', None, c, side))
         == multiset(Owed(w, None, c, side)) + CR.Handles(Woken(Ring(w.chans[c], side)))
  {
    var first, before := FirstWaiter(Ring(w.chans[c], side)), Owed(w, None, c, side);
    forall f: Handle
      ensures IsOwed(w', None, c, side, f) <==> IsOwed(w, None, c, side, f) || (f in w.frames && first == Some(f))
      ensures first == Some(f) ==> f in w.frames && f !in before
    {
      WakingOwes(w, w', c, side, f);
    }
    OwedGains(w, w', c, side, first);
    if first.Some? {
      assert (set f | f in w.frames && first == Some(f)) == {first.value};
      OneMore(before, first.value);
    } else {
      assert before + {} == before;
    }
  }

  lemma OthersUnnoticed(w: World, w': World, c: nat, side: Side, d: nat, other: Side)
    requires Waking(w, w', c, side) && d in w.chans && !(d == c && other == side)
    ensures Owed(w', None, d, other) == Owed(w, None, d, other)
  {
  }

  /** The running coroutine puts an item into the channel, or takes one out. */
  lemma PutItemShows(w: World, c: nat, item: Value, d: nat, s: CR.System<Value>)
    requires Inv(w) && c in w.chans && Shows(w, None, d, s)
    ensures Shows(PutItem(w, c, item), None, d, if d == c then CR.Accepted(s, item) else s)
  {
    var w' := PutItem(w, c, item);
    PutWakes(w, c, item);
    WokenIsOwed(w, w', c, Reader);
    OthersUnnoticed(w, w', c, Reader, d, Writer);
    if d != c {
      OthersUnnoticed(w, w', c, Reader, d, Reader);
    }
  }

  lemma GetItemShows(w: World, c: nat, d: nat, s: CR.System<Value>)
    requires Inv(w) && c in w.chans && w.chans[c].items != [] && Shows(w, None, d, s)
    ensures Shows(GetItem(w, c), None, d, if d == c then CR.Removed(s) else s)
  {
    var w' := GetItem(w, c);
    GetWakes(w, c);
    WokenIsOwed(w, w', c, Writer);
    OthersUnnoticed(w, w', c, Writer, d, Reader);
    if d != c {
      OthersUnnoticed(w, w', c, Writer, d, Writer);
    }
  }

  /** The channel after another coroutine has begun to wait at it. */
  function Waited(s: CR.System<Value>, side: Side, h: Handle): CR.System<Value> {
    var chan := WithRing(s.chan, side, Ring(s.chan, side) + [Some(h)]);
    if side.Reader? then s.(chan := chan, readLog := s.readLog + [SR.Enqueue(h)])
    else s.(chan := chan, writeLog := s.writeLog + [SR.Enqueue(h)])
  }

  lemma WaitingOwesNothing(w: World, c: nat, side: Side, d: nat, other: Side)
    requires StackOK(w) && Running(w) && c in w.chans && d in w.chans
    ensures Owed(WaitOnChannel(w, c, side), None, d, other) == Owed(w, None, d, other)
  {
    var w' := WaitOnChannel(w, c, side);
    assert w.frames[w.stack[|w.stack| - 1]].place.OnStack?;
    forall f | f in w.frames
      ensures IsOwed(w', None, d, other, f) <==> IsOwed(w, None, d, other, f)
    {
    }
  }

  lemma WaitOnChannelShows(w: World, c: nat, side: Side, d: nat, s: CR.System<Value>)
    requires StackOK(w) && Running(w) && c in w.chans && Shows(w, None, d, s)
    ensures Shows(WaitOnChannel(w, c, side), None, d, if d == c then Waited(s, side, Top(w)) else s)
  {
    WaitingOwesNothing(w, c, side, d, Reader);
    WaitingOwesNothing(w, c, side, d, Writer);
  }

  lemma PutSteps(w: World, c: nat, item: Value)
    requires Running(w) && c in w.chans
    ensures var ch := w.chans[c];
            Step(w, Put(c, item)) == if CR.HasSpace(ch) then PutItem(w, c, item)
                                     else if |ch.writers| < ch.maxWaiters then WaitOnChannel(w, c, Writer) else w
    ensures Step(w, PutResumed(c, item)) == if CR.HasSpace(w.chans[c]) then PutItem(w, c, item) else w
  {
  }

  lemma GetSteps(w: World, c: nat)
    requires Running(w) && c in w.chans
    ensures var ch := w.chans[c];
            Step(w, Get(c)) == if ch.items != [] then GetItem(w, c)
                               else if |ch.readers| < ch.maxWaiters then WaitOnChannel(w, c, Reader) else w
    ensures Step(w, GetResumed(c)) == if w.chans[c].items != [] then GetItem(w, c) else w
  {
  }

  lemma PutShows(w: World, c: nat, item: Value, d: nat, s: CR.System<Value>)
    requires Inv(w) && Running(w) && c in w.chans && Shows(w, None, d, s)
    ensures var w' := Step(w, Put(c, item));
            Shows(w', Duty(w, w'), d, if d == c then CR.Step(s, CR.Put(Top(w), item)) else s)
  {
    PutSteps(w, c, item);
    NoDuty(w, Step(w, Put(c, item)));
    PutItemShows(w, c, item, d, s);
    WaitOnChannelShows(w, c, Writer, d, s);
  }

  lemma GetShows(w: World, c: nat, d: nat, s: CR.System<Value>)
    requires Inv(w) && Running(w) && c in w.chans && Shows(w, None, d, s)
    ensures var w' := Step(w, Get(c));
            Shows(w', Duty(w, w'), d, if d == c then CR.Step(s, CR.Get(Top(w))) else s)
  {
    GetSteps(w, c);
    NoDuty(w, Step(w, Get(c)));
    if w.chans[c].items != [] {
      GetItemShows(w, c, d, s);
    }
    WaitOnChannelShows(w, c, Reader, d, s);
  }

  /** What is left to do at the channel once the coroutine has been taken off the woken ones. */
  lemma DischargedShows(w: World, c: nat, side: Side, d: nat, s: CR.System<Value>)
    requires StackOK(w) && Running(w) && c in w.chans && Shows(w, Some((c, side)), d, s)
    ensures d != c ==> Shows(w, None, d, s)
    ensures d == c && side.Reader? ==>
              Top(w) in s.wokenReaders && Shows(w, None, d, s.(wokenReaders := s.wokenReaders - multiset{Top(w)}))
    ensures d == c && side.Writer? ==>
              Top(w) in s.wokenWriters && Shows(w, None, d, s.(wokenWriters := s.wokenWriters - multiset{Top(w)}))
  {
    Discharged(w, c, side);
  }

  lemma PutResumedShows(w: World, c: nat, item: Value, d: nat, s: CR.System<Value>)
    requires Inv(w) && Running(w) && c in w.chans && Shows(w, Some((c, Writer)), d, s)
    ensures d == c ==> Top(w) in s.wokenWriters
    ensures var w' := if CR.HasSpace(w.chans[c]) then PutItem(w, c, item) else w;
            Shows(w', None, d, if d == c then CR.Step(s, CR.PutResumed(Top(w), item)) else s)
  {
    DischargedShows(w, c, Writer, d, s);
    var s0 := if d == c then s.(wokenWriters := s.wokenWriters - multiset{Top(w)}) else s;
    PutItemShows(w, c, item, d, s0);
  }

  lemma GetResumedShows(w: World, c: nat, d: nat, s: CR.System<Value>)
    requires Inv(w) && Running(w) && c in w.chans && Shows(w, Some((c, Reader)), d, s)
    ensures d == c ==> Top(w) in s.wokenReaders
    ensures var w' := if w.chans[c].items != [] then GetItem(w, c) else w;
            Shows(w', None, d, if d == c then CR.Step(s, CR.GetResumed(Top(w))) else s)
  {
    DischargedShows(w, c, Reader, d, s);
    var s0 := if d == c then s.(wokenReaders := s.wokenReaders - multiset{Top(w)}) else s;
    if w.chans[c].items != [] {
      GetItemShows(w, c, d, s0);
    }
  }
}
