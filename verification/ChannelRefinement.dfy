/** The runtime refines ChannelRuns: what a whole run does to one channel is a run of that channel. */
module ChannelRefinement {
  import opened Wrappers
  import opened Schedulers
  import opened Cores
  import opened Generators
  import opened Channels
  import opened Runtime
  import opened Destruction
  import opened RuntimeInvariant
  import opened RuntimeSteps
  import opened RuntimeSafety
  import opened RuntimeTheorems
  import opened RuntimeChannels
  import CR = ChannelRuns

  // ---- destruction -----------------------------------------------------------------------------------------

  /** The channel after the coroutines `doomed` have been destroyed. */
  ghost predicate Cut(s: CR.System<Value>, s': CR.System<Value>, doomed: set<Handle>) {
    && s'.chan == s.chan.(readers := CancelAll(s.chan.readers, doomed), writers := CancelAll(s.chan.writers, doomed))
    && (forall h :: s'.wokenReaders[h] == if h in doomed then 0 else s.wokenReaders[h])
    && (forall h :: s'.wokenWriters[h] == if h in doomed then 0 else s.wokenWriters[h])
  }

  /** Nobody is among the woken twice, and none of those who must survive is doomed. */
  predicate MayCut(s: CR.System<Value>, doomed: set<Handle>, rules: Rules) {
    && (forall h :: h in doomed ==> s.wokenReaders[h] <= 1 && s.wokenWriters[h] <= 1)
    && (rules.survive ==> forall h :: h in doomed ==> h !in s.wokenReaders && h !in s.wokenWriters)
  }

  lemma CutWaiting(course: Course, s: CR.System<Value>, h: Handle) returns (s': CR.System<Value>)
    requires Reached(course, s)
    ensures Reached(course, s')
    ensures s'.chan == s.chan.(readers := CancelAll(s.chan.readers, {h}), writers := CancelAll(s.chan.writers, {h}))
    ensures s'.wokenReaders == s.wokenReaders && s'.wokenWriters == s.wokenWriters
  {
    CancelOne(s.chan.readers, h);
    CancelOne(s.chan.writers, h);
    var now := CR.Step(s, CR.CancelReader(h));
    ReachedNext(course, s, CR.CancelReader(h));
    ReachedNext(course, now, CR.CancelWriter(h));
    s' := CR.Step(now, CR.CancelWriter(h));
  }

  lemma NotWoken(woken: multiset<Handle>, h: Handle)
    requires h !in woken
    ensures woken - multiset{h} == woken
  {
  }

  lemma CutWokenReader(course: Course, s: CR.System<Value>, h: Handle)
    returns (s': CR.System<Value>)
    requires Reached(course, s) && (course.rules.survive ==> h !in s.wokenReaders)
    ensures Reached(course, s') && s'.chan == s.chan
    ensures s'.wokenReaders == s.wokenReaders - multiset{h} && s'.wokenWriters == s.wokenWriters
  {
    if h in s.wokenReaders {
      ReachedNext(course, s, CR.CancelWokenReader(h));
      return CR.Step(s, CR.CancelWokenReader(h));
    }
    NotWoken(s.wokenReaders, h);
    return s;
  }

  lemma CutWokenWriter(course: Course, s: CR.System<Value>, h: Handle)
    returns (s': CR.System<Value>)
    requires Reached(course, s) && (course.rules.survive ==> h !in s.wokenWriters)
    ensures Reached(course, s') && s'.chan == s.chan
    ensures s'.wokenReaders == s.wokenReaders && s'.wokenWriters == s.wokenWriters - multiset{h}
  {
    if h in s.wokenWriters {
      ReachedNext(course, s, CR.CancelWokenWriter(h));
      return CR.Step(s, CR.CancelWokenWriter(h));
    }
    NotWoken(s.wokenWriters, h);
    return s;
  }

  lemma CutOne(course: Course, s: CR.System<Value>, h: Handle) returns (s': CR.System<Value>)
    requires Reached(course, s) && MayCut(s, {h}, course.rules)
    ensures Reached(course, s') && Cut(s, s', {h})
  {
    s' := CutWaiting(course, s, h);
    s' := CutWokenReader(course, s', h);
    s' := CutWokenWriter(course, s', h);
  }

  lemma {:induction false} CutAll(course: Course, s: CR.System<Value>, doomed: set<Handle>)
    returns (s': CR.System<Value>)
    requires Reached(course, s) && MayCut(s, doomed, course.rules)
    ensures Reached(course, s') && Cut(s, s', doomed)
    decreases |doomed|
  {
    if doomed == {} {
      s' := s;
      assert CancelAll(s.chan.readers, {}) == s.chan.readers && CancelAll(s.chan.writers, {}) == s.chan.writers;
    } else {
      var h :| h in doomed;
      var most := doomed - {h};
      s' := CutAll(course, s, most);
      s' := CutOne(course, s', h);
      CancelTwice(s.chan.readers, most, {h});
      CancelTwice(s.chan.writers, most, {h});
      assert most + {h} == doomed;
    }
  }

  lemma ErasedOwes(w: World, doomed: set<Handle>, c: nat, side: Side)
    requires c in w.chans
    ensures Owed(Erase(w, doomed), None, c, side) == Owed(w, None, c, side) - doomed
  {
    var w' := Erase(w, doomed);
    forall f | f in w.frames
      ensures f in w'.frames && IsOwed(w', None, c, side, f) <==> f !in doomed && IsOwed(w, None, c, side, f)
    {
    }
  }

  lemma SetMinus(before: multiset<Handle>, after: multiset<Handle>, some: set<Handle>, doomed: set<Handle>)
    requires before == multiset(some) && forall h :: after[h] == if h in doomed then 0 else before[h]
    ensures after == multiset(some - doomed)
  {
    forall h
      ensures after[h] == multiset(some - doomed)[h]
    {
    }
  }

  lemma EraseShows(w: World, doomed: set<Handle>, c: nat, course: Course, s: CR.System<Value>)
    returns (s': CR.System<Value>)
    requires Reached(course, s) && Shows(w, None, c, s)
    requires course.rules.survive ==> doomed !! Owed(w, None, c, Reader) && doomed !! Owed(w, None, c, Writer)
    ensures Reached(course, s') && Shows(Erase(w, doomed), None, c, s')
  {
    s' := CutAll(course, s, doomed);
    ErasedOwes(w, doomed, c, Reader);
    ErasedOwes(w, doomed, c, Writer);
    SetMinus(s.wokenReaders, s'.wokenReaders, Owed(w, None, c, Reader), doomed);
    SetMinus(s.wokenWriters, s'.wokenWriters, Owed(w, None, c, Writer), doomed);
  }

  /** Those of `doomed` that wait at a channel have not been woken. */
  ghost predicate Spares(w: World, doomed: set<Handle>) {
    forall f, c, side :: At(w, f, c, side) && c in w.chans && f in doomed ==> Some(f) in Ring(w.chans[c], side)
  }

  lemma DropShows(w: World, p: Handle, lazily: bool, c: nat, course: Course, s: CR.System<Value>)
    returns (s': CR.System<Value>)
    requires Inv(w) && p in w.frames && (course.rules.survive ==> Spares(w, Doomed(w, p, lazily)))
    requires Reached(course, s) && Shows(w, None, c, s)
    ensures Reached(course, s')
    ensures Shows(Destroy(w, p, lazily), Duty(w, Destroy(w, p, lazily)), c, s')
  {
    InvIsSettled(w);
    RecursiveDestructionErases(w, p, lazily, {});
    s' := EraseShows(w, Doomed(w, p, lazily), c, course, s);
    NoDuty(w, Destroy(w, p, lazily));
  }

  lemma DestroyAllShows(
    w: World, locals: set<Handle>, c: nat, course: Course, s: CR.System<Value>)
    returns (s': CR.System<Value>)
    requires Inv(w) && (course.rules.survive ==> Spares(w, DoomedAll(w, locals)))
    requires Reached(course, s) && Shows(w, None, c, s)
    ensures Reached(course, s') && Shows(DestroyAll(w, locals), None, c, s')
  {
    InvIsSettled(w);
    RecursiveDestructionErasesAll(w, locals, {});
    s' := EraseShows(w, DoomedAll(w, locals), c, course, s);
  }

  /** A coroutine that ends was not at a channel, and is not afterwards. */
  lemma EndsSameAt(w: World, o: Outcome<Value>)
    requires StackOK(w) && Running(w)
    ensures SameAt(w, Ends(w, o))
  {
    assert w.frames[w.stack[|w.stack| - 1]].place.OnStack?;
  }

  lemma EndsGeneratorSameAt(w: World, error: Option<Exception>)
    requires StackOK(w) && Running(w) && w.frames[Top(w)].kind.Gen?
    ensures SameAt(w, EndsGenerator(w, error))
  {
    assert w.frames[w.stack[|w.stack| - 1]].place.OnStack?;
  }

  lemma SparesToo(w: World, u: World, doomed: set<Handle>)
    requires SameAt(w, u) && Spares(w, doomed)
    ensures Spares(u, doomed)
  {
    forall f, c, side | At(u, f, c, side) && c in u.chans && f in doomed
      ensures Some(f) in Ring(u.chans[c], side)
    {
      assert At(w, f, c, side);
    }
  }

  lemma FinishShows(
    w: World, o: Outcome<Value>, locals: set<Handle>, c: nat,
    course: Course, s: CR.System<Value>)
    returns (s': CR.System<Value>)
    requires Inv(w) && Running(w) && w.frames[Top(w)].kind.Plain?
    requires var dying := if o.Thrown? then w else Ends(w, o);
             && Droppable(dying, DoomedAll(dying, locals))
             && (course.rules.survive ==> Spares(w, DoomedAll(dying, locals)))
             && (o.Thrown? ==> Top(w) !in DoomedAll(w, locals))
    requires Reached(course, s) && Shows(w, None, c, s)
    ensures Reached(course, s') && Shows(Concluded(w, o, locals), None, c, s')
  {
    if o.Thrown? {
      s' := DestroyAllShows(w, locals, c, course, s);
      var v := DestroyAll(w, locals);
      DestroyAllIsSafeExactly(w, locals);
      EndsSameAt(v, o);
      SameOwed(v, Ends(v, o), c, s');
    } else {
      var u := Ends(w, o);
      EndsKeeps(w, o);
      EndsSameAt(w, o);
      SameOwed(w, u, c, s);
      if course.rules.survive {
        SparesToo(w, u, DoomedAll(u, locals));
      }
      s' := DestroyAllShows(u, locals, c, course, s);
    }
  }

  lemma FinishGeneratorShows(
    w: World, error: Option<Exception>, locals: set<Handle>, c: nat,
    course: Course, s: CR.System<Value>)
    returns (s': CR.System<Value>)
    requires Inv(w) && Running(w) && w.frames[Top(w)].kind.Gen?
    requires var dying := if error.Some? then w else EndsGenerator(w, error);
             && Droppable(dying, DoomedAll(dying, locals))
             && (course.rules.survive ==> Spares(w, DoomedAll(dying, locals)))
             && (error.Some? ==> Top(w) !in DoomedAll(w, locals))
    requires Reached(course, s) && Shows(w, None, c, s)
    ensures Reached(course, s') && Shows(ConcludedGenerator(w, error, locals), None, c, s')
  {
    if error.Some? {
      s' := DestroyAllShows(w, locals, c, course, s);
      var v := DestroyAll(w, locals);
      DestroyAllIsSafeExactly(w, locals);
      EndsGeneratorSameAt(v, error);
      SameOwed(v, EndsGenerator(v, error), c, s');
    } else {
      var u := EndsGenerator(w, error);
      EndsGeneratorKeeps(w, error);
      EndsGeneratorSameAt(w, error);
      SameOwed(w, u, c, s);
      if course.rules.survive {
        SparesToo(w, u, DoomedAll(u, locals));
      }
      s' := DestroyAllShows(u, locals, c, course, s);
    }
  }

  lemma GoneAreSpared(w: World, e: Event, doomed: set<Handle>)
    requires Enabled(w, e) && WokenSurvive(w, e) && forall f :: f in doomed ==> f !in Step(w, e).frames
    ensures Spares(w, doomed)
  {
  }

  lemma EndingStepShows(w: World, e: Event, c: nat, course: Course, s: CR.System<Value>)
    returns (s': CR.System<Value>)
    requires Inv(w) && Enabled(w, e) && Respects(w, e, course.rules) && (e.Finish? || e.FinishGenerator?)
    requires Reached(course, s) && Shows(w, None, c, s)
    ensures Reached(course, s') && Shows(Step(w, e), Duty(w, Step(w, e)), c, s')
  {
    NoDuty(w, Step(w, e));
    match e
    case Finish(o, locals) =>
      var dying := if o.Thrown? then w else Ends(w, o);
      if course.rules.survive {
        GoneAreSpared(w, e, DoomedAll(dying, locals));
      }
      s' := FinishShows(w, o, locals, c, course, s);
    case FinishGenerator(error, locals) =>
      var dying := if error.Some? then w else EndsGenerator(w, error);
      if course.rules.survive {
        GoneAreSpared(w, e, DoomedAll(dying, locals));
      }
      s' := FinishGeneratorShows(w, error, locals, c, course, s);
  }

  lemma DroppingStepShows(w: World, e: Event, c: nat, course: Course, s: CR.System<Value>)
    returns (s': CR.System<Value>)
    requires Inv(w) && Enabled(w, e) && Respects(w, e, course.rules) && (e.Drop? || e.Overwrite?)
    requires Reached(course, s) && Shows(w, None, c, s)
    ensures Reached(course, s') && Shows(Step(w, e), Duty(w, Step(w, e)), c, s')
  {
    var lazily := if e.Drop? then DestroysLazily(w.frames[e.p]) else true;
    if course.rules.survive {
      GoneAreSpared(w, e, Doomed(w, e.p, lazily));
    }
    s' := DropShows(w, e.p, lazily, c, course, s);
  }

  /** A fresh call that bypasses nobody in the runtime bypasses nobody at its channel. */
  lemma FreshFollows(w: World, c: nat, item: Value, h: Handle, s: CR.System<Value>, rules: Rules)
    requires Shows(w, None, c, s)
    ensures (rules.fair ==> NoBypass(w, Put(c, item))) ==> Follows(rules, s, CR.Put(h, item))
    ensures (rules.fair ==> NoBypass(w, Get(c))) ==> Follows(rules, s, CR.Get(h))
  {
  }

  function Called(course: Course, w: World, e: Event, c: nat): Course {
    course.(calls := course.calls + CallAt(w, e, c))
  }

  lemma CalledElsewhere(course: Course)
    ensures course.(calls := course.calls + []) == course
  {
    assert course.calls + [] == course.calls;
  }

  lemma PutCallShows(
    w: World, c: nat, item: Value, d: nat, course: Course, s: CR.System<Value>)
    returns (s': CR.System<Value>)
    requires Inv(w) && Running(w) && c in w.chans && (course.rules.fair ==> NoBypass(w, Put(c, item)))
    requires Reached(course, s) && Shows(w, None, d, s)
    ensures var e := Put(c, item);
            Reached(Called(course, w, e, d), s') && Shows(Step(w, e), Duty(w, Step(w, e)), d, s')
  {
    PutShows(w, c, item, d, s);
    if d != c {
      CalledElsewhere(course);
      return s;
    }
    s' := CR.Step(s, CR.Put(Top(w), item));
    FreshFollows(w, c, item, Top(w), s, course.rules);
    ReachedNext(course, s, CR.Put(Top(w), item));
  }

  lemma GetCallShows(w: World, c: nat, d: nat, course: Course, s: CR.System<Value>)
    returns (s': CR.System<Value>)
    requires Inv(w) && Running(w) && c in w.chans && (course.rules.fair ==> NoBypass(w, Get(c)))
    requires Reached(course, s) && Shows(w, None, d, s)
    ensures var e := Get(c);
            Reached(Called(course, w, e, d), s') && Shows(Step(w, e), Duty(w, Step(w, e)), d, s')
  {
    GetShows(w, c, d, s);
    if d != c {
      CalledElsewhere(course);
      return s;
    }
    s' := CR.Step(s, CR.Get(Top(w)));
    FreshFollows(w, c, 0, Top(w), s, course.rules);
    ReachedNext(course, s, CR.Get(Top(w)));
  }

  lemma PutResumedCallShows(
    w: World, c: nat, item: Value, d: nat, course: Course, s: CR.System<Value>)
    returns (s': CR.System<Value>)
    requires Inv(w) && Running(w) && c in w.chans
    requires Reached(course, s) && Shows(w, Some((c, Writer)), d, s)
    ensures var e := PutResumed(c, item);
            Reached(Called(course, w, e, d), s') && Shows(Step(w, e), Duty(w, Step(w, e)), d, s')
  {
    PutSteps(w, c, item);
    NoDuty(w, Step(w, PutResumed(c, item)));
    PutResumedShows(w, c, item, d, s);
    if d != c {
      CalledElsewhere(course);
      return s;
    }
    s' := CR.Step(s, CR.PutResumed(Top(w), item));
    ReachedNext(course, s, CR.PutResumed(Top(w), item));
  }

  lemma GetResumedCallShows(w: World, c: nat, d: nat, course: Course, s: CR.System<Value>)
    returns (s': CR.System<Value>)
    requires Inv(w) && Running(w) && c in w.chans
    requires Reached(course, s) && Shows(w, Some((c, Reader)), d, s)
    ensures var e := GetResumed(c);
            Reached(Called(course, w, e, d), s') && Shows(Step(w, e), Duty(w, Step(w, e)), d, s')
  {
    GetSteps(w, c);
    NoDuty(w, Step(w, GetResumed(c)));
    GetResumedShows(w, c, d, s);
    if d != c {
      CalledElsewhere(course);
      return s;
    }
    s' := CR.Step(s, CR.GetResumed(Top(w)));
    ReachedNext(course, s, CR.GetResumed(Top(w)));
  }

  lemma FreshCallShows(w: World, e: Event, c: nat, course: Course, s: CR.System<Value>)
    returns (s': CR.System<Value>)
    requires Inv(w) && Callable(w, e) && (e.Put? || e.Get?) && (course.rules.fair ==> NoBypass(w, e))
    requires Reached(course, s) && Shows(w, None, c, s)
    ensures Reached(Called(course, w, e, c), s') && Shows(Step(w, e), Duty(w, Step(w, e)), c, s')
  {
    if e.Put? {
      s' := PutCallShows(w, e.c, e.item, c, course, s);
    } else {
      s' := GetCallShows(w, e.c, c, course, s);
    }
  }

  lemma ResumedCallShows(
    w: World, due: Option<(nat, Side)>, e: Event, c: nat, course: Course, s: CR.System<Value>)
    returns (s': CR.System<Value>)
    requires Inv(w) && Callable(w, e)
    requires (e.PutResumed? && due == Some((e.c, Writer))) || (e.GetResumed? && due == Some((e.c, Reader)))
    requires Reached(course, s) && Shows(w, due, c, s)
    ensures Reached(Called(course, w, e, c), s') && Shows(Step(w, e), Duty(w, Step(w, e)), c, s')
  {
    if e.PutResumed? {
      s' := PutResumedCallShows(w, e.c, e.item, c, course, s);
    } else {
      s' := GetResumedCallShows(w, e.c, c, course, s);
    }
  }

  lemma AwaitingShows(w: World, e: Event, c: nat, s: CR.System<Value>)
    requires Inv(w) && Enabled(w, e) && Shows(w, None, c, s)
    requires e.Await? || e.AwaitGenerator? || e.Select? || e.WaitExternally? || e.Yield?
    ensures Shows(Step(w, e), Duty(w, Step(w, e)), c, s)
  {
    if e.Await? {
      AwaitShows(w, e.p, c, s);
    } else if e.AwaitGenerator? {
      AwaitGeneratorShows(w, e.g, c, s);
    } else if e.Select? {
      SelectShows(w, e.ps, c, s);
    } else {
      WaitShows(w, e, c, s);
    }
  }

  lemma NoCallMade(course: Course, w: World, e: Event, c: nat)
    requires !e.Put? && !e.Get? && !e.PutResumed? && !e.GetResumed?
    ensures Called(course, w, e, c) == course
  {
    CalledElsewhere(course);
  }

  lemma OtherStepShows(w: World, e: Event, c: nat, course: Course, s: CR.System<Value>)
    returns (s': CR.System<Value>)
    requires Inv(w) && Enabled(w, e) && Respects(w, e, course.rules)
    requires !e.Put? && !e.Get? && !e.PutResumed? && !e.GetResumed?
    requires Reached(course, s) && Shows(w, None, c, s)
    ensures Reached(course, s') && Shows(Step(w, e), Duty(w, Step(w, e)), c, s')
  {
    s' := s;
    if e.Finish? || e.FinishGenerator? {
      s' := EndingStepShows(w, e, c, course, s);
    } else if e.Drop? || e.Overwrite? {
      s' := DroppingStepShows(w, e, c, course, s);
    } else if e.Await? || e.AwaitGenerator? || e.Select? || e.WaitExternally? || e.Yield? {
      AwaitingShows(w, e, c, s);
    } else if e.Callback? || e.CoYield? || e.Loop? {
      TurnShows(w, e, c, s);
    } else {
      HandingShows(w, e, c, s);
    }
  }

  lemma FreeStepShows(w: World, e: Event, c: nat, course: Course, s: CR.System<Value>)
    returns (s': CR.System<Value>)
    requires Inv(w) && Enabled(w, e) && Respects(w, e, course.rules) && !e.PutResumed? && !e.GetResumed?
    requires Reached(course, s) && Shows(w, None, c, s)
    ensures Reached(Called(course, w, e, c), s') && Shows(Step(w, e), Duty(w, Step(w, e)), c, s')
  {
    if e.Put? || e.Get? {
      s' := FreshCallShows(w, e, c, course, s);
    } else {
      NoCallMade(course, w, e, c);
      s' := OtherStepShows(w, e, c, course, s);
    }
  }

  lemma Prompts(due: Option<(nat, Side)>, e: Event)
    requires Prompt(due, e)
    ensures due.None? <==> !e.PutResumed? && !e.GetResumed?
    ensures e.PutResumed? ==> due == Some((e.c, Writer))
    ensures e.GetResumed? ==> due == Some((e.c, Reader))
  {
  }

  /** Whatever happens in the runtime is, for one channel, some events of that channel, or none. */
  lemma StepShows(
    w: World, due: Option<(nat, Side)>, e: Event, c: nat, course: Course, s: CR.System<Value>)
    returns (s': CR.System<Value>)
    requires Inv(w) && Enabled(w, e) && Prompt(due, e) && Respects(w, e, course.rules)
    requires Reached(course, s) && Shows(w, due, c, s)
    ensures Reached(Called(course, w, e, c), s') && Shows(Step(w, e), Duty(w, Step(w, e)), c, s')
  {
    Prompts(due, e);
    if due.None? {
      s' := FreeStepShows(w, e, c, course, s);
    } else {
      s' := ResumedCallShows(w, due, e, c, course, s);
    }
  }

  // ---- whole runs ------------------------------------------------------------------------------------------

  /** Channels as they are constructed. */
  predicate New(chans: map<nat, Chan<Value>>) {
    forall c :: c in chans ==> chans[c] == Chan(chans[c].capacity, [], chans[c].maxWaiters, [], [])
  }

  /** The calls that have been made at one of these channels. */
  function CourseOf(
    chans: map<nat, Chan<Value>>, c: nat, calls: map<nat, seq<CR.Event<Value>>>, rules: Rules): Course
    requires c in chans
  {
    Course(CR.Start(chans[c].capacity, chans[c].maxWaiters), rules, if c in calls then calls[c] else [])
  }

  lemma AtStart(chans: map<nat, Chan<Value>>, c: nat, calls: map<nat, seq<CR.Event<Value>>>, rules: Rules)
    requires New(chans) && c in chans && c in calls && calls[c] == []
    ensures var course := CourseOf(chans, c, calls, rules);
            Inv(Empty(chans)) && Shows(Empty(chans), None, c, course.start) && Reached(course, course.start)
  {
    var course := CourseOf(chans, c, calls, rules);
    assert CR.Possible(course.start, [], Following(rules)) && CR.Run(course.start, []) == course.start;
    assert CallsIn([]) == course.calls;
  }

  /** The runtime refines ChannelRuns: in every run of the runtime in which resumed coroutines turn to
      their channel first, what happens to a channel is a run of that channel, with exactly the calls that
      coroutines have made there, with their items, in order. It respects what the whole run respects; and
      it leads to the channel as it is, with the woken coroutines as they are. */
  lemma {:induction false} ChannelRefines(
    chans: map<nat, Chan<Value>>, events: seq<Event>, w: World, due: Option<(nat, Side)>,
    calls: map<nat, seq<CR.Event<Value>>>, rules: Rules, c: nat)
    returns (s: CR.System<Value>)
    requires New(chans) && ReachesPromptly(Empty(chans), events, w, due, calls, rules) && c in chans
    ensures Inv(w) && c in calls && Reached(CourseOf(chans, c, calls, rules), s) && Shows(w, due, c, s)
    decreases |events|
  {
    if events == [] {
      AtStart(chans, c, calls, rules);
      s := CourseOf(chans, c, calls, rules).start;
    } else {
      var prefix, last := events[..|events| - 1], events[|events| - 1];
      var before, owed, earlier :|
        && ReachesPromptly(Empty(chans), prefix, before, owed, earlier, rules)
        && Enabled(before, last) && Prompt(owed, last) && Respects(before, last, rules)
        && w == Step(before, last) && due == Duty(before, w)
        && calls == map d | d in earlier :: earlier[d] + CallAt(before, last, d);
      s := ChannelRefines(chans, prefix, before, owed, earlier, rules, c);
      StepKeeps(before, last);
      s := StepShows(before, owed, last, c, CourseOf(chans, c, earlier, rules), s);
      assert Called(CourseOf(chans, c, earlier, rules), before, last, c) == CourseOf(chans, c, calls, rules);
    }
  }

  lemma {:induction false} FollowsForgetsNobody(start: CR.System<Value>, events: seq<CR.Event<Value>>, rules: Rules)
    requires rules.survive && CR.Possible(start, events, Following(rules))
    ensures CR.Possible(start, events, CR.WokenSurvive)
  {
    if events != [] {
      FollowsForgetsNobody(start, events[..|events| - 1], rules);
    }
  }

  lemma {:induction false} FollowsBypassesNobody(start: CR.System<Value>, events: seq<CR.Event<Value>>, rules: Rules)
    requires rules.fair && CR.Possible(start, events, Following(rules))
    ensures CR.Possible(start, events, CR.NoBypass)
  {
    if events != [] {
      FollowsBypassesNobody(start, events[..|events| - 1], rules);
    }
  }

  lemma {:induction false} FollowsAnything(start: CR.System<Value>, events: seq<CR.Event<Value>>, rules: Rules)
    requires CR.Possible(start, events, Following(rules))
    ensures CR.Possible(start, events, CR.Anything)
  {
    if events != [] {
      FollowsAnything(start, events[..|events| - 1], rules);
    }
  }

  lemma ReachedForgetsNobody(chan: Chan<Value>, course: Course, s: CR.System<Value>)
    requires course.rules.survive && course.start == CR.Start(chan.capacity, chan.maxWaiters) && Reached(course, s)
    ensures CR.NobodyForgotten(s)
  {
    var start, rules := course.start, course.rules;
    var events :|
      && CR.Possible(start, events, Following(rules)) && CR.Run(start, events) == s && CallsIn(events) == course.calls;
    FollowsForgetsNobody(start, events, rules);
    CR.EveryRunForgetsNobody<Value>(chan.capacity, chan.maxWaiters, events);
  }

  lemma ReachedSucceeds(chan: Chan<Value>, course: Course, s: CR.System<Value>, e: CR.Event<Value>)
    requires course.rules.fair && course.start == CR.Start(chan.capacity, chan.maxWaiters)
    requires Reached(course, s) && CR.Enabled(s, e)
    ensures !CR.Fails(s, e)
  {
    var start, rules := course.start, course.rules;
    var events :|
      && CR.Possible(start, events, Following(rules)) && CR.Run(start, events) == s && CallsIn(events) == course.calls;
    FollowsBypassesNobody(start, events, rules);
    CR.WokenWaiterSucceeds<Value>(chan.capacity, chan.maxWaiters, events, e);
  }

  lemma ReachedConserves(chan: Chan<Value>, course: Course, s: CR.System<Value>)
    requires course.start == CR.Start(chan.capacity, chan.maxWaiters) && Reached(course, s)
    ensures CR.Conserves(s)
  {
    var start, rules := course.start, course.rules;
    var events :|
      && CR.Possible(start, events, Following(rules)) && CR.Run(start, events) == s && CallsIn(events) == course.calls;
    FollowsAnything(start, events, rules);
    CR.EveryRunConserves<Value>(chan.capacity, chan.maxWaiters, events);
  }

  lemma {:induction false} InRingIsLive(ring: Waiters, f: Handle)
    requires Some(f) in ring
    ensures f in Live(ring, {})
  {
    if ring[0] != Some(f) {
      assert Some(f) in ring[1..];
      InRingIsLive(ring[1..], f);
    }
  }

  /** The items, or the free slots, that somebody who waits on this side could have. */
  function Available(ch: Chan<Value>, side: Side): int {
    if side.Reader? then |ch.items| else ch.capacity - |ch.items|
  }

  /** In every run of the runtime in which woken coroutines survive: somebody waits at a channel only
      while everything that is there for it is owed to others that have been woken. */
  lemma WaitsOnlyForWhatIsOwed(
    chans: map<nat, Chan<Value>>, events: seq<Event>, w: World, due: Option<(nat, Side)>,
    calls: map<nat, seq<CR.Event<Value>>>, rules: Rules, f: Handle, c: nat, side: Side)
    requires New(chans) && ReachesPromptly(Empty(chans), events, w, due, calls, rules) && rules.survive
    requires c in chans && At(w, f, c, side)
    ensures c in w.chans
    ensures Some(f) in Ring(w.chans[c], side) ==> 0 <= Available(w.chans[c], side) <= |Owed(w, due, c, side)|
  {
    var s := ChannelRefines(chans, events, w, due, calls, rules, c);
    ReachedForgetsNobody(chans[c], CourseOf(chans, c, calls, rules), s);
    ReachedConserves(chans[c], CourseOf(chans, c, calls, rules), s);
    if Some(f) in Ring(w.chans[c], side) {
      InRingIsLive(Ring(w.chans[c], side), f);
    }
  }

  /** Once the scheduler has drained and nothing runs, readers are left only at empty channels, and
      writers only at full ones. */
  lemma DrainedChannelsAreIdle(
    chans: map<nat, Chan<Value>>, events: seq<Event>, w: World, due: Option<(nat, Side)>,
    calls: map<nat, seq<CR.Event<Value>>>, rules: Rules, f: Handle, c: nat, side: Side)
    requires New(chans) && ReachesPromptly(Empty(chans), events, w, due, calls, rules) && rules.survive
    requires NextHandle(w.queue, DoneSet(w)) == None && w.stack == []
    requires c in chans && At(w, f, c, side)
    ensures c in w.chans && Available(w.chans[c], side) == 0
  {
    var _ := ChannelRefines(chans, events, w, due, calls, rules, c);
    DrainedMeansIdle(w);
    assert StillWaits(w, f);
    WaitsOnlyForWhatIsOwed(chans, events, w, due, calls, rules, f, c, side);
    forall g | g in w.frames
      ensures !IsOwed(w, due, c, side, g)
    {
      assert At(w, g, c, side) ==> StillWaits(w, g);
    }
    assert Owed(w, due, c, side) == {};
  }

  lemma DueSucceeds(w: World, c: nat, side: Side, chan: Chan<Value>, course: Course, s: CR.System<Value>)
    requires StackOK(w) && Running(w) && c in w.chans && Shows(w, Some((c, side)), c, s)
    requires course.rules.fair && course.start == CR.Start(chan.capacity, chan.maxWaiters) && Reached(course, s)
    ensures Available(w.chans[c], side) > 0
  {
    DischargedShows(w, c, side, c, s);
    if side.Reader? {
      ReachedSucceeds(chan, course, s, CR.GetResumed(Top(w)));
    } else {
      ReachedSucceeds(chan, course, s, CR.PutResumed(Top(w), 0));
    }
  }

  lemma DueRuns(
    start: World, events: seq<Event>, w: World, due: Option<(nat, Side)>,
    calls: map<nat, seq<CR.Event<Value>>>, rules: Rules)
    requires ReachesPromptly(start, events, w, due, calls, rules) && due.Some?
    ensures w.stack != []
  {
  }

  lemma TopIsThere(w: World)
    requires StackOK(w) && w.stack != []
    ensures Running(w)
  {
    assert w.stack[|w.stack| - 1] in w.frames;
  }

  /** In every run of the runtime in which fresh calls bypass nobody: a coroutine that has been woken at
      a channel finds its item, or its free slot, when it runs. */
  lemma ResumedFindsItsItem(
    chans: map<nat, Chan<Value>>, events: seq<Event>, w: World, calls: map<nat, seq<CR.Event<Value>>>,
    rules: Rules, c: nat, side: Side)
    requires New(chans) && ReachesPromptly(Empty(chans), events, w, Some((c, side)), calls, rules) && rules.fair
    requires c in chans
    ensures c in w.chans && Available(w.chans[c], side) > 0
  {
    var s := ChannelRefines(chans, events, w, Some((c, side)), calls, rules, c);
    DueRuns(Empty(chans), events, w, Some((c, side)), calls, rules);
    TopIsThere(w);
    DueSucceeds(w, c, side, chans[c], CourseOf(chans, c, calls, rules), s);
  }
}
