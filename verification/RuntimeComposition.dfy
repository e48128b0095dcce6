/** One step of the runtime is one step of all its parts: the scheduler, the promises, the generators, the
    stack of coroutines that are nested in each other, and the ownership of promises. */
module RuntimeComposition {
  import opened Wrappers
  import opened Schedulers
  import opened Cores
  import opened Generators
  import opened Channels
  import opened Runtime
  import opened Destruction
  import opened RuntimeInvariant
  import opened RuntimeSteps
  import opened RuntimeSafety
  import opened RuntimeOwnership
  import opened RuntimeMeaning
  import Selects
  import PR = PromiseRuns
  import GR = GeneratorRuns
  import SR = SchedulerRuns

  // ---- what is claimed ---------------------------------------------------------------------------

  function CoreThen(c: Core<Value>, e: Option<PR.Event<Value>>): Core<Value> {
    if e.None? then c else PR.Step(PR.Log(c, None, [], [], []), e.value).core
  }

  function GenThen(g: GenCore<Value>, e: Option<GR.Event<Value>>): GenCore<Value> {
    if e.None? then g else GR.Step(GR.Init().(core := g), e.value).core
  }

  /** Who exists, who owns whom, where everybody stands, and who runs. */
  ghost predicate Moved(w: World, e: Event, w': World) {
    && w'.frames.Keys == w.frames.Keys - Gone(w, e) + (if e.Start? then {e.n} else {})
    && w'.stack == StackAfter(w, e)
    && (forall f :: f in w.frames && f in w'.frames ==>
          && w'.frames[f].place == PlaceAfter(w, e, f) && w'.frames[f].owner == OwnerAfter(w, e, f)
          && (w'.frames[f].kind.Plain? <==> w.frames[f].kind.Plain?))
    && (e.Start? ==>
          w'.frames[e.n] == Frame(NewCore(), if e.generator then Gen(false, false) else Plain,
                                  if w.stack == [] then None else Some(Top(w)), OnStack))
  }

  /** Every promise that goes on existing has gone through its events, and so has every generator. */
  ghost predicate CoreFollows(w: World, e: Event, w': World, p: Handle)
    requires p in w.frames && p in w'.frames
  {
    var first := if EndsLast(e) then Indirectly(w, e, p) else Directly(w, e, p);
    var second := if EndsLast(e) then Directly(w, e, p) else Indirectly(w, e, p);
    w'.frames[p].core == CoreThen(CoreThen(w.frames[p].core, first), second)
  }

  ghost predicate GenFollows(w: World, e: Event, w': World, g: Handle)
    requires g in w.frames && g in w'.frames && w.frames[g].kind.Gen? && w'.frames[g].kind.Gen?
  {
    w'.frames[g].AsGen()
    == GenThen(GenThen(w.frames[g].AsGen(), GeneratorDirectly(w, e, g)), GeneratorIndirectly(w, e, g))
  }

  ghost predicate CoresFollow(w: World, e: Event, w': World) {
    forall p :: p in w.frames && p in w'.frames ==>
      && (w.frames[p].kind.Plain? ==> CoreFollows(w, e, w', p))
      && (w.frames[p].kind.Gen? && w'.frames[p].kind.Gen? ==> GenFollows(w, e, w', p))
  }

  /** The scheduler has got its requests. */
  ghost predicate QueueFollows(w: World, e: Event, w': World) {
    SR.After(SR.Deque(w.queue, {}), Scheduling(w, e)) == SR.Deque(w'.queue, {})
  }

  ghost predicate Composed(w: World, e: Event, w': World) {
    Moved(w, e, w') && CoresFollow(w, e, w') && QueueFollows(w, e, w')
  }

  // ---- events that destroy nothing ---------------------------------------------------------------

  lemma NothingGone(w: World, e: Event)
    requires Roots(e) == {}
    ensures Gone(w, e) == {} && Cancels(Gone(w, e)) == []
    ensures forall p :: !LetGoOf(w, e, p)
  {
  }

  lemma ShortRuns(q: seq<Entry>, h: Handle)
    ensures SR.After(SR.Deque(q, {}), []) == SR.Deque(q, {})
    ensures SR.After(SR.Deque(q, {}), [SR.Enqueue(h)]) == SR.Deque(q + [Some(h)], {})
    ensures SR.After(SR.Deque(q, {}), [SR.Next]) == SR.Deque(AfterNext(q, {}), {})
    ensures SR.After(SR.Deque(q, {}), [SR.Next] + [SR.Cancel(h)]) == SR.Deque(Cancelled(AfterNext(q, {}), h), {})
  {
    assert [SR.Enqueue(h)][..0] == [] && [SR.Next][..0] == [];
    assert ([SR.Next] + [SR.Cancel(h)])[..1] == [SR.Next];
  }

  /** Without getNext() and destruction, the requests are those of the event itself. */
  lemma OnlyAsks(w: World, e: Event)
    requires Roots(e) == {} && !HandsOn(w, e)
    ensures Scheduling(w, e) == Asks(w, e)
  {
    NothingGone(w, e);
    assert Asks(w, e) + [] + [] == Asks(w, e) && [] + Asks(w, e) == Asks(w, e);
  }

  lemma QueueAsked(w: World, e: Event, w': World, asked: seq<Entry>)
    requires Roots(e) == {} && !HandsOn(w, e) && w'.queue == w.queue + asked
    requires asked == [] ==> Asks(w, e) == []
    requires asked != [] ==> |asked| == 1 && asked[0].Some? && Asks(w, e) == [SR.Enqueue(asked[0].value)]
    ensures QueueFollows(w, e, w')
  {
    OnlyAsks(w, e);
    if asked == [] {
      assert w'.queue == w.queue;
      ShortRuns(w.queue, 0);
    } else {
      ShortRuns(w.queue, asked[0].value);
    }
  }

  /** An event after which everybody stands where they stood. */
  ghost predicate Unmoved(w: World, w': World) {
    && w'.frames.Keys == w.frames.Keys && w'.stack == w.stack
    && forall f :: f in w.frames ==>
         && w'.frames[f].place == w.frames[f].place && w'.frames[f].owner == w.frames[f].owner
         && (w'.frames[f].kind.Plain? <==> w.frames[f].kind.Plain?)
  }

  lemma NobodyArrives(w: World, e: Event)
    requires !HandsOn(w, e) && !Leaves(w, e) && !e.Start?
    ensures Arrives(w, e) == None && StackAfter(w, e) == w.stack
  {
    assert w.stack + [] == w.stack;
  }

  lemma UnmovedMoved(w: World, e: Event, w': World)
    requires Roots(e) == {} && !HandsOn(w, e) && !Leaves(w, e) && !e.Start? && !e.Move? && !e.Callback?
    requires Unmoved(w, w')
    ensures Moved(w, e, w')
  {
    NothingGone(w, e);
    NobodyArrives(w, e);
    forall f | f in w.frames
      ensures PlaceAfter(w, e, f) == w.frames[f].place && OwnerAfter(w, e, f) == w.frames[f].owner
    {
    }
  }

  lemma AwaitReadyComposes(w: World, p: Handle)
    requires p in w.frames && w.frames[p].kind.Plain? && w.frames[p].core.Ready() && CoreOK(w.frames[p])
    ensures Composed(w, Await(p), SetCore(w, p, AfterFetch(w.frames[p].core)))
  {
    var e, w' := Await(p), SetCore(w, p, AfterFetch(w.frames[p].core));
    NothingGone(w, e);
    UnmovedMoved(w, e, w');
    assert w'.queue == w.queue + [];
    QueueAsked(w, e, w', []);
  }

  lemma AwaitStaleComposes(w: World, p: Handle)
    requires p in w.frames && w.frames[p].core.phase.Finished? && !w.frames[p].core.Ready() && w.frames[p].kind.Plain?
    ensures Composed(w, Await(p), w)
  {
    var e := Await(p);
    NothingGone(w, e);
    UnmovedMoved(w, e, w);
    assert w.queue == w.queue + [];
    QueueAsked(w, e, w, []);
  }

  lemma AwaitGeneratorReadyComposes(w: World, g: Handle)
    requires g in w.frames && w.frames[g].kind.Gen? && AwaitReady(w.frames[g].AsGen())
    ensures Composed(w, AwaitGenerator(g), SetGen(w, g, AfterReply(w.frames[g].AsGen())))
  {
    var e, w' := AwaitGenerator(g), SetGen(w, g, AfterReply(w.frames[g].AsGen()));
    NothingGone(w, e);
    UnmovedMoved(w, e, w');
    assert w'.queue == w.queue + [];
    QueueAsked(w, e, w', []);
  }

  lemma ReleasedCores(w: World, ps: seq<Handle>)
    requires exists p :: p in ps && p in w.frames && w.frames[p].core.Ready()
    requires forall p :: p in ps && p in w.frames ==> w.frames[p].kind.Plain?
    ensures CoresFollow(w, Select(ps), Release(w, ps))
  {
    NothingGone(w, Select(ps));
  }

  lemma SelectReadyComposes(w: World, ps: seq<Handle>)
    requires exists p :: p in ps && p in w.frames && w.frames[p].core.Ready()
    requires forall p :: p in ps && p in w.frames ==> w.frames[p].kind.Plain?
    ensures Composed(w, Select(ps), Release(w, ps))
  {
    var e, w' := Select(ps), Release(w, ps);
    ReleasedCores(w, ps);
    UnmovedMoved(w, e, w');
    assert w'.queue == w.queue + [];
    QueueAsked(w, e, w', []);
  }

  lemma UnwrapComposes(w: World, p: Handle)
    requires p in w.frames && w.frames[p].kind.Plain?
    ensures Composed(w, Unwrap(p), SetCore(w, p, AfterUnwrap(w.frames[p].core)))
  {
    var e, w' := Unwrap(p), SetCore(w, p, AfterUnwrap(w.frames[p].core));
    NothingGone(w, e);
    UnmovedMoved(w, e, w');
    assert w'.queue == w.queue + [];
    QueueAsked(w, e, w', []);
  }

  lemma DropSetComposes(w: World, ps: seq<Handle>)
    requires forall p :: p in ps && p in w.frames ==> !w.frames[p].core.IsAwaited() && CoreOK(w.frames[p])
    ensures Composed(w, DropSet(ps), SetDropped(w, ps))
  {
    var e, w' := DropSet(ps), SetDropped(w, ps);
    NothingGone(w, e);
    UnmovedMoved(w, e, w');
    assert w'.queue == w.queue + [];
    QueueAsked(w, e, w', []);
  }

  lemma MoveComposes(w: World, p: Handle, to: Option<Handle>)
    requires p in w.frames
    ensures Composed(w, Runtime.Move(p, to), MovedTo(w, p, to))
  {
    var e, w' := Runtime.Move(p, to), MovedTo(w, p, to);
    NothingGone(w, e);
    assert w'.queue == w.queue + [] && w.stack + [] == w.stack;
    QueueAsked(w, e, w', []);
  }

  lemma StartComposes(w: World, n: Handle, generator: bool, args: set<Handle>)
    requires n !in w.frames
    ensures Composed(w, Start(n, generator, args), Started(w, n, generator, args))
  {
    var e, w' := Start(n, generator, args), Started(w, n, generator, args);
    NothingGone(w, e);
    assert w'.queue == w.queue + [];
    QueueAsked(w, e, w', []);
  }

  lemma CallbackComposes(w: World, h: Handle)
    requires h in w.frames
    ensures Composed(w, Callback(h), CalledBack(w, h))
  {
    var e, w' := Callback(h), CalledBack(w, h);
    NothingGone(w, e);
    assert w.stack + [] == w.stack;
    QueueAsked(w, e, w', [Some(h)]);
  }

  // ---- the running coroutine stops ---------------------------------------------------------------

  lemma YieldComposes(w: World)
    requires Running(w)
    ensures Composed(w, Yield, Enqueued(Leave(w, AtExternal(false)), [Some(Top(w))]))
  {
    var e, w' := Yield, Enqueued(Leave(w, AtExternal(false)), [Some(Top(w))]);
    NothingGone(w, e);
    assert StackAfter(w, e) == w'.stack;
    QueueAsked(w, e, w', [Some(Top(w))]);
  }

  lemma WaitComposes(w: World)
    requires Running(w)
    ensures Composed(w, WaitExternally(false), Leave(w, AtExternal(true)))
  {
    var e, w' := WaitExternally(false), Leave(w, AtExternal(true));
    NothingGone(w, e);
    assert StackAfter(w, e) == w'.stack && w'.queue == w.queue + [];
    QueueAsked(w, e, w', []);
  }

  lemma CoYieldMoves(w: World, v: Value)
    requires Running(w) && w.frames[Top(w)].kind.Gen?
    ensures Moved(w, CoYield(v), Yields(w, v))
  {
    NothingGone(w, CoYield(v));
    assert StackAfter(w, CoYield(v)) == Yields(w, v).stack;
  }

  lemma CoYieldComposes(w: World, v: Value)
    requires Running(w) && w.frames[Top(w)].kind.Gen?
    ensures Composed(w, CoYield(v), Yields(w, v))
  {
    var e, w' := CoYield(v), Yields(w, v);
    CoYieldMoves(w, v);
    NothingGone(w, e);
    QueueAsked(w, e, w', Wakes(w.frames[Top(w)].core));
  }

  lemma PutItemComposes(w: World, e: Event, c: nat, item: Value)
    requires c in w.chans && |w.chans[c].items| < w.chans[c].capacity && (e == Put(c, item) || e == PutResumed(c, item))
    ensures Composed(w, e, PutItem(w, c, item))
  {
    var w' := PutItem(w, c, item);
    NothingGone(w, e);
    UnmovedMoved(w, e, w');
    QueueAsked(w, e, w', Woken(w.chans[c].readers));
  }

  lemma GetItemComposes(w: World, e: Event, c: nat)
    requires c in w.chans && w.chans[c].items != [] && (e == Get(c) || e == GetResumed(c))
    ensures Composed(w, e, GetItem(w, c))
  {
    var w' := GetItem(w, c);
    NothingGone(w, e);
    UnmovedMoved(w, e, w');
    QueueAsked(w, e, w', Woken(w.chans[c].writers));
  }

  lemma WaitOnChannelComposes(w: World, e: Event, c: nat, side: Side)
    requires Running(w) && c in w.chans && HasToWait(w, e)
    requires (e.Put? && e.c == c && side.Writer?) || (e.Get? && e.c == c && side.Reader?)
    ensures Composed(w, e, WaitOnChannel(w, c, side))
  {
    var w' := WaitOnChannel(w, c, side);
    NothingGone(w, e);
    assert StackAfter(w, e) == w'.stack && w'.queue == w.queue + [];
    QueueAsked(w, e, w', []);
  }

  lemma RefusedComposes(w: World, e: Event)
    requires (e.Put? || e.PutResumed? || e.Get? || e.GetResumed?) && e.c in w.chans
    requires if e.Put? || e.PutResumed? then |w.chans[e.c].items| >= w.chans[e.c].capacity else w.chans[e.c].items == []
    requires !HasToWait(w, e)
    ensures Composed(w, e, w)
  {
    NothingGone(w, e);
    UnmovedMoved(w, e, w);
    assert w.queue == w.queue + [];
    QueueAsked(w, e, w, []);
  }

  lemma PutComposes(w: World, c: nat, item: Value)
    requires Running(w) && c in w.chans
    ensures Composed(w, Put(c, item), Step(w, Put(c, item)))
    ensures Composed(w, PutResumed(c, item), Step(w, PutResumed(c, item)))
  {
    if |w.chans[c].items| < w.chans[c].capacity {
      PutItemComposes(w, Put(c, item), c, item);
      PutItemComposes(w, PutResumed(c, item), c, item);
    } else {
      RefusedComposes(w, PutResumed(c, item));
      if HasToWait(w, Put(c, item)) {
        WaitOnChannelComposes(w, Put(c, item), c, Writer);
      } else {
        RefusedComposes(w, Put(c, item));
      }
    }
  }

  lemma GetComposes(w: World, c: nat)
    requires Running(w) && c in w.chans
    ensures Composed(w, Get(c), Step(w, Get(c)))
    ensures Composed(w, GetResumed(c), Step(w, GetResumed(c)))
  {
    if w.chans[c].items != [] {
      GetItemComposes(w, Get(c), c);
      GetItemComposes(w, GetResumed(c), c);
    } else {
      RefusedComposes(w, GetResumed(c));
      if HasToWait(w, Get(c)) {
        WaitOnChannelComposes(w, Get(c), c, Reader);
      } else {
        RefusedComposes(w, Get(c));
      }
    }
  }

  // ---- control is handed on ------------------------------------------------------------------------

  ghost predicate HalfMoved(w: World, e: Event, x: World) {
    && (!e.Loop? ==> w.stack != [])
    && x.frames.Keys == w.frames.Keys
    && x.stack == (if e.Loop? then w.stack else w.stack[..|w.stack| - 1])
    && forall p :: p in w.frames ==>
         && x.frames[p].owner == w.frames[p].owner && (x.frames[p].kind.Plain? <==> w.frames[p].kind.Plain?)
         && x.frames[p].place == (if !e.Loop? && p == Top(w) then Stand(w, e) else w.frames[p].place)
  }

  ghost predicate HalfCore(w: World, e: Event, x: World, p: Handle)
    requires p in w.frames && p in x.frames
  {
    && (w.frames[p].kind.Plain? ==>
          && x.frames[p].core == CoreThen(w.frames[p].core, Directly(w, e, p))
          && x.frames[p].core.slot == w.frames[p].core.slot)
    && (w.frames[p].kind.Gen? && x.frames[p].kind.Gen? ==>
          x.frames[p].AsGen() == GenThen(w.frames[p].AsGen(), GeneratorDirectly(w, e, p)))
  }

  /** The first half of an event that ends with getNext(): what the running coroutine does by itself. */
  ghost predicate HalfWay(w: World, e: Event, x: World) {
    && HandsOn(w, e) && Roots(e) == {} && HalfMoved(w, e, x)
    && x.queue == w.queue + (if SentOn(w, e) then [Some(e.g)] else [])
    && forall p :: p in w.frames ==> HalfCore(w, e, x, p)
  }

  lemma AwaitHalfWay(w: World, p: Handle)
    requires Running(w) && p in w.frames && w.frames[p].kind.Plain? && w.frames[p].core.phase.Init?
    requires CoreOK(w.frames[p])
    ensures var waited := Core(WaitedOn, Some(Top(w)), w.frames[p].core.slot);
            HalfWay(w, Await(p), Leave(SetCore(w, p, waited), AtPromise(p)))
  {
  }

  lemma AwaitGeneratorHalfWay(w: World, g: Handle)
    requires Running(w) && g in w.frames && w.frames[g].kind.Gen? && !AwaitReady(w.frames[g].AsGen())
    ensures HalfWay(w, AwaitGenerator(g), AwaitedGenerator(w, g))
  {
    var e, x := AwaitGenerator(g), AwaitedGenerator(w, g);
    forall p | p in w.frames
      ensures HalfCore(w, e, x, p)
    {
    }
    assert HalfMoved(w, e, x);
  }

  lemma SelectHalfWay(w: World, ps: seq<Handle>)
    requires Running(w) && Selectable(w, ps)
    ensures HalfWay(w, Select(ps), Selected(w, ps))
  {
  }

  lemma WaitHalfWay(w: World)
    requires Running(w)
    ensures HalfWay(w, WaitExternally(true), Leave(w, AtExternal(true)))
  {
  }

  lemma LoopHalfWay(w: World)
    requires w.stack == []
    ensures HalfWay(w, Loop, w)
  {
  }

  lemma {:induction false} NoDoneQueued(q: seq<Entry>, done: set<Handle>)
    requires forall h :: h in done ==> Some(h) !in q
    ensures NextHandle(q, done) == NextHandle(q, {}) && AfterNext(q, done) == AfterNext(q, {})
  {
    SkippedAlike(q, done);
  }

  lemma {:induction false} SkippedAlike(q: seq<Entry>, done: set<Handle>)
    requires forall h :: h in done ==> Some(h) !in q
    ensures Skipped(q, done) == Skipped(q, {})
  {
    if q != [] {
      SkippedAlike(q[1..], done);
    }
  }

  /** What the awaiter of `h` refers to is of the right kind. */
  predicate Refers(x: World, h: Handle)
    requires h in x.frames
  {
    match x.frames[h].place
    case AtPromise(q) => q in x.frames && x.frames[q].kind.Plain?
    case AtGenerator(q) => q in x.frames && x.frames[q].kind.Gen?
    case AtSelect(ps, _) => forall p :: p in ps ==> p in x.frames && x.frames[p].kind.Plain?
    case _ => true
  }

  /** The next coroutine stands where it stood before. */
  ghost predicate AboutToRun(w: World, e: Event, x: World, h: Handle) {
    && HandsOn(w, e) && Next(w, e) == Some(h) && h in w.frames && h in x.frames
    && w.frames[h].place == x.frames[h].place && Refers(x, h)
  }

  lemma TopIsNotQueued(w: World, e: Event)
    requires Inv(w) && w.stack != [] && HandsOn(w, e)
    ensures Occ(w.queue + (if SentOn(w, e) then [Some(e.g)] else []), Top(w)) == 0
  {
    assert w.stack[|w.stack| - 1] in w.frames && w.frames[Top(w)].place.OnStack? && PlaceOK(w, Top(w));
    if SentOn(w, e) {
      assert CoreOK(w.frames[e.g]);
      OccAppend(w.queue, [Some(e.g)], Top(w));
    } else {
      OccAppend(w.queue, [], Top(w));
    }
  }

  lemma DoneAreNotQueued(x: World)
    requires Inv(x)
    ensures NextHandle(x.queue, DoneSet(x)) == NextHandle(x.queue, {})
    ensures AfterNext(x.queue, DoneSet(x)) == AfterNext(x.queue, {})
  {
    forall h | h in DoneSet(x)
      ensures Some(h) !in x.queue
    {
      assert PlaceOK(x, h);
      assert Occ(x.queue, h) == 0;
    }
    NoDoneQueued(x.queue, DoneSet(x));
  }

  /** The coroutine that the scheduler returns is the next one, and stands where it stood before. */
  lemma NextIs(w: World, e: Event, x: World)
    requires Inv(w) && Inv(x) && HalfWay(w, e, x)
    ensures NextHandle(x.queue, DoneSet(x)) == Next(w, e) && AfterNext(x.queue, DoneSet(x)) == AfterNext(x.queue, {})
    ensures Next(w, e).Some? ==> AboutToRun(w, e, x, Next(w, e).value)
  {
    DoneAreNotQueued(x);
    if Next(w, e).Some? {
      var h := Next(w, e).value;
      NextIsSuspended(x, h);
      ReferredTo(x, h);
      if !e.Loop? && h == Top(w) {
        TopIsNotQueued(w, e);
      }
    }
  }

  lemma ReferredTo(x: World, h: Handle)
    requires PlacesOK(x) && h in x.frames
    ensures Refers(x, h)
  {
    assert PlaceOK(x, h);
  }

  /** What it does to the cores when it is resumed. */
  lemma ResumedPlainCore(w: World, e: Event, x: World, h: Handle, p: Handle)
    requires AboutToRun(w, e, x, h) && p in w.frames && p in x.frames && x.frames[p].kind.Plain?
    requires x.frames[p].core.slot == w.frames[p].core.slot
    ensures p in Resumption(x, h).frames && Resumption(x, h).frames[p].kind.Plain?
    ensures Resumption(x, h).frames[p].core == CoreThen(x.frames[p].core, Indirectly(w, e, p))
  {
  }

  lemma ResumedGenerator(w: World, e: Event, x: World, h: Handle, g: Handle)
    requires AboutToRun(w, e, x, h) && g in x.frames && x.frames[g].kind.Gen?
    ensures g in Resumption(x, h).frames && Resumption(x, h).frames[g].kind.Gen?
    ensures Resumption(x, h).frames[g].AsGen() == GenThen(x.frames[g].AsGen(), GeneratorIndirectly(w, e, g))
  {
  }

  lemma AsksRun(w: World, e: Event, x: World)
    requires HandsOn(w, e) && Roots(e) == {} && (e.Yield? ==> w.stack != [])
    requires x.queue == w.queue + (if SentOn(w, e) then [Some(e.g)] else [])
    ensures SR.After(SR.Deque(w.queue, {}), Asks(w, e)) == SR.Deque(x.queue, {})
    ensures Scheduling(w, e) == Asks(w, e) + Turns(w, e)
  {
    NothingGone(w, e);
    var asked := Asks(w, e);
    assert asked + [] == asked;
    if SentOn(w, e) {
      ShortRuns(w.queue, e.g);
    } else {
      ShortRuns(w.queue, 0);
      assert w.queue + [] == w.queue;
    }
  }

  lemma TurnsRun(w: World, e: Event, q: seq<Entry>)
    requires HandsOn(w, e)
    ensures SR.After(SR.Deque(q, {}), Turns(w, e))
         == SR.Deque(if Next(w, e).Some? && Next(w, e).value in w.frames && w.frames[Next(w, e).value].place.AtSelect?
                     then Cancelled(AfterNext(q, {}), Next(w, e).value) else AfterNext(q, {}), {})
  {
    ShortRuns(q, if Next(w, e).Some? then Next(w, e).value else 0);
    assert [SR.Next] + [] == [SR.Next];
  }

  lemma ResumeCancels(x: World, h: Handle)
    requires h in x.frames
    ensures Resume(x, h).queue == if x.frames[h].place.AtSelect? then Cancelled(x.queue, h) else x.queue
  {
  }

  lemma ResumedQueue(w: World, e: Event, x: World, h: Handle)
    requires HalfWay(w, e, x) && AboutToRun(w, e, x, h)
    ensures QueueFollows(w, e, Resume(x.(queue := AfterNext(x.queue, {})), h))
  {
    AsksRun(w, e, x);
    TurnsRun(w, e, x.queue);
    SR.AfterAppend(SR.Deque(w.queue, {}), Asks(w, e), Turns(w, e));
    ResumeCancels(x.(queue := AfterNext(x.queue, {})), h);
  }

  lemma IdleQueue(w: World, e: Event, x: World)
    requires HalfWay(w, e, x) && Next(w, e) == None
    ensures QueueFollows(w, e, x.(queue := AfterNext(x.queue, {})))
  {
    AsksRun(w, e, x);
    TurnsRun(w, e, x.queue);
    SR.AfterAppend(SR.Deque(w.queue, {}), Asks(w, e), Turns(w, e));
  }

  lemma PlaceHandedOn(w: World, e: Event, f: Handle)
    requires HandsOn(w, e) && f in w.frames && (!e.Loop? ==> w.stack != [])
    ensures PlaceAfter(w, e, f)
         == if Next(w, e) == Some(f) then OnStack
            else if !e.Loop? && f == Top(w) then Stand(w, e) else w.frames[f].place
    ensures OwnerAfter(w, e, f) == w.frames[f].owner
  {
  }

  /** Of the second half only the place of the coroutine that runs next, and the stack, are of interest. */
  ghost predicate Taken(x: World, w': World, next: Option<Handle>) {
    && w'.frames.Keys == x.frames.Keys && w'.stack == x.stack + (if next.Some? then [next.value] else [])
    && forall f :: f in x.frames ==>
         && w'.frames[f].place == (if next == Some(f) then OnStack else x.frames[f].place)
         && w'.frames[f].owner == x.frames[f].owner && (w'.frames[f].kind.Plain? <==> x.frames[f].kind.Plain?)
  }

  lemma TakenMoves(w: World, e: Event, x: World, w': World)
    requires HandsOn(w, e) && Roots(e) == {} && HalfMoved(w, e, x) && Taken(x, w', Next(w, e))
    ensures Moved(w, e, w')
  {
    NothingGone(w, e);
    forall f | f in w.frames
      ensures w'.frames[f].place == PlaceAfter(w, e, f) && w'.frames[f].owner == OwnerAfter(w, e, f)
    {
      PlaceHandedOn(w, e, f);
    }
  }

  lemma ResumedIsTaken(x: World, h: Handle)
    requires h in x.frames && forall f :: f in x.frames ==> ResumptionOf(x, h, f)
    ensures Taken(x, Resume(x, h), Some(h))
  {
  }

  lemma ResumedCores(w: World, e: Event, x: World, h: Handle)
    requires AboutToRun(w, e, x, h) && !EndsLast(e) && x.frames.Keys == w.frames.Keys
    requires forall p :: p in w.frames ==> HalfCore(w, e, x, p)
    requires forall p :: p in w.frames ==> (x.frames[p].kind.Plain? <==> w.frames[p].kind.Plain?)
    ensures CoresFollow(w, e, Resume(x, h))
  {
    var w' := Resume(x, h);
    forall p | p in w.frames && p in w'.frames
      ensures w.frames[p].kind.Plain? ==> CoreFollows(w, e, w', p)
      ensures w.frames[p].kind.Gen? && w'.frames[p].kind.Gen? ==> GenFollows(w, e, w', p)
    {
      assert HalfCore(w, e, x, p);
      if w.frames[p].kind.Plain? {
        ResumedPlainCore(w, e, x, h, p);
      } else {
        ResumedGenerator(w, e, x, h, p);
      }
    }
  }

  lemma RestIsTheSame(w: World, e: Event, x: World, h: Handle, q: seq<Entry>)
    requires HalfWay(w, e, x) && AboutToRun(w, e, x, h)
    ensures var rest := x.(queue := q);
            && HalfMoved(w, e, rest) && AboutToRun(w, e, rest, h)
            && forall p :: p in w.frames ==> HalfCore(w, e, rest, p)
  {
    var rest := x.(queue := q);
    forall p | p in w.frames
      ensures HalfCore(w, e, rest, p)
    {
      assert HalfCore(w, e, x, p);
    }
  }

  lemma RestComposes(w: World, e: Event, rest: World, h: Handle)
    requires HandsOn(w, e) && Roots(e) == {} && HalfMoved(w, e, rest) && AboutToRun(w, e, rest, h)
    requires forall p :: p in w.frames ==> HalfCore(w, e, rest, p)
    ensures Moved(w, e, Resume(rest, h)) && CoresFollow(w, e, Resume(rest, h))
  {
    forall f | f in rest.frames
      ensures ResumptionOf(rest, h, f)
    {
      ResumptionFrame(rest, h, f);
    }
    ResumedIsTaken(rest, h);
    TakenMoves(w, e, rest, Resume(rest, h));
    ResumedCores(w, e, rest, h);
  }

  lemma ResumedComposes(w: World, e: Event, x: World, h: Handle)
    requires HalfWay(w, e, x) && AboutToRun(w, e, x, h)
    ensures Composed(w, e, Resume(x.(queue := AfterNext(x.queue, {})), h))
  {
    ResumedQueue(w, e, x, h);
    RestIsTheSame(w, e, x, h, AfterNext(x.queue, {}));
    RestComposes(w, e, x.(queue := AfterNext(x.queue, {})), h);
  }

  lemma NothingFollows(w: World, e: Event, p: Handle)
    requires Roots(e) == {} && Next(w, e) == None && p in w.frames
    ensures Indirectly(w, e, p) == None && GeneratorIndirectly(w, e, p) == None
  {
    NothingGone(w, e);
  }

  lemma IdleCores(w: World, e: Event, x: World)
    requires HalfWay(w, e, x) && Next(w, e) == None
    ensures CoresFollow(w, e, x)
  {
    forall p | p in w.frames
      ensures w.frames[p].kind.Plain? ==> CoreFollows(w, e, x, p)
      ensures w.frames[p].kind.Gen? && x.frames[p].kind.Gen? ==> GenFollows(w, e, x, p)
    {
      assert HalfCore(w, e, x, p);
      NothingFollows(w, e, p);
    }
  }

  lemma IdleMoves(w: World, e: Event, x: World)
    requires HalfWay(w, e, x) && Next(w, e) == None
    ensures Moved(w, e, x)
  {
    assert x.stack + [] == x.stack;
    TakenMoves(w, e, x, x);
  }

  lemma QueueDoesNotMatter(w: World, e: Event, x: World, q: seq<Entry>)
    requires Moved(w, e, x) && CoresFollow(w, e, x)
    ensures Moved(w, e, x.(queue := q)) && CoresFollow(w, e, x.(queue := q))
  {
    var w' := x.(queue := q);
    forall p | p in w.frames && p in w'.frames
      ensures w.frames[p].kind.Plain? ==> CoreFollows(w, e, w', p)
      ensures w.frames[p].kind.Gen? && w'.frames[p].kind.Gen? ==> GenFollows(w, e, w', p)
    {
      assert w.frames[p].kind.Plain? ==> CoreFollows(w, e, x, p);
      assert w.frames[p].kind.Gen? && x.frames[p].kind.Gen? ==> GenFollows(w, e, x, p);
    }
  }

  lemma IdleComposes(w: World, e: Event, x: World)
    requires HalfWay(w, e, x) && Next(w, e) == None
    ensures Composed(w, e, x.(queue := AfterNext(x.queue, {})))
  {
    IdleMoves(w, e, x);
    IdleCores(w, e, x);
    IdleQueue(w, e, x);
    QueueDoesNotMatter(w, e, x, AfterNext(x.queue, {}));
  }

  lemma RunNextIs(x: World, next: Option<Handle>, q: seq<Entry>)
    requires NextHandle(x.queue, DoneSet(x)) == next && AfterNext(x.queue, DoneSet(x)) == q
    requires next.Some? ==> next.value in x.frames
    ensures RunNext(x) == if next.None? then x.(queue := q) else Resume(x.(queue := q), next.value)
  {
  }

  lemma NextComposes(w: World, e: Event, x: World)
    requires Inv(w) && Inv(x) && HalfWay(w, e, x)
    ensures Composed(w, e, RunNext(x))
  {
    NextIs(w, e, x);
    RunNextIs(x, Next(w, e), AfterNext(x.queue, {}));
    if Next(w, e).None? {
      IdleComposes(w, e, x);
    } else {
      ResumedComposes(w, e, x, Next(w, e).value);
    }
  }

  // ---- destruction ---------------------------------------------------------------------------------

  lemma ResidentsAreClosed(w: World, roots: set<Handle>)
    requires roots <= w.frames.Keys
    ensures Closed(w, Residents(w, roots)) && roots <= Residents(w, roots)
  {
    var all := Residents(w, roots);
    forall f, k | f in all && k in w.frames && w.frames[k].owner == Some(f)
      ensures k in all
    {
      var p :| p in roots && LivesIn(w, f, p);
      assert LivesIn(w, k, p);
    }
    forall p | p in roots
      ensures p in all
    {
      assert LivesIn(w, p, p);
    }
  }

  lemma ResidentsAreIn(w: World, roots: set<Handle>, s: set<Handle>)
    requires Closed(w, s) && roots <= s
    ensures Residents(w, roots) <= s
  {
    forall f | f in Residents(w, roots)
      ensures f in s
    {
      var p :| p in roots && LivesIn(w, f, p);
    }
  }

  /** What is destroyed with a promise are exactly the coroutines that live in it. */
  lemma DoomedAreResidents(w: World, x: Handle, lazily: bool)
    requires Settled(w) && x in w.frames
    ensures Doomed(w, x, lazily) == Residents(w, {x})
  {
    ResidentsAreClosed(w, {x});
    RecursiveDestructionErases(w, x, lazily, Residents(w, {x}));
    ResidentsAreIn(w, {x}, Doomed(w, x, lazily));
  }

  lemma AllDoomedAreResidents(w: World, s: set<Handle>)
    requires Settled(w) && s <= w.frames.Keys
    ensures DoomedAll(w, s) == Residents(w, s)
  {
    ResidentsAreClosed(w, s);
    RecursiveDestructionErasesAll(w, s, Residents(w, s));
    AllRootsDie(w, s);
    ResidentsAreIn(w, s, DoomedAll(w, s));
  }

  lemma LastCancel(gone: set<Handle>) returns (h: Handle)
    requires gone != {}
    ensures h in gone && Cancels(gone) == Cancels(gone - {h}) + [SR.Cancel(h)]
  {
    h :| h in gone && Cancels(gone) == Cancels(gone - {h}) + [SR.Cancel(h)];
  }

  lemma {:induction false} CancelsRun(q: seq<Entry>, gone: set<Handle>)
    ensures SR.After(SR.Deque(q, {}), Cancels(gone)) == SR.Deque(CancelAll(q, gone), {})
    decreases |gone|
  {
    if gone == {} {
      assert CancelAll(q, {}) == q;
    } else {
      var h := LastCancel(gone);
      CancelsRun(q, gone - {h});
      assert Cancels(gone)[..|Cancels(gone)| - 1] == Cancels(gone - {h});
      CancelOne(CancelAll(q, gone - {h}), h);
      CancelTwice(q, gone - {h}, {h});
      assert gone - {h} + {h} == gone;
    }
  }

  lemma OnlyPlainAreLetGoOf(w: World, e: Event, p: Handle)
    requires PlacesOK(w) && p in w.frames && LetGoOf(w, e, p)
    ensures w.frames[p].kind.Plain?
  {
    var g :| g in Gone(w, e) && g in w.frames && w.frames[g].place.AtSelect? && p in w.frames[g].place.ps;
    assert PlaceOK(w, g);
  }

  /** What the destruction does to the cores of the others. */
  lemma ErasedCore(w: World, e: Event, p: Handle)
    requires PlacesOK(w) && !HandsOn(w, e) && p in w.frames && p !in Gone(w, e)
    ensures var x := Erase(w, Gone(w, e)).frames[p];
            && (w.frames[p].kind.Plain? ==>
                  x == w.frames[p].(core := CoreThen(w.frames[p].core, Indirectly(w, e, p))))
            && (w.frames[p].kind.Gen? ==> x == w.frames[p])
  {
    assert Deselected(w, Gone(w, e), p) <==> LetGoOf(w, e, p);
    if LetGoOf(w, e, p) {
      OnlyPlainAreLetGoOf(w, e, p);
    }
  }

  lemma ErasedMoves(w: World, e: Event)
    requires e.Drop? || e.Overwrite?
    ensures Moved(w, e, Erase(w, Gone(w, e)))
  {
    NobodyArrives(w, e);
  }

  lemma ErasedCores(w: World, e: Event)
    requires PlacesOK(w) && (e.Drop? || e.Overwrite?)
    ensures CoresFollow(w, e, Erase(w, Gone(w, e)))
  {
    forall p | p in w.frames && p !in Gone(w, e)
      ensures w.frames[p].kind.Plain? ==> CoreFollows(w, e, Erase(w, Gone(w, e)), p)
      ensures w.frames[p].kind.Gen? ==> GenFollows(w, e, Erase(w, Gone(w, e)), p)
    {
      ErasedCore(w, e, p);
    }
  }

  lemma ErasedQueue(w: World, e: Event)
    requires e.Drop? || e.Overwrite?
    ensures QueueFollows(w, e, Erase(w, Gone(w, e)))
  {
    CancelsRun(w.queue, Gone(w, e));
    assert [] + Cancels(Gone(w, e)) + [] == Cancels(Gone(w, e));
  }

  lemma DropComposes(w: World, e: Event, p: Handle, lazily: bool)
    requires Inv(w) && p in w.frames && (e == Drop(p) || e == Overwrite(p))
    ensures Composed(w, e, Destroy(w, p, lazily))
  {
    InvIsSettled(w);
    DoomedAreResidents(w, p, lazily);
    RecursiveDestructionErases(w, p, lazily, {});
    ErasedMoves(w, e);
    ErasedCores(w, e);
    ErasedQueue(w, e);
  }

  // ---- the end of a coroutine ------------------------------------------------------------------------

  lemma EndsResidents(w: World, u: World, roots: set<Handle>)
    requires u.frames.Keys == w.frames.Keys && forall f :: f in w.frames ==> u.frames[f].owner == w.frames[f].owner
    ensures Residents(u, roots) == Residents(w, roots)
  {
    forall s
      ensures Closed(u, s) <==> Closed(w, s)
    {
    }
    forall f
      ensures LivesInOne(u, f, roots) <==> LivesInOne(w, f, roots)
    {
      forall p
        ensures LivesIn(u, f, p) <==> LivesIn(w, f, p)
      {
      }
    }
  }

  /** The running coroutine has put its outcome into its core, enqueued its waiter, and left the stack. */
  ghost predicate Ended(w: World, e: Event, u: World) {
    && Running(w) && u.frames.Keys == w.frames.Keys && u.stack == w.stack[..|w.stack| - 1]
    && u.queue == w.queue + Wakes(w.frames[Top(w)].core)
    && (forall f :: f in w.frames && f != Top(w) ==> u.frames[f] == w.frames[f])
    && var x, x' := w.frames[Top(w)], u.frames[Top(w)];
       && x'.owner == x.owner && x'.place == AtEnd && (x'.kind.Plain? <==> x.kind.Plain?)
       && (x.kind.Plain? ==> x'.core == CoreThen(x.core, Directly(w, e, Top(w))))
       && (x.kind.Gen? && x'.kind.Gen? ==> x'.AsGen() == GenThen(x.AsGen(), GeneratorDirectly(w, e, Top(w))))
  }

  lemma EndsIsEnded(w: World, o: Outcome<Value>, locals: set<Handle>)
    requires Running(w) && w.frames[Top(w)].kind.Plain?
    ensures Ended(w, Finish(o, locals), Ends(w, o))
  {
  }

  lemma EndsGeneratorIsEnded(w: World, error: Option<Exception>, locals: set<Handle>)
    requires Running(w) && w.frames[Top(w)].kind.Gen?
    ensures Ended(w, FinishGenerator(error, locals), EndsGenerator(w, error))
  {
  }

  /** What is gone is the same before and after the end. */
  lemma EndedResidents(w: World, e: Event, u: World, roots: set<Handle>)
    requires Ended(w, e, u)
    ensures Residents(u, roots) == Residents(w, roots)
  {
    EndsResidents(w, u, roots);
  }

  lemma FinishStack(w: World, e: Event)
    requires (e.Finish? || e.FinishGenerator?) && w.stack != []
    ensures Arrives(w, e) == None && StackAfter(w, e) == w.stack[..|w.stack| - 1]
    ensures Next(w, e) == None && Leaves(w, e) && Stand(w, e) == AtEnd
  {
  }

  lemma FinishPlace(w: World, e: Event, f: Handle)
    requires (e.Finish? || e.FinishGenerator?) && w.stack != [] && f in w.frames
    ensures PlaceAfter(w, e, f) == if f == Top(w) then AtEnd else w.frames[f].place
    ensures OwnerAfter(w, e, f) == w.frames[f].owner
  {
  }

  lemma EndedLetGo(w: World, e: Event, u: World, p: Handle)
    requires Ended(w, e, u) && w.frames[Top(w)].place.OnStack?
    ensures Deselected(u, Gone(w, e), p) <==> LetGoOf(w, e, p)
  {
    assert forall g :: g in w.frames && g != Top(w) ==> u.frames[g] == w.frames[g];
  }

  lemma FinishActsOnTop(w: World, e: Event, p: Handle)
    requires (e.Finish? || e.FinishGenerator?) && w.stack != [] && p in w.frames && p != Top(w)
    ensures Directly(w, e, p) == None && GeneratorDirectly(w, e, p) == None
  {
  }

  lemma FinishThen(w: World, e: Event, p: Handle)
    requires (e.Finish? || e.FinishGenerator?) && w.stack != [] && p in w.frames
    ensures Indirectly(w, e, p) == if LetGoOf(w, e, p) then Some(PR.Deregister) else None
    ensures GeneratorIndirectly(w, e, p) == None
  {
    FinishStack(w, e);
  }

  lemma SurvivorIs(u: World, gone: set<Handle>, p: Handle, letGo: bool)
    requires p in u.frames && p !in gone && (Deselected(u, gone, p) <==> letGo)
    ensures Erase(u, gone).frames[p]
         == if letGo then u.frames[p].(core := Deregistered(u.frames[p].core)) else u.frames[p]
  {
  }

  lemma OnlyIndirectly(w: World, e: Event, w': World, p: Handle)
    requires p in w.frames && p in w'.frames && !EndsLast(e)
    requires Directly(w, e, p) == None && GeneratorDirectly(w, e, p) == None && GeneratorIndirectly(w, e, p) == None
    requires w.frames[p].kind.Plain? ==> w'.frames[p].core == CoreThen(w.frames[p].core, Indirectly(w, e, p))
    requires w.frames[p].kind.Gen? ==> w'.frames[p] == w.frames[p]
    ensures w.frames[p].kind.Plain? ==> CoreFollows(w, e, w', p)
    ensures w.frames[p].kind.Gen? ==> GenFollows(w, e, w', p)
  {
  }

  lemma ReturnedOther(w: World, e: Event, u: World, p: Handle)
    requires Ended(w, e, u) && (e.Finish? || e.FinishGenerator?) && !EndsLast(e)
    requires w.frames[Top(w)].place.OnStack? && p in w.frames && p !in Gone(w, e) && p != Top(w)
    requires LetGoOf(w, e, p) ==> w.frames[p].kind.Plain?
    ensures w.frames[p].kind.Plain? ==> CoreFollows(w, e, Erase(u, Gone(w, e)), p)
    ensures w.frames[p].kind.Gen? ==> GenFollows(w, e, Erase(u, Gone(w, e)), p)
  {
    EndedLetGo(w, e, u, p);
    FinishThen(w, e, p);
    FinishActsOnTop(w, e, p);
    SurvivorIs(u, Gone(w, e), p, LetGoOf(w, e, p));
    OnlyIndirectly(w, e, Erase(u, Gone(w, e)), p);
  }

  lemma ReturnedTop(w: World, e: Event, u: World, p: Handle)
    requires Ended(w, e, u) && (e.Finish? || e.FinishGenerator?) && !EndsLast(e)
    requires w.frames[Top(w)].place.OnStack? && p !in Gone(w, e) && p == Top(w)
    requires LetGoOf(w, e, p) ==> w.frames[p].kind.Plain?
    ensures w.frames[p].kind.Plain? ==> CoreFollows(w, e, Erase(u, Gone(w, e)), p)
    ensures w.frames[p].kind.Gen? && u.frames[p].kind.Gen? ==> GenFollows(w, e, Erase(u, Gone(w, e)), p)
  {
    EndedLetGo(w, e, u, p);
    FinishThen(w, e, p);
    SurvivorIs(u, Gone(w, e), p, LetGoOf(w, e, p));
  }

  lemma FinishMoves(w: World, e: Event, w': World)
    requires (e.Finish? || e.FinishGenerator?) && w.stack != []
    requires w'.frames.Keys == w.frames.Keys - Gone(w, e) && w'.stack == w.stack[..|w.stack| - 1]
    requires forall f :: f in w'.frames ==>
               && w'.frames[f].place == (if f == Top(w) then AtEnd else w.frames[f].place)
               && w'.frames[f].owner == w.frames[f].owner && (w'.frames[f].kind.Plain? <==> w.frames[f].kind.Plain?)
    ensures Moved(w, e, w')
  {
    FinishStack(w, e);
    forall f | f in w'.frames
      ensures w'.frames[f].place == PlaceAfter(w, e, f) && w'.frames[f].owner == OwnerAfter(w, e, f)
    {
      FinishPlace(w, e, f);
    }
  }

  lemma ReturnedMoves(w: World, e: Event, u: World)
    requires Ended(w, e, u) && (e.Finish? || e.FinishGenerator?)
    ensures Moved(w, e, Erase(u, Gone(w, e)))
  {
    var w' := Erase(u, Gone(w, e));
    assert w'.frames.Keys == w.frames.Keys - Gone(w, e);
    assert forall f :: f in w'.frames ==>
             w'.frames[f].place == u.frames[f].place && w'.frames[f].owner == u.frames[f].owner
             && w'.frames[f].kind == u.frames[f].kind;
    FinishMoves(w, e, w');
  }

  lemma ReturnedQueue(w: World, e: Event, u: World)
    requires Ended(w, e, u) && (e.Finish? || e.FinishGenerator?) && !EndsLast(e)
    ensures QueueFollows(w, e, Erase(u, Gone(w, e)))
  {
    var asked, cancels := Asks(w, e), Cancels(Gone(w, e));
    var waiting := w.frames[Top(w)].core.waiting;
    ShortRuns(w.queue, if waiting.Some? then waiting.value else 0);
    assert w.queue + [] == w.queue && asked + cancels + [] == asked + cancels;
    SR.AfterAppend(SR.Deque(w.queue, {}), asked, cancels);
    CancelsRun(u.queue, Gone(w, e));
  }

  lemma ReturnedComposes(w: World, e: Event, u: World)
    requires PlacesOK(w) && Ended(w, e, u) && (e.Finish? || e.FinishGenerator?) && !EndsLast(e)
    requires w.frames[Top(w)].place.OnStack?
    ensures Composed(w, e, Erase(u, Gone(w, e)))
  {
    ReturnedMoves(w, e, u);
    ReturnedQueue(w, e, u);
    forall p | p in w.frames && p !in Gone(w, e)
      ensures w.frames[p].kind.Plain? ==> CoreFollows(w, e, Erase(u, Gone(w, e)), p)
      ensures w.frames[p].kind.Gen? && u.frames[p].kind.Gen? ==> GenFollows(w, e, Erase(u, Gone(w, e)), p)
    {
      if LetGoOf(w, e, p) {
        OnlyPlainAreLetGoOf(w, e, p);
      }
      if p == Top(w) {
        ReturnedTop(w, e, u, p);
      } else {
        ReturnedOther(w, e, u, p);
      }
    }
  }

  // ---- the end by an exception -------------------------------------------------------------------------

  /** Unwinding does not change what the end itself does, except to a core that has been let go of. */
  lemma UnwoundCore(w: World, e: Event, w': World, p: Handle)
    requires PlacesOK(w) && (e.Finish? || e.FinishGenerator?) && EndsLast(e) && w.stack != []
    requires p in w.frames && p !in Gone(w, e) && Top(w) !in Gone(w, e)
    requires Ended(Erase(w, Gone(w, e)), e, w')
    ensures w.frames[p].kind.Plain? ==> CoreFollows(w, e, w', p)
    ensures w.frames[p].kind.Gen? && w'.frames[p].kind.Gen? ==> GenFollows(w, e, w', p)
  {
    var v := Erase(w, Gone(w, e));
    FinishStack(w, e);
    ErasedCore(w, e, p);
    FinishThen(w, e, p);
    if p != Top(w) {
      FinishActsOnTop(w, e, p);
      assert w'.frames[p] == v.frames[p];
    } else {
      SameEnd(w, v, e);
    }
  }

  lemma SameEnd(w: World, v: World, e: Event)
    requires (e.Finish? || e.FinishGenerator?) && w.stack != [] && v.stack == w.stack
    requires Top(w) in w.frames && Top(w) in v.frames
    ensures Directly(v, e, Top(v)) == Directly(w, e, Top(w))
    ensures GeneratorDirectly(v, e, Top(v)) == GeneratorDirectly(w, e, Top(w))
  {
  }

  lemma UnwoundMoves(w: World, e: Event, w': World)
    requires (e.Finish? || e.FinishGenerator?) && w.stack != []
    requires Ended(Erase(w, Gone(w, e)), e, w')
    ensures Moved(w, e, w')
  {
    FinishMoves(w, e, w');
  }

  lemma UnwoundWaiter(w: World, e: Event)
    requires (e.Finish? || e.FinishGenerator?) && EndsLast(e) && Running(w) && CoreOK(w.frames[Top(w)])
    requires Top(w) !in Gone(w, e)
    ensures var waiting := Erase(w, Gone(w, e)).frames[Top(w)].core.waiting;
            WakeWaiter(w, e) == if waiting.None? then [] else [SR.Enqueue(waiting.value)]
  {
    assert Deselected(w, Gone(w, e), Top(w)) <==> LetGoOf(w, e, Top(w));
  }

  lemma UnwoundQueue(w: World, e: Event, w': World)
    requires (e.Finish? || e.FinishGenerator?) && EndsLast(e) && Running(w) && CoreOK(w.frames[Top(w)])
    requires Top(w) !in Gone(w, e) && Ended(Erase(w, Gone(w, e)), e, w')
    ensures QueueFollows(w, e, w')
  {
    var v := Erase(w, Gone(w, e));
    var asked, cancels := Asks(w, e), Cancels(Gone(w, e));
    var waiting := v.frames[Top(w)].core.waiting;
    UnwoundWaiter(w, e);
    ShortRuns(v.queue, if waiting.Some? then waiting.value else 0);
    assert v.queue + [] == v.queue;
    SR.AfterAppend(SR.Deque(w.queue, {}), cancels, asked);
    CancelsRun(w.queue, Gone(w, e));
  }

  lemma UnwoundComposes(w: World, e: Event, w': World)
    requires PlacesOK(w) && (e.Finish? || e.FinishGenerator?) && EndsLast(e) && Running(w) && CoreOK(w.frames[Top(w)])
    requires Top(w) !in Gone(w, e) && Ended(Erase(w, Gone(w, e)), e, w')
    ensures Composed(w, e, w')
  {
    UnwoundMoves(w, e, w');
    UnwoundQueue(w, e, w');
    forall p | p in w.frames && p !in Gone(w, e)
      ensures w.frames[p].kind.Plain? ==> CoreFollows(w, e, w', p)
      ensures w.frames[p].kind.Gen? && w'.frames[p].kind.Gen? ==> GenFollows(w, e, w', p)
    {
      UnwoundCore(w, e, w', p);
    }
  }

  lemma KidsExist(w: World, x: Handle)
    ensures Kids(w, x) <= w.frames.Keys
  {
  }

  lemma FinishComposes(w: World, o: Outcome<Value>, locals: set<Handle>)
    requires Inv(w) && Enabled(w, Finish(o, locals))
    ensures Composed(w, Finish(o, locals), Concluded(w, o, locals))
  {
    var e := Finish(o, locals);
    TopIsReady(w);
    KidsExist(w, Top(w));
    if o.Thrown? {
      InvIsSettled(w);
      AllDoomedAreResidents(w, locals);
      RecursiveDestructionErasesAll(w, locals, {});
      EndsIsEnded(Erase(w, Gone(w, e)), o, locals);
      UnwoundComposes(w, e, Ends(Erase(w, Gone(w, e)), o));
    } else {
      var u := Ends(w, o);
      EndsKeeps(w, o);
      InvIsSettled(u);
      EndsIsEnded(w, o, locals);
      EndedResidents(w, e, u, locals);
      AllDoomedAreResidents(u, locals);
      RecursiveDestructionErasesAll(u, locals, {});
      ReturnedComposes(w, e, u);
    }
  }

  lemma FinishGeneratorComposes(w: World, error: Option<Exception>, locals: set<Handle>)
    requires Inv(w) && Enabled(w, FinishGenerator(error, locals))
    ensures Composed(w, FinishGenerator(error, locals), ConcludedGenerator(w, error, locals))
  {
    var e := FinishGenerator(error, locals);
    TopIsReady(w);
    KidsExist(w, Top(w));
    if error.Some? {
      InvIsSettled(w);
      AllDoomedAreResidents(w, locals);
      RecursiveDestructionErasesAll(w, locals, {});
      ErasedIsGenerator(w, e);
      EndsGeneratorIsEnded(Erase(w, Gone(w, e)), error, locals);
      UnwoundComposes(w, e, EndsGenerator(Erase(w, Gone(w, e)), error));
    } else {
      var u := EndsGenerator(w, error);
      EndsGeneratorKeeps(w, error);
      InvIsSettled(u);
      EndsGeneratorIsEnded(w, error, locals);
      EndedResidents(w, e, u, locals);
      AllDoomedAreResidents(u, locals);
      RecursiveDestructionErasesAll(u, locals, {});
      ReturnedComposes(w, e, u);
    }
  }

  lemma ErasedIsGenerator(w: World, e: Event)
    requires Running(w) && Top(w) !in Gone(w, e)
    ensures var v := Erase(w, Gone(w, e)); Running(v) && v.frames[Top(v)].kind == w.frames[Top(w)].kind
  {
  }

  // ---- every event -----------------------------------------------------------------------------------

  lemma AwaitComposes(w: World, p: Handle)
    requires Inv(w) && Enabled(w, Await(p))
    ensures Composed(w, Await(p), Step(w, Await(p)))
  {
    var core := w.frames[p].core;
    assert CoreOK(w.frames[p]);
    if core.Ready() {
      AwaitReadyComposes(w, p);
    } else if core.phase.Init? {
      AwaitRegisters(w, p);
      AwaitHalfWay(w, p);
      NextComposes(w, Await(p), Leave(SetCore(w, p, Core(WaitedOn, Some(Top(w)), core.slot)), AtPromise(p)));
    } else {
      AwaitStaleComposes(w, p);
    }
  }

  lemma AwaitGeneratorComposes(w: World, g: Handle)
    requires Inv(w) && Enabled(w, AwaitGenerator(g))
    ensures Composed(w, AwaitGenerator(g), Step(w, AwaitGenerator(g)))
  {
    if AwaitReady(w.frames[g].AsGen()) {
      AwaitGeneratorReadyComposes(w, g);
    } else {
      TopIsReady(w);
      assert CoreOK(w.frames[g]);
      AwaitGeneratorSuspends(w, g);
      SuspensionKeeps(w, AwaitedGenerator(w, g), {g});
      AwaitGeneratorHalfWay(w, g);
      NextComposes(w, AwaitGenerator(g), AwaitedGenerator(w, g));
    }
  }

  lemma SelectedComposes(w: World, ps: seq<Handle>)
    requires Inv(w) && Running(w) && Selectable(w, ps)
    ensures Composed(w, Select(ps), RunNext(Selected(w, ps)))
  {
    TopIsReady(w);
    SelectSuspends(w, ps);
    SuspensionKeeps(w, Selected(w, ps), RuntimeInvariant.Joined(w, ps));
    SelectHalfWay(w, ps);
    NextComposes(w, Select(ps), Selected(w, ps));
  }

  lemma SelectComposes(w: World, ps: seq<Handle>)
    requires Inv(w) && Enabled(w, Select(ps))
    ensures Composed(w, Select(ps), Step(w, Select(ps)))
  {
    if exists p :: p in ps && w.frames[p].core.Ready() {
      SelectReadyComposes(w, ps);
    } else {
      assert forall p :: p in ps ==> CoreOK(w.frames[p]);
      SelectedComposes(w, ps);
    }
  }

  lemma HandedOnComposes(w: World)
    requires Inv(w) && Running(w)
    ensures Composed(w, WaitExternally(true), RunNext(Leave(w, AtExternal(true))))
  {
    WaitKeeps(w);
    WaitHalfWay(w);
    NextComposes(w, WaitExternally(true), Leave(w, AtExternal(true)));
  }

  lemma WaitSteps(w: World)
    requires Running(w)
    ensures Step(w, WaitExternally(true)) == RunNext(Leave(w, AtExternal(true)))
    ensures Step(w, WaitExternally(false)) == Leave(w, AtExternal(true))
  {
  }

  lemma WaitExternallyComposes(w: World, handoff: bool)
    requires Inv(w) && Running(w)
    ensures Composed(w, WaitExternally(handoff), Step(w, WaitExternally(handoff)))
  {
    WaitSteps(w);
    if handoff {
      HandedOnComposes(w);
      assert WaitExternally(handoff) == WaitExternally(true);
    } else {
      WaitComposes(w);
      assert WaitExternally(handoff) == WaitExternally(false);
    }
  }

  lemma LoopComposes(w: World)
    requires Inv(w) && w.stack == []
    ensures Composed(w, Loop, Step(w, Loop))
  {
    LoopHalfWay(w);
    NextComposes(w, Loop, w);
  }

  lemma SuspendingComposes(w: World, e: Event)
    requires Inv(w) && Enabled(w, e)
    requires e.Await? || e.AwaitGenerator? || e.Select? || e.WaitExternally? || e.Loop?
    ensures Composed(w, e, Step(w, e))
  {
    match e
    case Await(p) => AwaitComposes(w, p);
    case AwaitGenerator(g) => AwaitGeneratorComposes(w, g);
    case Select(ps) => SelectComposes(w, ps);
    case WaitExternally(handoff) => WaitExternallyComposes(w, handoff);
    case Loop => LoopComposes(w);
  }

  lemma DroppingComposes(w: World, e: Event)
    requires Inv(w) && Enabled(w, e) && (e.Drop? || e.Overwrite?)
    ensures Composed(w, e, Step(w, e))
  {
    if e.Drop? {
      DropComposes(w, e, e.p, DestroysLazily(w.frames[e.p]));
    } else {
      DropComposes(w, e, e.p, true);
    }
  }

  lemma EndingComposes(w: World, e: Event)
    requires Inv(w) && Enabled(w, e) && (e.Finish? || e.FinishGenerator?)
    ensures Composed(w, e, Step(w, e))
  {
    if e.Finish? {
      FinishComposes(w, e.o, e.locals);
    } else {
      FinishGeneratorComposes(w, e.error, e.locals);
    }
  }

  lemma ChannelComposes(w: World, e: Event)
    requires Inv(w) && Enabled(w, e) && (e.Put? || e.PutResumed? || e.Get? || e.GetResumed?)
    ensures Composed(w, e, Step(w, e))
  {
    match e
    case Put(c, item) => PutComposes(w, c, item);
    case PutResumed(c, item) => PutComposes(w, c, item);
    case Get(c) => GetComposes(w, c);
    case GetResumed(c) => GetComposes(w, c);
  }

  lemma DropSetStepComposes(w: World, ps: seq<Handle>)
    requires Inv(w) && Enabled(w, DropSet(ps))
    ensures Composed(w, DropSet(ps), Step(w, DropSet(ps)))
  {
    assert forall p :: p in ps ==> CoreOK(w.frames[p]);
    DropSetComposes(w, ps);
  }

  lemma YieldingComposes(w: World, e: Event)
    requires Inv(w) && Enabled(w, e) && (e.Yield? || e.CoYield? || e.Callback?)
    ensures Composed(w, e, Step(w, e))
  {
    match e
    case Yield => YieldComposes(w);
    case CoYield(v) => CoYieldComposes(w, v);
    case Callback(h) => CallbackComposes(w, h);
  }

  lemma OtherComposes(w: World, e: Event)
    requires Inv(w) && Enabled(w, e) && (e.Start? || e.Unwrap? || e.Move?)
    ensures Composed(w, e, Step(w, e))
  {
    match e
    case Start(n, generator, args) => StartComposes(w, n, generator, args);
    case Unwrap(p) => UnwrapComposes(w, p);
    case Move(p, to) => MoveComposes(w, p, to);
  }

  /** Every event does to the parts of the runtime what it means for them. */
  lemma StepComposes(w: World, e: Event)
    requires Inv(w) && Enabled(w, e)
    ensures Composed(w, e, Step(w, e))
  {
    if e.Await? || e.AwaitGenerator? || e.Select? || e.WaitExternally? || e.Loop? {
      SuspendingComposes(w, e);
    } else if e.Drop? || e.Overwrite? {
      DroppingComposes(w, e);
    } else if e.Finish? || e.FinishGenerator? {
      EndingComposes(w, e);
    } else if e.Put? || e.PutResumed? || e.Get? || e.GetResumed? {
      ChannelComposes(w, e);
    } else if e.DropSet? {
      DropSetStepComposes(w, e.ps);
    } else if e.Yield? || e.CoYield? || e.Callback? {
      YieldingComposes(w, e);
    } else {
      OtherComposes(w, e);
    }
  }
}
