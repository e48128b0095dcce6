/** Dropping promises, and all runs: the invariant holds in every reachable world. */
module RuntimeSafety {
  import opened Wrappers
  import opened Schedulers
  import opened Cores
  import opened Generators
  import opened Channels
  import opened Runtime
  import opened Destruction
  import opened RuntimeInvariant
  import opened RuntimeSteps

  // ---- dropping -------------------------------------------------------------------------------------

  lemma InvIsSettled(w: World)
    requires Inv(w)
    ensures Settled(w)
  {
    forall f | f in w.frames && w.frames[f].core.phase.Finished?
      ensures Occ(w.queue, f) == 0
    {
      assert CoreOK(w.frames[f]) && PlaceOK(w, f);
    }
  }

  /** A member of a doomed select set is waited for by that set, or over. */
  lemma DeselectedIsNotWaitedFor(w: World, doomed: set<Handle>, p: Handle, f: Handle)
    requires PlacesOK(w) && CoresOK(w) && p in w.frames && Deselected(w, doomed, p)
    requires f in doomed && f in w.frames ==> !w.frames[f].place.AtSelect?
    ensures w.frames[p].core.waiting != Some(f)
  {
    var g :| g in doomed && g in w.frames && w.frames[g].place.AtSelect? && p in w.frames[g].place.ps;
    assert PlaceOK(w, g) && CoreOK(w.frames[p]);
  }

  lemma ErasedPlace(w: World, doomed: set<Handle>, f: Handle)
    requires f in w.frames && PlaceOK(w, f) && Unreferenced(w, doomed) && f !in doomed
    requires forall p :: p in w.frames && Deselected(w, doomed, p) ==> w.frames[p].core.waiting != Some(f)
    ensures PlaceOK(Erase(w, doomed), f)
  {
    var w' := Erase(w, doomed);
    OccCancelAll(w.queue, doomed, f);
    forall p | p in w.frames && Borrows(w, f, p)
      ensures Remains(w, w', p) && Registrations(w', p, f) == Registrations(w, p, f)
    {
      assert p !in doomed;
      assert w'.frames[p] == Survivor(w, doomed, p);
    }
    match w.frames[f].place
    case AtChannel(c, side) =>
      OccCancelAll(Ring(w.chans[c], side), doomed, f);
      assert Ring(w'.chans[c], side) == CancelAll(Ring(w.chans[c], side), doomed);
    case _ =>
    PlaceKept(w, w', f);
  }

  lemma ErasedFrame(w: World, doomed: set<Handle>, f: Handle)
    requires Closed(w, doomed) && f in w.frames && f !in doomed
    requires CoreOK(w.frames[f]) && OwnerOK(w, f)
    ensures CoreOK(Erase(w, doomed).frames[f]) && OwnerOK(Erase(w, doomed), f)
  {
  }

  lemma ErasedWaiter(w: World, doomed: set<Handle>, p: Handle)
    requires Inv(w) && NoneLeftBehind(w, doomed) && p in w.frames && p !in doomed
    ensures WaiterOK(Erase(w, doomed), p)
  {
    var w' := Erase(w, doomed);
    assert WaiterOK(w, p) && w'.frames[p] == Survivor(w, doomed, p);
    if w.frames[p].core.waiting.Some? {
      var h := w.frames[p].core.waiting.value;
      assert CoreOK(w.frames[p]) && PlaceOK(w, h);
      if h in doomed {
        assert w.frames[h].place.AtSelect? && p in w.frames[h].place.ps;
        assert Deselected(w, doomed, p);
      } else {
        assert w'.frames[h].place == w.frames[h].place;
      }
    }
  }

  lemma ErasedEntries(w: World, doomed: set<Handle>)
    requires EntriesOK(w) && StackOK(w) && forall f :: f in w.stack ==> f !in doomed
    ensures EntriesOK(Erase(w, doomed)) && StackOK(Erase(w, doomed))
  {
    var w' := Erase(w, doomed);
    forall c, side, h | c in w'.chans && Some(h) in Ring(w'.chans[c], side)
      ensures h in w'.frames && w'.frames[h].place == AtChannel(c, side)
    {
      assert Ring(w'.chans[c], side) == CancelAll(Ring(w.chans[c], side), doomed);
      assert Some(h) in Ring(w.chans[c], side) && h !in doomed;
    }
    forall i | 0 <= i < |w'.stack|
      ensures w'.stack[i] in w'.frames && w'.frames[w'.stack[i]].place.OnStack?
    {
      assert w.stack[i] in w.stack;
    }
  }

  lemma EraseKeeps(w: World, doomed: set<Handle>)
    requires Inv(w) && Closed(w, doomed) && Droppable(w, doomed)
    ensures Inv(Erase(w, doomed))
  {
    var w' := Erase(w, doomed);
    ErasedEntries(w, doomed);
    forall f | f in w'.frames
      ensures CoreOK(w'.frames[f]) && OwnerOK(w', f) && WaiterOK(w', f) && PlaceOK(w', f)
    {
      assert CoreOK(w.frames[f]) && OwnerOK(w, f) && PlaceOK(w, f);
      ErasedFrame(w, doomed, f);
      ErasedWaiter(w, doomed, f);
      forall p | p in w.frames && Deselected(w, doomed, p)
        ensures w.frames[p].core.waiting != Some(f)
      {
        DeselectedIsNotWaitedFor(w, doomed, p, f);
      }
      ErasedPlace(w, doomed, f);
    }
  }

  /** A doomed coroutine that is registered with a survivor by a plain co_await stays registered. */
  lemma LeftWaiting(w: World, doomed: set<Handle>, f: Handle, p: Handle)
    requires Inv(w) && f in doomed && f in w.frames && p in w.frames && p !in doomed
    requires w.frames[p].core.waiting == Some(f) && !w.frames[f].place.AtSelect?
    ensures p in Erase(w, doomed).frames && Erase(w, doomed).frames[p].core == w.frames[p].core
    ensures f !in Erase(w, doomed).frames
  {
    if Deselected(w, doomed, p) {
      DeselectedIsNotWaitedFor(w, doomed, p, f);
    }
  }

  /** A survivor that refers to a doomed promise is left with a dangling reference. */
  lemma StillReferred(w: World, doomed: set<Handle>, f: Handle, p: Handle)
    requires f in w.frames && f !in doomed && p in doomed && Borrows(w, f, p)
    ensures !PlacesOK(Erase(w, doomed))
  {
    assert !PlaceOK(Erase(w, doomed), f);
  }

  lemma StillRunning(w: World, doomed: set<Handle>, f: Handle)
    requires f in w.stack && f in doomed
    ensures !StackOK(Erase(w, doomed))
  {
    var i :| 0 <= i < |w.stack| && w.stack[i] == f;
    assert Erase(w, doomed).stack[i] !in Erase(w, doomed).frames;
  }

  /** Erasing frames with all that they own is safe if and only if nothing that survives refers to
      them, none of them is on the stack of nested coroutines, and none of them is registered with a
      survivor by a plain co_await. */
  lemma EraseIsSafeExactly(w: World, doomed: set<Handle>)
    requires Inv(w) && Closed(w, doomed)
    ensures Inv(Erase(w, doomed)) <==> Droppable(w, doomed)
  {
    if Droppable(w, doomed) {
      EraseKeeps(w, doomed);
    } else if !NoneLeftBehind(w, doomed) {
      var f, q :| f in doomed && f in w.frames && q in w.frames && q !in doomed
                  && w.frames[q].core.waiting == Some(f) && !w.frames[f].place.AtSelect?;
      LeftWaiting(w, doomed, f, q);
      assert !WaiterOK(Erase(w, doomed), q);
    } else if f :| f in w.stack && f in doomed {
      StillRunning(w, doomed, f);
    } else {
      var f, q :| f in w.frames && f !in doomed && q in doomed && Borrows(w, f, q);
      StillReferred(w, doomed, f, q);
    }
  }

  /** The guard of an event that drops a promise is exactly what is needed ... */
  lemma DropIsSafeExactly(w: World, p: Handle, lazily: bool)
    requires Inv(w) && p in w.frames
    ensures Inv(Destroy(w, p, lazily)) <==> Droppable(w, Doomed(w, p, lazily))
  {
    InvIsSettled(w);
    RecursiveDestructionErases(w, p, lazily, {});
    EraseIsSafeExactly(w, Doomed(w, p, lazily));
  }

  /** ... and so is that of an event that destroys the locals of a coroutine. */
  lemma DestroyAllIsSafeExactly(w: World, s: set<Handle>)
    requires Inv(w)
    ensures Inv(DestroyAll(w, s)) <==> Droppable(w, DoomedAll(w, s))
  {
    InvIsSettled(w);
    RecursiveDestructionErasesAll(w, s, {});
    EraseIsSafeExactly(w, DoomedAll(w, s));
  }

  // ---- one step ---------------------------------------------------------------------------------------

  lemma StartReowns(w: World, n: Handle, generator: bool, args: set<Handle>)
    requires StackOK(w) && OwnersOK(w) && n !in w.frames && (w.stack == [] || Running(w))
    ensures Reowned(w, Started(w, n, generator, args), {n})
  {
    var w' := Started(w, n, generator, args);
    assert w'.stack[|w.stack|] == n;
    assert forall i :: 0 <= i < |w.stack| ==> w'.stack[i] == w.stack[i];
    forall f | f in w'.frames
      ensures OwnerOK(w', f)
    {
      assert f in w.frames ==> OwnerOK(w, f);
    }
  }

  lemma MoveReowns(w: World, p: Handle, to: Option<Handle>)
    requires StackOK(w) && OwnersOK(w) && p in w.frames && (to.Some? ==> to.value in w.frames)
    ensures Reowned(w, MovedTo(w, p, to), {})
  {
    var w' := MovedTo(w, p, to);
    forall f | f in w'.frames
      ensures OwnerOK(w', f)
    {
      assert OwnerOK(w, f);
    }
  }

  lemma FetchKeeps(w: World, p: Handle, core: Core<Value>)
    requires Inv(w) && p in w.frames
    requires core == w.frames[p].core || core == AfterFetch(w.frames[p].core)
    ensures Inv(SetCore(w, p, core))
  {
    SlotsEmptiedKeeps(w, SetCore(w, p, core));
  }

  lemma WaitKeeps(w: World)
    requires Inv(w) && Running(w)
    ensures Inv(Leave(w, AtExternal(true)))
    ensures Inv(Enqueued(Leave(w, AtExternal(false)), [Some(Top(w))]))
  {
    TopIsReady(w);
    WaitSuspends(w);
    YieldSuspends(w);
    SuspensionKeeps(w, Leave(w, AtExternal(true)), {});
    SuspensionKeeps(w, Enqueued(Leave(w, AtExternal(false)), [Some(Top(w))]), {});
  }

  lemma YieldsKeeps(w: World, v: Value)
    requires Inv(w) && Running(w) && w.frames[Top(w)].kind.Gen?
    ensures Inv(Yields(w, v))
  {
    TopIsReady(w);
    YieldsCompletes(w, v);
    CompletionKeeps(w, Yields(w, v));
  }

  lemma AwaitStepKeeps(w: World, p: Handle)
    requires Inv(w) && Enabled(w, Await(p))
    ensures Inv(Step(w, Await(p)))
  {
    var core := w.frames[p].core;
    if core.Ready() {
      FetchKeeps(w, p, AfterFetch(core));
    } else if core.phase.Init? {
      AwaitRegisters(w, p);
      RunNextKeeps(Leave(SetCore(w, p, Core(WaitedOn, Some(Top(w)), core.slot)), AtPromise(p)));
    }
  }

  lemma AwaitRegisters(w: World, p: Handle)
    requires Inv(w) && Running(w) && Free(w, p) && w.frames[p].kind.Plain? && w.frames[p].core.phase.Init?
    ensures Inv(Leave(SetCore(w, p, Core(WaitedOn, Some(Top(w)), w.frames[p].core.slot)), AtPromise(p)))
  {
    TopIsReady(w);
    assert CoreOK(w.frames[p]);
    AwaitSuspends(w, p);
    SuspensionKeeps(w, Leave(SetCore(w, p, Core(WaitedOn, Some(Top(w)), w.frames[p].core.slot)), AtPromise(p)), {p});
  }

  lemma AwaitGeneratorStepKeeps(w: World, g: Handle)
    requires Inv(w) && Enabled(w, AwaitGenerator(g))
    ensures Inv(Step(w, AwaitGenerator(g)))
  {
    var gen := w.frames[g].AsGen();
    if AwaitReady(gen) {
      SlotsEmptiedKeeps(w, Step(w, AwaitGenerator(g)));
    } else {
      TopIsReady(w);
      assert CoreOK(w.frames[g]);
      AwaitGeneratorSuspends(w, g);
      SuspensionKeeps(w, AwaitedGenerator(w, g), {g});
      RunNextKeeps(AwaitedGenerator(w, g));
    }
  }

  lemma SelectStepKeeps(w: World, ps: seq<Handle>)
    requires Inv(w) && Enabled(w, Select(ps))
    ensures Inv(Step(w, Select(ps)))
  {
    if exists p :: p in ps && w.frames[p].core.Ready() {
      ReleaseIdle(w, ps);
    } else {
      TopIsReady(w);
      assert forall p :: p in ps ==> CoreOK(w.frames[p]);
      SelectSuspends(w, ps);
      SuspensionKeeps(w, Selected(w, ps), Joined(w, ps));
      RunNextKeeps(Selected(w, ps));
    }
  }

  /** Releasing promises that nobody awaits changes nothing. */
  lemma ReleaseIdle(w: World, ps: seq<Handle>)
    requires CoresOK(w) && forall p :: p in ps ==> Free(w, p)
    ensures Release(w, ps) == w
  {
    forall f | f in w.frames
      ensures Release(w, ps).frames[f] == w.frames[f]
    {
      assert CoreOK(w.frames[f]);
    }
    assert Release(w, ps).frames == w.frames;
  }

  lemma WaitOnChannelKeeps(w: World, c: nat, side: Side)
    requires Inv(w) && Running(w) && c in w.chans
    ensures Inv(WaitOnChannel(w, c, side))
  {
    TopIsReady(w);
    ChannelSuspends(w, c, side);
    SuspensionKeeps(w, WaitOnChannel(w, c, side), {});
  }

  lemma PutItemKeeps(w: World, c: nat, item: Value)
    requires Inv(w) && c in w.chans
    ensures Inv(PutItem(w, c, item))
  {
    PutWakes(w, c, item);
    WakingKeeps(w, PutItem(w, c, item), c, Reader);
  }

  lemma GetItemKeeps(w: World, c: nat)
    requires Inv(w) && c in w.chans && w.chans[c].items != []
    ensures Inv(GetItem(w, c))
  {
    GetWakes(w, c);
    WakingKeeps(w, GetItem(w, c), c, Writer);
  }

  lemma PutStepKeeps(w: World, e: Event)
    requires Inv(w) && Enabled(w, e) && (e.Put? || e.PutResumed?)
    ensures Inv(Step(w, e))
  {
    if |w.chans[e.c].items| < w.chans[e.c].capacity {
      PutItemKeeps(w, e.c, e.item);
    } else {
      WaitOnChannelKeeps(w, e.c, Writer);
    }
  }

  lemma GetStepKeeps(w: World, e: Event)
    requires Inv(w) && Enabled(w, e) && (e.Get? || e.GetResumed?)
    ensures Inv(Step(w, e))
  {
    if w.chans[e.c].items != [] {
      GetItemKeeps(w, e.c);
    } else {
      WaitOnChannelKeeps(w, e.c, Reader);
    }
  }

  lemma PutWakes(w: World, c: nat, item: Value)
    requires c in w.chans
    ensures Waking(w, PutItem(w, c, item), c, Reader)
  {
  }

  lemma GetWakes(w: World, c: nat)
    requires c in w.chans && w.chans[c].items != []
    ensures Waking(w, GetItem(w, c), c, Writer)
  {
  }

  lemma YieldsCompletes(w: World, v: Value)
    requires TopReady(w) && w.frames[Top(w)].kind.Gen?
    ensures Completion(w, Yields(w, v))
  {
  }

  lemma EndsCompletes(w: World, o: Outcome<Value>)
    requires TopReady(w) && w.frames[Top(w)].kind.Plain?
    ensures Completion(w, Ends(w, o))
  {
  }

  lemma EndsGeneratorCompletes(w: World, error: Option<Exception>)
    requires TopReady(w) && w.frames[Top(w)].kind.Gen?
    ensures Completion(w, EndsGenerator(w, error))
  {
  }

  /** The last thing a coroutine does is to store its outcome and to wake its waiter. */
  lemma EndsKeeps(w: World, o: Outcome<Value>)
    requires Inv(w) && Running(w) && w.frames[Top(w)].kind.Plain?
    ensures Inv(Ends(w, o))
  {
    TopIsReady(w);
    EndsCompletes(w, o);
    CompletionKeeps(w, Ends(w, o));
  }

  lemma EndsGeneratorKeeps(w: World, error: Option<Exception>)
    requires Inv(w) && Running(w) && w.frames[Top(w)].kind.Gen?
    ensures Inv(EndsGenerator(w, error))
  {
    TopIsReady(w);
    EndsGeneratorCompletes(w, error);
    CompletionKeeps(w, EndsGenerator(w, error));
  }

  /** `v` is what `u` becomes when the running coroutine stores its outcome. */
  ghost predicate Stores(u: World, v: World) {
    && Running(u) && v.frames.Keys == u.frames.Keys
    && (forall f :: f in u.frames && f != Top(u) ==> v.frames[f] == u.frames[f])
    && v.queue == u.queue + Wakes(u.frames[Top(u)].core)
    && v.stack == u.stack[..|u.stack| - 1]
  }

  lemma StoringLeavesHandle(w: World, doomed: set<Handle>, v: World, f: Handle, p: Handle)
    requires Inv(w) && Running(w) && Top(w) !in doomed && Stores(Erase(w, doomed), v)
    requires f in doomed && f in w.frames && p in w.frames && p !in doomed
    requires w.frames[p].core.waiting == Some(f) && !w.frames[f].place.AtSelect?
    ensures !Inv(v)
  {
    LeftWaiting(w, doomed, f, p);
    var u := Erase(w, doomed);
    if p == Top(w) {
      assert v.queue == u.queue + [Some(f)];
      assert v.queue[|u.queue|] == Some(f);
      assert !EntriesOK(v);
    } else {
      assert !WaiterOK(v, p);
    }
  }

  lemma StoringLeavesStack(w: World, doomed: set<Handle>, v: World, f: Handle)
    requires StackOK(w) && Running(w) && Top(w) !in doomed && Stores(Erase(w, doomed), v)
    requires f in w.stack && f in doomed
    ensures !StackOK(v)
  {
    var i :| 0 <= i < |w.stack| && w.stack[i] == f;
    assert v.stack[i] == f && f !in v.frames;
  }

  lemma StoringLeavesReference(w: World, doomed: set<Handle>, v: World, f: Handle, p: Handle)
    requires StackOK(w) && Running(w) && Top(w) !in doomed && Stores(Erase(w, doomed), v)
    requires f in w.frames && f !in doomed && p in doomed && Borrows(w, f, p)
    ensures !PlacesOK(v)
  {
    assert w.frames[w.stack[|w.stack| - 1]].place.OnStack?;
    assert v.frames[f].place == w.frames[f].place;
    assert !PlaceOK(v, f);
  }

  /** What the destruction of the locals leaves dangling, storing the outcome does not mend: if the
      handle is in the running coroutine's own core, it is now scheduled. */
  lemma StoringMendsNothing(w: World, doomed: set<Handle>, v: World)
    requires Inv(w) && Running(w) && Top(w) !in doomed && Stores(Erase(w, doomed), v) && !Droppable(w, doomed)
    ensures !Inv(v)
  {
    if !NoneLeftBehind(w, doomed) {
      var f, q :| f in doomed && f in w.frames && q in w.frames && q !in doomed
                  && w.frames[q].core.waiting == Some(f) && !w.frames[f].place.AtSelect?;
      StoringLeavesHandle(w, doomed, v, f, q);
    } else if f :| f in w.stack && f in doomed {
      StoringLeavesStack(w, doomed, v, f);
    } else {
      var f, q :| f in w.frames && f !in doomed && q in doomed && Borrows(w, f, q);
      StoringLeavesReference(w, doomed, v, f, q);
    }
  }

  /** The end of a coroutine is safe if and only if the destruction of its locals is, which happens
      before the outcome is stored if an exception has unwound it, and afterwards if it has returned. */
  lemma FinishIsSafeExactly(w: World, o: Outcome<Value>, locals: set<Handle>)
    requires Inv(w) && Running(w) && w.frames[Top(w)].kind.Plain?
    requires o.Thrown? ==> Top(w) !in DoomedAll(w, locals)
    ensures var dying := if o.Thrown? then w else Ends(w, o);
            Inv(Concluded(w, o, locals)) <==> Droppable(dying, DoomedAll(dying, locals))
  {
    if o.Thrown? {
      DestroyAllIsSafeExactly(w, locals);
      if Droppable(w, DoomedAll(w, locals)) {
        EndsKeeps(DestroyAll(w, locals), o);
      } else {
        InvIsSettled(w);
        RecursiveDestructionErasesAll(w, locals, {});
        StoringMendsNothing(w, DoomedAll(w, locals), Concluded(w, o, locals));
      }
    } else {
      EndsKeeps(w, o);
      DestroyAllIsSafeExactly(Ends(w, o), locals);
    }
  }

  lemma FinishGeneratorIsSafeExactly(w: World, error: Option<Exception>, locals: set<Handle>)
    requires Inv(w) && Running(w) && w.frames[Top(w)].kind.Gen?
    requires error.Some? ==> Top(w) !in DoomedAll(w, locals)
    ensures var dying := if error.Some? then w else EndsGenerator(w, error);
            Inv(ConcludedGenerator(w, error, locals)) <==> Droppable(dying, DoomedAll(dying, locals))
  {
    if error.Some? {
      DestroyAllIsSafeExactly(w, locals);
      if Droppable(w, DoomedAll(w, locals)) {
        EndsGeneratorKeeps(DestroyAll(w, locals), error);
      } else {
        InvIsSettled(w);
        RecursiveDestructionErasesAll(w, locals, {});
        StoringMendsNothing(w, DoomedAll(w, locals), ConcludedGenerator(w, error, locals));
      }
    } else {
      EndsGeneratorKeeps(w, error);
      DestroyAllIsSafeExactly(EndsGenerator(w, error), locals);
    }
  }

  lemma FinishKeeps(w: World, e: Event)
    requires Inv(w) && Enabled(w, e) && (e.Finish? || e.FinishGenerator?)
    ensures Inv(Step(w, e))
  {
    if e.Finish? {
      FinishIsSafeExactly(w, e.o, e.locals);
    } else {
      FinishGeneratorIsSafeExactly(w, e.error, e.locals);
    }
  }

  lemma OwnershipStepKeeps(w: World, e: Event)
    requires Inv(w) && Enabled(w, e) && (e.Start? || e.Move?)
    ensures Inv(Step(w, e))
  {
    match e
    case Start(n, generator, args) =>
      StartReowns(w, n, generator, args);
      ReownedKeeps(w, Step(w, e), {n});
    case Move(p, to) =>
      MoveReowns(w, p, to);
      ReownedKeeps(w, Step(w, e), {});
  }

  lemma OtherStepKeeps(w: World, e: Event)
    requires Inv(w) && Enabled(w, e)
    requires e.Unwrap? || e.Yield? || e.WaitExternally? || e.CoYield? || e.Callback?
    ensures Inv(Step(w, e))
  {
    match e
    case Unwrap(p) => FetchKeeps(w, p, AfterUnwrap(w.frames[p].core));
    case Yield => WaitKeeps(w);
    case WaitExternally(handoff) =>
      WaitKeeps(w);
      RunNextKeeps(Leave(w, AtExternal(true)));
    case CoYield(v) => YieldsKeeps(w, v);
    case Callback(h) => CallbackKeeps(w, h);
  }

  lemma AwaitingStepKeeps(w: World, e: Event)
    requires Inv(w) && Enabled(w, e) && (e.Await? || e.AwaitGenerator? || e.Select? || e.Loop?)
    ensures Inv(Step(w, e))
  {
    match e
    case Await(p) => AwaitStepKeeps(w, p);
    case AwaitGenerator(g) => AwaitGeneratorStepKeeps(w, g);
    case Select(ps) => SelectStepKeeps(w, ps);
    case Loop => RunNextKeeps(w);
  }

  lemma DropStepKeeps(w: World, e: Event)
    requires Inv(w) && Enabled(w, e) && (e.Drop? || e.Overwrite?)
    ensures Inv(Step(w, e))
  {
    DropIsSafeExactly(w, e.p, if e.Drop? then DestroysLazily(w.frames[e.p]) else true);
  }

  lemma UnawaitedSetKeeps(w: World, ps: seq<Handle>)
    requires CoresOK(w) && forall p :: p in ps && p in w.frames ==> !w.frames[p].core.IsAwaited()
    ensures SetDropped(w, ps) == w
  {
    forall f | f in w.frames
      ensures SetDropped(w, ps).frames[f] == w.frames[f]
    {
      assert CoreOK(w.frames[f]);
    }
    assert SetDropped(w, ps).frames == w.frames;
  }

  lemma AwaitedSetForgets(w: World, ps: seq<Handle>, p: Handle)
    requires Inv(w) && p in ps && p in w.frames && w.frames[p].core.IsAwaited()
    ensures !Inv(SetDropped(w, ps))
  {
    var w', f := SetDropped(w, ps), w.frames[p].core.waiting.value;
    assert WaiterOK(w, p) && CoreOK(w.frames[p]) && PlaceOK(w, f);
    assert w'.frames[p].core.waiting == None && w'.queue == w.queue && w'.frames[f].place == w.frames[f].place;
    assert !PlaceOK(w', f);
  }

  /** Destroying a select set that has never been awaited is safe if and only if nobody else awaits one
      of its members: it would never be woken. */
  lemma SetDropIsSafeExactly(w: World, ps: seq<Handle>)
    requires Inv(w)
    ensures Inv(SetDropped(w, ps)) <==> forall p :: p in ps && p in w.frames ==> !w.frames[p].core.IsAwaited()
  {
    if p :| p in ps && p in w.frames && w.frames[p].core.IsAwaited() {
      AwaitedSetForgets(w, ps, p);
    } else {
      UnawaitedSetKeeps(w, ps);
    }
  }

  lemma StepKeeps(w: World, e: Event)
    requires Inv(w) && Enabled(w, e)
    ensures Inv(Step(w, e))
  {
    if e.Await? || e.AwaitGenerator? || e.Select? || e.Loop? {
      AwaitingStepKeeps(w, e);
    } else if e.Finish? || e.FinishGenerator? {
      FinishKeeps(w, e);
    } else if e.Drop? || e.Overwrite? {
      DropStepKeeps(w, e);
    } else if e.Put? || e.PutResumed? {
      PutStepKeeps(w, e);
    } else if e.Get? || e.GetResumed? {
      GetStepKeeps(w, e);
    } else if e.Start? || e.Move? {
      OwnershipStepKeeps(w, e);
    } else if e.DropSet? {
      SetDropIsSafeExactly(w, e.ps);
    } else {
      OtherStepKeeps(w, e);
    }
  }

  /** Channels in which nobody waits yet. */
  predicate Fresh(chans: map<nat, Chan<Value>>) {
    forall c :: c in chans ==> chans[c].readers == [] && chans[c].writers == []
  }

  lemma {:induction false} EveryRunIsSafe(chans: map<nat, Chan<Value>>, events: seq<Event>, w: World)
    requires Fresh(chans) && Reaches(Empty(chans), events, w)
    ensures Inv(w)
    decreases |events|
  {
    if events != [] {
      var prefix, last := events[..|events| - 1], events[|events| - 1];
      var before :| Reaches(Empty(chans), prefix, before) && Enabled(before, last) && w == Step(before, last);
      EveryRunIsSafe(chans, prefix, before);
      StepKeeps(before, last);
    }
  }
}
