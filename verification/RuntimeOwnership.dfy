/** Disciplines for programs under which the hypothesis about what is destroyed follows, wholly or in
    part, from the way in which they are written: coroutines await only promises among their own
    locals, or also promises of the coroutines that they live in. */
module RuntimeOwnership {
  import opened Wrappers
  import opened Schedulers
  import opened Cores
  import opened Generators
  import opened Channels
  import opened Runtime
  import opened Destruction
  import opened RuntimeInvariant
  import opened RuntimeSteps
  import opened RuntimeSafety

  /** `f` is `x`, or lives among the locals and parameters of a coroutine that lives in `x`. */
  ghost predicate LivesIn(w: World, f: Handle, x: Handle) {
    forall s :: Closed(w, s) && x in s ==> f in s
  }

  /** May `f` await `p`? It may if it owns it; with the looser discipline also if the owner is a
      coroutine that it lives in, or the main program. */
  ghost predicate Nearby(w: World, f: Handle, p: Handle, ownOnly: bool)
    requires p in w.frames
  {
    var owner := w.frames[p].owner;
    if ownOnly then owner == Some(f) else owner.Some? ==> LivesIn(w, f, owner.value)
  }

  ghost predicate AwaitsNearby(w: World, ownOnly: bool) {
    forall f, p :: f in w.frames && p in w.frames && Borrows(w, f, p) ==> Nearby(w, f, p, ownOnly)
  }

  predicate OffStack(w: World, doomed: set<Handle>) {
    forall f :: f in w.stack ==> f !in doomed
  }

  /** Nobody awaits `p`, except perhaps coroutines that die with it. */
  predicate Unawaited(w: World, p: Handle, doomed: set<Handle>) {
    forall f :: f in w.frames && f !in doomed ==> !Borrows(w, f, p)
  }

  /** What `roots` are dropped with may die. With the looser discipline they must not be awaited from
      outside, and none of the doomed may wait outside by a plain co_await. */
  predicate Releasable(w: World, roots: set<Handle>, doomed: set<Handle>, ownOnly: bool) {
    && OffStack(w, doomed)
    && (ownOnly || ((forall p :: p in roots ==> Unawaited(w, p, doomed)) && NoneLeftBehind(w, doomed)))
  }

  /** The coroutines `moving` await nothing outside. */
  predicate SelfContained(w: World, moving: set<Handle>) {
    forall f, q :: f in moving && f in w.frames && q in w.frames && Borrows(w, f, q) ==> q in moving
  }

  /** `p` is moved to a coroutine that lives where it was, or moves with all that it awaits. */
  ghost predicate Movable(w: World, p: Handle, to: Option<Handle>)
    requires p in w.frames
  {
    && Unawaited(w, p, {})
    && match w.frames[p].owner
       case None => true
       case Some(x) =>
         (to.Some? && LivesIn(w, to.value, x)) || (x !in Doomed(w, p, true) && SelfContained(w, Doomed(w, p, true)))
  }

  /** What the running coroutine does follows the discipline. Where coroutines await only what they own,
      they also drop and move only what they own. */
  ghost predicate Structured(w: World, e: Event, ownOnly: bool) {
    && Callable(w, e)
    && match e
       case Start(_, _, args) => ownOnly || forall p :: p in args ==> Unawaited(w, p, {})
       case Await(p) => Nearby(w, Top(w), p, ownOnly)
       case AwaitGenerator(g) => Nearby(w, Top(w), g, ownOnly)
       case Select(ps) => forall p :: p in ps ==> Nearby(w, Top(w), p, ownOnly)
       case Finish(o, locals) =>
         var dying := if o.Thrown? then w else Ends(w, o);
         Releasable(dying, locals, DoomedAll(dying, locals), ownOnly)
       case FinishGenerator(error, locals) =>
         var dying := if error.Some? then w else EndsGenerator(w, error);
         Releasable(dying, locals, DoomedAll(dying, locals), ownOnly)
       case Drop(p) =>
         (ownOnly ==> Owns(w, p)) && Releasable(w, {p}, Doomed(w, p, DestroysLazily(w.frames[p])), ownOnly)
       case Overwrite(p) => (ownOnly ==> Owns(w, p)) && Releasable(w, {p}, Doomed(w, p, true), ownOnly)
       case Move(p, to) =>
         && (to.Some? ==> to.value !in Doomed(w, p, true))
         && if ownOnly then Owns(w, p) else Movable(w, p, to)
       case DropSet(ps) => forall p :: p in ps ==> !w.frames[p].core.IsAwaited()
       case _ => true
  }

  // ---- what is dropped is not referred to -------------------------------------------------------------

  /** Whatever dies with `roots`, and is not one of them, is owned by something that dies with them. */
  predicate OwnedWithin(w: World, roots: set<Handle>, doomed: set<Handle>) {
    forall q :: q in doomed && q in w.frames && q !in roots ==>
      w.frames[q].owner.Some? && w.frames[q].owner.value in doomed
  }

  lemma DoomedAreOwned(w: World, p: Handle, lazily: bool)
    requires Settled(w) && p in w.frames
    ensures OwnedWithin(w, {p}, Doomed(w, p, lazily)) && Closed(w, Doomed(w, p, lazily))
  {
    var doomed := Doomed(w, p, lazily);
    forall q | q in doomed && q != p
      ensures w.frames[q].owner.Some? && w.frames[q].owner.value in doomed
    {
      RecursiveDestructionErases(w, p, lazily, doomed - {q});
      assert !Closed(w, doomed - {q});
    }
    RecursiveDestructionErases(w, p, lazily, {});
  }

  lemma AllDoomedAreOwned(w: World, s: set<Handle>)
    requires Settled(w) && s <= w.frames.Keys
    ensures OwnedWithin(w, s, DoomedAll(w, s)) && Closed(w, DoomedAll(w, s))
  {
    var doomed := DoomedAll(w, s);
    RecursiveDestructionErasesAll(w, s, {});
    forall q | q in doomed && q !in s
      ensures w.frames[q].owner.Some? && w.frames[q].owner.value in doomed
    {
      RecursiveDestructionErasesAll(w, s, doomed - {q});
      AllRootsDie(w, s);
      assert !Closed(w, doomed - {q});
    }
  }

  lemma AllRootsDie(w: World, s: set<Handle>)
    ensures DoomedAll(w, s) * s == w.frames.Keys * s
  {
  }

  /** Whoever awaits something that dies, but is not one of the roots, dies with it. */
  lemma NobodyRefers(w: World, roots: set<Handle>, doomed: set<Handle>, ownOnly: bool)
    requires AwaitsNearby(w, ownOnly) && OffStack(w, doomed) && doomed <= w.frames.Keys
    requires Closed(w, doomed) && OwnedWithin(w, roots, doomed)
    requires forall p :: p in roots ==> Unawaited(w, p, doomed)
    ensures Unreferenced(w, doomed)
  {
    forall f, q | f in w.frames && f !in doomed && q in doomed
      ensures !Borrows(w, f, q)
    {
      assert Borrows(w, f, q) ==> Nearby(w, f, q, ownOnly);
    }
  }

  /** Those who await only what they own leave nothing behind. */
  lemma NothingLeftBehind(w: World, doomed: set<Handle>)
    requires Inv(w) && AwaitsNearby(w, true) && Closed(w, doomed)
    ensures NoneLeftBehind(w, doomed)
  {
    forall f, q | f in doomed && q in w.frames && w.frames[q].core.waiting == Some(f)
      ensures q in doomed
    {
      assert WaiterOK(w, q) && PlaceOK(w, f);
      assert Borrows(w, f, q);
    }
  }

  /** Where coroutines await only promises of the coroutines that they live in, what dies with
      promises that nobody outside awaits is not referred to from outside; so dropping them is safe if
      and only if none of the doomed is left behind in a survivor. */
  lemma NearbyDropIsSafeExactly(w: World, p: Handle, lazily: bool)
    requires Inv(w) && AwaitsNearby(w, false) && p in w.frames
    requires OffStack(w, Doomed(w, p, lazily)) && Unawaited(w, p, Doomed(w, p, lazily))
    ensures Inv(Destroy(w, p, lazily)) <==> NoneLeftBehind(w, Doomed(w, p, lazily))
  {
    InvIsSettled(w);
    DoomedAreOwned(w, p, lazily);
    NobodyRefers(w, {p}, Doomed(w, p, lazily), false);
    DropIsSafeExactly(w, p, lazily);
  }

  /** Nobody awaits what a coroutine owns that does not await itself, nor what the main program owns. */
  lemma NobodyAwaits(w: World, p: Handle)
    requires AwaitsNearby(w, true) && p in w.frames
    requires var owner := w.frames[p].owner;
             owner.Some? && owner.value in w.frames ==> !Awaiting(w.frames[owner.value].place)
    ensures Unawaited(w, p, {})
  {
    forall f | f in w.frames
      ensures !Borrows(w, f, p)
    {
      assert Borrows(w, f, p) ==> Nearby(w, f, p, true);
    }
  }

  lemma OwnedIsUnawaited(w: World, p: Handle)
    requires StackOK(w) && AwaitsNearby(w, true) && Owns(w, p)
    ensures Unawaited(w, p, {})
  {
    if w.stack != [] {
      assert w.frames[w.stack[|w.stack| - 1]].place.OnStack?;
    }
    NobodyAwaits(w, p);
  }

  lemma RootsAreDroppable(w: World, roots: set<Handle>, doomed: set<Handle>, ownOnly: bool)
    requires Inv(w) && AwaitsNearby(w, ownOnly) && doomed <= w.frames.Keys
    requires Closed(w, doomed) && OwnedWithin(w, roots, doomed) && Releasable(w, roots, doomed, ownOnly)
    requires ownOnly ==> forall p :: p in roots ==> Unawaited(w, p, {})
    ensures Droppable(w, doomed)
  {
    NobodyRefers(w, roots, doomed, ownOnly);
    if ownOnly {
      NothingLeftBehind(w, doomed);
    }
  }

  lemma DropIsDroppable(w: World, p: Handle, lazily: bool, ownOnly: bool)
    requires Inv(w) && AwaitsNearby(w, ownOnly) && p in w.frames && (ownOnly ==> Owns(w, p))
    requires Releasable(w, {p}, Doomed(w, p, lazily), ownOnly)
    ensures Droppable(w, Doomed(w, p, lazily))
  {
    InvIsSettled(w);
    DoomedAreOwned(w, p, lazily);
    if ownOnly {
      OwnedIsUnawaited(w, p);
    }
    RootsAreDroppable(w, {p}, Doomed(w, p, lazily), ownOnly);
  }

  /** The locals of a coroutine that runs, or has just ended. */
  lemma KidsAreDroppable(w: World, x: Handle, locals: set<Handle>, ownOnly: bool)
    requires Inv(w) && AwaitsNearby(w, ownOnly) && x in w.frames && !Awaiting(w.frames[x].place)
    requires locals <= Kids(w, x) && Releasable(w, locals, DoomedAll(w, locals), ownOnly)
    ensures Droppable(w, DoomedAll(w, locals))
  {
    InvIsSettled(w);
    AllDoomedAreOwned(w, locals);
    if ownOnly {
      forall p | p in locals
        ensures Unawaited(w, p, {})
      {
        assert p in Kids(w, x);
        NobodyAwaits(w, p);
      }
    }
    RootsAreDroppable(w, locals, DoomedAll(w, locals), ownOnly);
  }

  // ---- the discipline is kept ---------------------------------------------------------------------------

  predicate Awaiting(p: Place) { p.AtPromise? || p.AtGenerator? || p.AtSelect? }

  /** Whoever awaits in `w` still lives in the owner of what it awaits. */
  ghost predicate StaysNear(w: World, w': World) {
    forall f, p :: f in w.frames && p in w.frames && Borrows(w, f, p) && f in w'.frames && w.frames[p].owner.Some? ==>
      LivesIn(w', f, w.frames[p].owner.value)
  }

  lemma SameOwnersLive(w: World, w': World, f: Handle, x: Handle)
    requires w'.frames.Keys == w.frames.Keys && forall k :: k in w.frames ==> w'.frames[k].owner == w.frames[k].owner
    requires LivesIn(w, f, x)
    ensures LivesIn(w', f, x)
  {
    forall s | Closed(w', s) && x in s
      ensures f in s
    {
      assert Closed(w, s);
    }
  }

  lemma SameOwnersStayNear(w: World, w': World)
    requires w'.frames.Keys == w.frames.Keys && forall k :: k in w.frames ==> w'.frames[k].owner == w.frames[k].owner
    requires AwaitsNearby(w, false)
    ensures StaysNear(w, w')
  {
    forall f, p | f in w.frames && p in w.frames && Borrows(w, f, p) && w.frames[p].owner.Some?
      ensures LivesIn(w', f, w.frames[p].owner.value)
    {
      assert Nearby(w, f, p, false);
      SameOwnersLive(w, w', f, w.frames[p].owner.value);
    }
  }

  /** Coroutines stay where they are, or stop awaiting; only promises that nobody awaits change their
      owner; and new coroutines do not await. */
  ghost predicate Settling(w: World, w': World, moved: set<Handle>) {
    && (forall f :: f in w.frames ==>
          && f in w'.frames && (w'.frames[f].place == w.frames[f].place || !Awaiting(w'.frames[f].place))
          && (f !in moved ==> w'.frames[f].owner == w.frames[f].owner))
    && (forall f :: f in w'.frames && f !in w.frames ==> f in moved && !Awaiting(w'.frames[f].place))
  }

  lemma SettlingKeeps(w: World, w': World, moved: set<Handle>, ownOnly: bool)
    requires AwaitsNearby(w, ownOnly) && Settling(w, w', moved)
    requires forall p :: p in moved ==> Unawaited(w, p, {})
    requires !ownOnly ==> StaysNear(w, w')
    ensures AwaitsNearby(w', ownOnly)
  {
    forall f, p | f in w'.frames && p in w'.frames && Borrows(w', f, p)
      ensures Nearby(w', f, p, ownOnly)
    {
      assert Borrows(w, f, p);
      assert p !in moved;
      assert Nearby(w, f, p, ownOnly);
    }
  }

  lemma UnmovedKeeps(w: World, w': World, ownOnly: bool)
    requires AwaitsNearby(w, ownOnly) && Settling(w, w', {})
    ensures AwaitsNearby(w', ownOnly)
  {
    assert w'.frames.Keys == w.frames.Keys;
    if !ownOnly {
      SameOwnersStayNear(w, w');
    }
    SettlingKeeps(w, w', {}, ownOnly);
  }

  lemma RunNextSettles(w: World)
    ensures Settling(w, RunNext(w), {})
  {
    if NextHandle(w.queue, DoneSet(w)).Some? {
      var h := NextHandle(w.queue, DoneSet(w)).value;
      if h in w.frames {
        var rest := w.(queue := AfterNext(w.queue, DoneSet(w)));
        forall f | f in w.frames
          ensures ResumptionOf(rest, h, f)
        {
          ResumptionFrame(rest, h, f);
        }
        assert Resumption(rest, h).frames.Keys == w.frames.Keys;
      }
    }
  }

  lemma RunNextKeepsNear(w: World, ownOnly: bool)
    requires AwaitsNearby(w, ownOnly)
    ensures AwaitsNearby(RunNext(w), ownOnly)
  {
    RunNextSettles(w);
    UnmovedKeeps(w, RunNext(w), ownOnly);
  }

  /** The running coroutine suspends to await promises that it may await. */
  ghost predicate AwaitsNear(w: World, w': World, ownOnly: bool) {
    && Running(w) && w'.frames.Keys == w.frames.Keys
    && (forall f :: f in w.frames ==> w'.frames[f].owner == w.frames[f].owner)
    && (forall f :: f in w.frames && f != Top(w) ==> w'.frames[f].place == w.frames[f].place)
    && (forall p :: p in w.frames && Borrows(w', Top(w), p) ==> Nearby(w, Top(w), p, ownOnly))
  }

  lemma SameOwnersNearby(w: World, w': World, f: Handle, p: Handle, ownOnly: bool)
    requires w'.frames.Keys == w.frames.Keys && forall k :: k in w.frames ==> w'.frames[k].owner == w.frames[k].owner
    requires p in w.frames && Nearby(w, f, p, ownOnly)
    ensures Nearby(w', f, p, ownOnly)
  {
    if !ownOnly && w.frames[p].owner.Some? {
      SameOwnersLive(w, w', f, w.frames[p].owner.value);
    }
  }

  lemma AwaitsNearKeeps(w: World, w': World, ownOnly: bool)
    requires AwaitsNearby(w, ownOnly) && AwaitsNear(w, w', ownOnly)
    ensures AwaitsNearby(w', ownOnly) && AwaitsNearby(RunNext(w'), ownOnly)
  {
    forall f, p | f in w'.frames && p in w'.frames && Borrows(w', f, p)
      ensures Nearby(w', f, p, ownOnly)
    {
      assert f != Top(w) ==> Borrows(w, f, p);
      SameOwnersNearby(w, w', f, p, ownOnly);
    }
    RunNextKeepsNear(w', ownOnly);
  }

  lemma ErasedLives(w: World, doomed: set<Handle>, f: Handle, x: Handle)
    requires Closed(w, doomed) && f !in doomed && LivesIn(w, f, x)
    ensures LivesIn(Erase(w, doomed), f, x)
  {
    var w' := Erase(w, doomed);
    forall s | Closed(w', s) && x in s
      ensures f in s
    {
      forall y, k | y in s + doomed && k in w.frames && w.frames[k].owner == Some(y)
        ensures k in s + doomed
      {
        assert k !in doomed ==> w'.frames[k].owner == Some(y);
      }
      assert Closed(w, s + doomed);
    }
  }

  lemma ErasedKeeps(w: World, doomed: set<Handle>, ownOnly: bool)
    requires AwaitsNearby(w, ownOnly) && Closed(w, doomed)
    ensures AwaitsNearby(Erase(w, doomed), ownOnly)
  {
    var w' := Erase(w, doomed);
    forall f, p | f in w'.frames && p in w'.frames && Borrows(w', f, p)
      ensures Nearby(w', f, p, ownOnly)
    {
      assert Borrows(w, f, p) && Nearby(w, f, p, ownOnly);
      if !ownOnly && w.frames[p].owner.Some? {
        ErasedLives(w, doomed, f, w.frames[p].owner.value);
      }
    }
  }

  lemma EndsSettle(w: World, w': World)
    requires Completion(w, w')
    ensures Settling(w, w', {}) && Kids(w', Top(w)) == Kids(w, Top(w))
  {
  }

  lemma EndedKeeps(w: World, ended: World, ownOnly: bool)
    requires AwaitsNearby(w, ownOnly) && Completion(w, ended)
    ensures AwaitsNearby(ended, ownOnly)
  {
    EndsSettle(w, ended);
    UnmovedKeeps(w, ended, ownOnly);
  }

  lemma CoresChangedKeeps(w: World, w': World, ownOnly: bool)
    requires AwaitsNearby(w, ownOnly) && w'.frames.Keys == w.frames.Keys
    requires forall f :: f in w.frames ==>
               w'.frames[f].place == w.frames[f].place && w'.frames[f].owner == w.frames[f].owner
    ensures AwaitsNearby(w', ownOnly)
  {
    UnmovedKeeps(w, w', ownOnly);
  }

  lemma FetchedKeeps(w: World, p: Handle, core: Core<Value>, ownOnly: bool)
    requires AwaitsNearby(w, ownOnly) && p in w.frames
    ensures AwaitsNearby(SetCore(w, p, core), ownOnly)
  {
    CoresChangedKeeps(w, SetCore(w, p, core), ownOnly);
  }

  lemma RegisteredAwaitsNear(w: World, p: Handle, core: Core<Value>, ownOnly: bool)
    requires Running(w) && p in w.frames && Nearby(w, Top(w), p, ownOnly)
    ensures AwaitsNear(w, Leave(SetCore(w, p, core), AtPromise(p)), ownOnly)
  {
  }

  lemma AwaitKeeps(w: World, p: Handle, ownOnly: bool)
    requires AwaitsNearby(w, ownOnly) && Enabled(w, Await(p)) && Nearby(w, Top(w), p, ownOnly)
    ensures AwaitsNearby(Step(w, Await(p)), ownOnly)
  {
    var core := w.frames[p].core;
    if core.Ready() {
      FetchedKeeps(w, p, AfterFetch(core), ownOnly);
    } else if core.phase.Init? {
      var waited := Core(WaitedOn, Some(Top(w)), core.slot);
      RegisteredAwaitsNear(w, p, waited, ownOnly);
      AwaitsNearKeeps(w, Leave(SetCore(w, p, waited), AtPromise(p)), ownOnly);
    }
  }

  lemma RepliedKeeps(w: World, g: Handle, gen: GenCore<Value>, ownOnly: bool)
    requires AwaitsNearby(w, ownOnly) && g in w.frames
    ensures AwaitsNearby(SetGen(w, g, gen), ownOnly)
  {
    CoresChangedKeeps(w, SetGen(w, g, gen), ownOnly);
  }

  lemma AwaitedGeneratorAwaitsNear(w: World, g: Handle, ownOnly: bool)
    requires Running(w) && g in w.frames && w.frames[g].kind.Gen? && Nearby(w, Top(w), g, ownOnly)
    ensures AwaitsNear(w, AwaitedGenerator(w, g), ownOnly)
  {
  }

  lemma AwaitGeneratorKeeps(w: World, g: Handle, ownOnly: bool)
    requires AwaitsNearby(w, ownOnly) && Enabled(w, AwaitGenerator(g)) && Nearby(w, Top(w), g, ownOnly)
    ensures AwaitsNearby(Step(w, AwaitGenerator(g)), ownOnly)
  {
    if AwaitReady(w.frames[g].AsGen()) {
      RepliedKeeps(w, g, AfterReply(w.frames[g].AsGen()), ownOnly);
    } else {
      AwaitedGeneratorAwaitsNear(w, g, ownOnly);
      AwaitsNearKeeps(w, AwaitedGenerator(w, g), ownOnly);
    }
  }

  lemma ReleaseKeeps(w: World, ps: seq<Handle>, ownOnly: bool)
    requires AwaitsNearby(w, ownOnly)
    ensures AwaitsNearby(Release(w, ps), ownOnly)
  {
    CoresChangedKeeps(w, Release(w, ps), ownOnly);
  }

  lemma SelectedAwaitsNear(w: World, ps: seq<Handle>, ownOnly: bool)
    requires Running(w) && forall p :: p in ps ==> p in w.frames && Nearby(w, Top(w), p, ownOnly)
    ensures AwaitsNear(w, Selected(w, ps), ownOnly)
  {
  }

  lemma SelectKeeps(w: World, ps: seq<Handle>, ownOnly: bool)
    requires AwaitsNearby(w, ownOnly) && Enabled(w, Select(ps)) && forall p :: p in ps ==> Nearby(w, Top(w), p, ownOnly)
    ensures AwaitsNearby(Step(w, Select(ps)), ownOnly)
  {
    if exists p :: p in ps && w.frames[p].core.Ready() {
      ReleaseKeeps(w, ps, ownOnly);
    } else {
      SelectedAwaitsNear(w, ps, ownOnly);
      AwaitsNearKeeps(w, Selected(w, ps), ownOnly);
    }
  }

  lemma AwaitingKeeps(w: World, e: Event, ownOnly: bool)
    requires AwaitsNearby(w, ownOnly) && Structured(w, e, ownOnly) && Enabled(w, e)
    requires e.Await? || e.AwaitGenerator? || e.Select?
    ensures AwaitsNearby(Step(w, e), ownOnly)
  {
    match e
    case Await(p) => AwaitKeeps(w, p, ownOnly);
    case AwaitGenerator(g) => AwaitGeneratorKeeps(w, g, ownOnly);
    case Select(ps) => SelectKeeps(w, ps, ownOnly);
  }

  lemma DestroyedKeeps(w: World, s: set<Handle>, ownOnly: bool)
    requires Inv(w) && AwaitsNearby(w, ownOnly)
    ensures AwaitsNearby(DestroyAll(w, s), ownOnly)
  {
    InvIsSettled(w);
    RecursiveDestructionErasesAll(w, s, {});
    ErasedKeeps(w, DoomedAll(w, s), ownOnly);
  }

  /** A coroutine returns, and its locals die afterwards. */
  lemma ReturnKeeps(w: World, ended: World, locals: set<Handle>, ownOnly: bool)
    requires Inv(w) && Inv(ended) && AwaitsNearby(w, ownOnly)
    requires Completion(w, ended) && ended.frames[Top(w)].place.AtEnd?
    requires locals <= Kids(w, Top(w)) && Releasable(ended, locals, DoomedAll(ended, locals), ownOnly)
    ensures Droppable(ended, DoomedAll(ended, locals)) && AwaitsNearby(DestroyAll(ended, locals), ownOnly)
  {
    EndsSettle(w, ended);
    EndedKeeps(w, ended, ownOnly);
    KidsAreDroppable(ended, Top(w), locals, ownOnly);
    DestroyedKeeps(ended, locals, ownOnly);
  }

  /** An exception leaves a coroutine, and its locals die before it ends. */
  lemma UnwindingKeeps(w: World, locals: set<Handle>, ownOnly: bool)
    requires Inv(w) && AwaitsNearby(w, ownOnly) && Running(w)
    requires locals <= Kids(w, Top(w)) && Releasable(w, locals, DoomedAll(w, locals), ownOnly)
    ensures Droppable(w, DoomedAll(w, locals)) && Inv(DestroyAll(w, locals)) && Running(DestroyAll(w, locals))
    ensures AwaitsNearby(DestroyAll(w, locals), ownOnly)
  {
    TopUnregistered(w);
    KidsAreDroppable(w, Top(w), locals, ownOnly);
    DestroyAllIsSafeExactly(w, locals);
    DestroyedKeeps(w, locals, ownOnly);
    assert Top(w) in w.stack;
  }

  lemma ThrowingKeeps(w: World, o: Outcome<Value>, locals: set<Handle>, ownOnly: bool)
    requires Inv(w) && AwaitsNearby(w, ownOnly) && Running(w) && w.frames[Top(w)].kind.Plain? && o.Thrown?
    requires locals <= Kids(w, Top(w)) && Releasable(w, locals, DoomedAll(w, locals), ownOnly)
    ensures Droppable(w, DoomedAll(w, locals)) && Top(w) !in DoomedAll(w, locals)
    ensures AwaitsNearby(Concluded(w, o, locals), ownOnly)
  {
    UnwindingKeeps(w, locals, ownOnly);
    var unwound := DestroyAll(w, locals);
    TopIsReady(unwound);
    EndsCompletes(unwound, o);
    EndedKeeps(unwound, Ends(unwound, o), ownOnly);
  }

  lemma ReturningKeeps(w: World, o: Outcome<Value>, locals: set<Handle>, ownOnly: bool)
    requires Inv(w) && AwaitsNearby(w, ownOnly) && Running(w) && w.frames[Top(w)].kind.Plain? && o.Value?
    requires locals <= Kids(w, Top(w)) && Releasable(Ends(w, o), locals, DoomedAll(Ends(w, o), locals), ownOnly)
    ensures Droppable(Ends(w, o), DoomedAll(Ends(w, o), locals)) && AwaitsNearby(Concluded(w, o, locals), ownOnly)
  {
    TopIsReady(w);
    EndsKeeps(w, o);
    EndsCompletes(w, o);
    ReturnKeeps(w, Ends(w, o), locals, ownOnly);
  }

  lemma ThrowingGeneratorKeeps(w: World, error: Option<Exception>, locals: set<Handle>, ownOnly: bool)
    requires Inv(w) && AwaitsNearby(w, ownOnly) && Running(w) && w.frames[Top(w)].kind.Gen? && error.Some?
    requires locals <= Kids(w, Top(w)) && Releasable(w, locals, DoomedAll(w, locals), ownOnly)
    ensures Droppable(w, DoomedAll(w, locals)) && Top(w) !in DoomedAll(w, locals)
    ensures AwaitsNearby(ConcludedGenerator(w, error, locals), ownOnly)
  {
    UnwindingKeeps(w, locals, ownOnly);
    var unwound := DestroyAll(w, locals);
    TopIsReady(unwound);
    EndsGeneratorCompletes(unwound, error);
    EndedKeeps(unwound, EndsGenerator(unwound, error), ownOnly);
  }

  lemma ReturningGeneratorKeeps(w: World, error: Option<Exception>, locals: set<Handle>, ownOnly: bool)
    requires Inv(w) && AwaitsNearby(w, ownOnly) && Running(w) && w.frames[Top(w)].kind.Gen? && error.None?
    requires var ended := EndsGenerator(w, error);
             locals <= Kids(w, Top(w)) && Releasable(ended, locals, DoomedAll(ended, locals), ownOnly)
    ensures Droppable(EndsGenerator(w, error), DoomedAll(EndsGenerator(w, error), locals))
    ensures AwaitsNearby(ConcludedGenerator(w, error, locals), ownOnly)
  {
    TopIsReady(w);
    EndsGeneratorKeeps(w, error);
    EndsGeneratorCompletes(w, error);
    ReturnKeeps(w, EndsGenerator(w, error), locals, ownOnly);
  }

  lemma FinishingKeeps(w: World, o: Outcome<Value>, locals: set<Handle>, ownOnly: bool)
    requires Inv(w) && AwaitsNearby(w, ownOnly) && Structured(w, Finish(o, locals), ownOnly)
    ensures Enabled(w, Finish(o, locals)) && AwaitsNearby(Concluded(w, o, locals), ownOnly)
  {
    if o.Thrown? {
      ThrowingKeeps(w, o, locals, ownOnly);
    } else {
      ReturningKeeps(w, o, locals, ownOnly);
    }
  }

  lemma FinishingGeneratorKeeps(w: World, error: Option<Exception>, locals: set<Handle>, ownOnly: bool)
    requires Inv(w) && AwaitsNearby(w, ownOnly) && Structured(w, FinishGenerator(error, locals), ownOnly)
    ensures Enabled(w, FinishGenerator(error, locals)) && AwaitsNearby(ConcludedGenerator(w, error, locals), ownOnly)
  {
    if error.Some? {
      ThrowingGeneratorKeeps(w, error, locals, ownOnly);
    } else {
      ReturningGeneratorKeeps(w, error, locals, ownOnly);
    }
  }

  lemma DroppingKeeps(w: World, p: Handle, lazily: bool, ownOnly: bool)
    requires Inv(w) && AwaitsNearby(w, ownOnly) && p in w.frames && (ownOnly ==> Owns(w, p))
    requires Releasable(w, {p}, Doomed(w, p, lazily), ownOnly)
    ensures Droppable(w, Doomed(w, p, lazily)) && AwaitsNearby(Destroy(w, p, lazily), ownOnly)
  {
    DropIsDroppable(w, p, lazily, ownOnly);
    InvIsSettled(w);
    RecursiveDestructionErases(w, p, lazily, {});
    ErasedKeeps(w, Doomed(w, p, lazily), ownOnly);
  }

  lemma DropKeeps(w: World, p: Handle, ownOnly: bool)
    requires Inv(w) && AwaitsNearby(w, ownOnly) && Structured(w, Drop(p), ownOnly)
    ensures Enabled(w, Drop(p)) && AwaitsNearby(Step(w, Drop(p)), ownOnly)
  {
    DroppingKeeps(w, p, DestroysLazily(w.frames[p]), ownOnly);
  }

  lemma OverwriteKeeps(w: World, p: Handle, ownOnly: bool)
    requires Inv(w) && AwaitsNearby(w, ownOnly) && Structured(w, Overwrite(p), ownOnly)
    ensures Enabled(w, Overwrite(p)) && AwaitsNearby(Step(w, Overwrite(p)), ownOnly)
  {
    DroppingKeeps(w, p, true, ownOnly);
  }

  // ---- promises that change their owner ---------------------------------------------------------------

  /** The new coroutine lives in its caller; so its arguments still do. */
  lemma StartedLives(w: World, n: Handle, generator: bool, args: set<Handle>, f: Handle, x: Handle)
    requires n !in w.frames && OwnersOK(w) && (w.stack == [] || Running(w)) && forall p :: p in args ==> Owns(w, p)
    requires LivesIn(w, f, x)
    ensures LivesIn(Started(w, n, generator, args), f, x)
  {
    var w' := Started(w, n, generator, args);
    forall s | Closed(w', s) && x in s
      ensures f in s
    {
      forall y, k | y in s && k in w.frames && w.frames[k].owner == Some(y)
        ensures k in s
      {
        if k in args {
          assert w'.frames[n].owner == Some(y) && w'.frames[k].owner == Some(n);
        } else {
          assert w'.frames[k].owner == Some(y);
        }
      }
      assert Closed(w, s);
    }
  }

  lemma StartedStaysNear(w: World, n: Handle, generator: bool, args: set<Handle>)
    requires n !in w.frames && OwnersOK(w) && (w.stack == [] || Running(w)) && forall p :: p in args ==> Owns(w, p)
    requires AwaitsNearby(w, false)
    ensures StaysNear(w, Started(w, n, generator, args))
  {
    forall f, p | f in w.frames && p in w.frames && Borrows(w, f, p) && w.frames[p].owner.Some?
      ensures LivesIn(Started(w, n, generator, args), f, w.frames[p].owner.value)
    {
      assert Nearby(w, f, p, false);
      StartedLives(w, n, generator, args, f, w.frames[p].owner.value);
    }
  }

  lemma StartSettles(w: World, n: Handle, generator: bool, args: set<Handle>)
    requires n !in w.frames
    ensures Settling(w, Started(w, n, generator, args), args + {n})
  {
  }

  lemma NobodyAwaitsNew(w: World, n: Handle)
    requires PlacesOK(w) && n !in w.frames
    ensures Unawaited(w, n, {})
  {
    forall f | f in w.frames
      ensures !Borrows(w, f, n)
    {
      assert PlaceOK(w, f);
    }
  }

  lemma StartKeeps(w: World, n: Handle, generator: bool, args: set<Handle>, ownOnly: bool)
    requires Inv(w) && AwaitsNearby(w, ownOnly) && n !in w.frames && (w.stack == [] || Running(w))
    requires forall p :: p in args ==> Owns(w, p) && (ownOnly || Unawaited(w, p, {}))
    ensures AwaitsNearby(Started(w, n, generator, args), ownOnly)
  {
    forall p | p in args + {n}
      ensures Unawaited(w, p, {})
    {
      if p == n {
        NobodyAwaitsNew(w, n);
      } else if ownOnly {
        OwnedIsUnawaited(w, p);
      }
    }
    if !ownOnly {
      StartedStaysNear(w, n, generator, args);
    }
    StartSettles(w, n, generator, args);
    SettlingKeeps(w, Started(w, n, generator, args), args + {n}, ownOnly);
  }

  /** A set that is closed after `p` has been moved was closed before, unless it contains the old owner
      and not `p`. */
  lemma ClosedBeforeMove(w: World, p: Handle, to: Option<Handle>, s: set<Handle>)
    requires p in w.frames && Closed(MovedTo(w, p, to), s)
    requires p in s || w.frames[p].owner.None? || w.frames[p].owner.value !in s
    ensures Closed(w, s)
  {
    forall y, k | y in s && k in w.frames && w.frames[k].owner == Some(y)
      ensures k in s
    {
      assert k != p ==> MovedTo(w, p, to).frames[k].owner == Some(y);
    }
  }

  /** Otherwise it was closed up to what has moved. */
  lemma ClosedWithMoved(w: World, p: Handle, to: Option<Handle>, s: set<Handle>, moving: set<Handle>)
    requires p in w.frames && Closed(MovedTo(w, p, to), s) && Closed(w, moving) && p in moving
    ensures Closed(w, s + moving)
    ensures w.frames[p].owner.Some? && w.frames[p].owner.value !in moving ==> Closed(w, s * moving)
  {
    var w' := MovedTo(w, p, to);
    forall y, k | y in s + moving && k in w.frames && w.frames[k].owner == Some(y)
      ensures k in s + moving
    {
      assert k != p ==> w'.frames[k].owner == Some(y);
    }
    if w.frames[p].owner.Some? && w.frames[p].owner.value !in moving {
      forall y, k | y in s * moving && k in w.frames && w.frames[k].owner == Some(y)
        ensures k in s * moving
      {
        assert k != p && w'.frames[k].owner == Some(y);
      }
    }
  }

  /** Moved to a coroutine that lives in the old owner, everything still lives where it did. */
  lemma MovedInsideLives(w: World, p: Handle, to: Option<Handle>, moving: set<Handle>, f: Handle, x: Handle)
    requires p in w.frames && Closed(w, moving) && p in moving
    requires w.frames[p].owner.Some? ==>
               to.Some? && to.value !in moving && LivesIn(w, to.value, w.frames[p].owner.value)
    requires LivesIn(w, f, x)
    ensures LivesIn(MovedTo(w, p, to), f, x)
  {
    var w' := MovedTo(w, p, to);
    forall s | Closed(w', s) && x in s
      ensures f in s
    {
      assert to.Some? && to.value in s ==> p in s by {
        assert w'.frames[p].owner == to;
      }
      if p !in s && w.frames[p].owner.Some? && w.frames[p].owner.value in s {
        ClosedWithMoved(w, p, to, s, moving);
      }
      ClosedBeforeMove(w, p, to, s);
    }
  }

  /** Moved together with all that it awaits, everything still lives in the owner of what it awaits. */
  lemma MovedTogetherLives(w: World, p: Handle, to: Option<Handle>, moving: set<Handle>, f: Handle, x: Handle)
    requires p in w.frames && Closed(w, moving) && p in moving
    requires w.frames[p].owner.Some? && w.frames[p].owner.value !in moving
    requires LivesIn(w, f, x) && (f in moving ==> x in moving)
    ensures LivesIn(MovedTo(w, p, to), f, x)
  {
    forall s | Closed(MovedTo(w, p, to), s) && x in s
      ensures f in s
    {
      ClosedWithMoved(w, p, to, s, moving);
      assert f in s + moving;
      assert x in moving ==> f in s * moving;
    }
  }

  lemma MovedLives(w: World, p: Handle, to: Option<Handle>, f: Handle, q: Handle)
    requires Inv(w) && AwaitsNearby(w, false) && p in w.frames && Movable(w, p, to)
    requires to.Some? ==> to.value !in Doomed(w, p, true)
    requires f in w.frames && q in w.frames && Borrows(w, f, q) && w.frames[q].owner.Some?
    ensures LivesIn(MovedTo(w, p, to), f, w.frames[q].owner.value)
  {
    var moving, x := Doomed(w, p, true), w.frames[q].owner.value;
    InvIsSettled(w);
    DoomedAreOwned(w, p, true);
    RecursiveDestructionErases(w, p, true, {});
    assert Nearby(w, f, q, false) && q != p;
    if w.frames[p].owner.None? || (to.Some? && LivesIn(w, to.value, w.frames[p].owner.value)) {
      MovedInsideLives(w, p, to, moving, f, x);
    } else {
      assert f in moving ==> q in moving;
      MovedTogetherLives(w, p, to, moving, f, x);
    }
  }

  lemma MoveSettles(w: World, p: Handle, to: Option<Handle>)
    requires p in w.frames
    ensures Settling(w, MovedTo(w, p, to), {p})
  {
  }

  lemma MoveKeeps(w: World, p: Handle, to: Option<Handle>, ownOnly: bool)
    requires Inv(w) && AwaitsNearby(w, ownOnly) && p in w.frames && (to.Some? ==> to.value !in Doomed(w, p, true))
    requires if ownOnly then Owns(w, p) else Movable(w, p, to)
    ensures AwaitsNearby(MovedTo(w, p, to), ownOnly)
  {
    if ownOnly {
      OwnedIsUnawaited(w, p);
    } else {
      forall f, q | f in w.frames && q in w.frames && Borrows(w, f, q) && w.frames[q].owner.Some?
        ensures LivesIn(MovedTo(w, p, to), f, w.frames[q].owner.value)
      {
        MovedLives(w, p, to, f, q);
      }
    }
    MoveSettles(w, p, to);
    SettlingKeeps(w, MovedTo(w, p, to), {p}, ownOnly);
  }

  // ---- everything else ----------------------------------------------------------------------------------

  lemma LeaveKeeps(w: World, w': World, place: Place, ownOnly: bool)
    requires AwaitsNearby(w, ownOnly) && Running(w) && !Awaiting(place) && w'.frames == Leave(w, place).frames
    ensures AwaitsNearby(w', ownOnly)
  {
    UnmovedKeeps(w, w', ownOnly);
  }

  lemma PutKeeps(w: World, c: nat, item: Value, ownOnly: bool)
    requires AwaitsNearby(w, ownOnly) && Running(w) && c in w.chans
    ensures AwaitsNearby(PutItem(w, c, item), ownOnly) && AwaitsNearby(WaitOnChannel(w, c, Writer), ownOnly)
  {
    CoresChangedKeeps(w, PutItem(w, c, item), ownOnly);
    LeaveKeeps(w, WaitOnChannel(w, c, Writer), AtChannel(c, Writer), ownOnly);
  }

  lemma GetKeeps(w: World, c: nat, ownOnly: bool)
    requires AwaitsNearby(w, ownOnly) && Running(w) && c in w.chans
    ensures w.chans[c].items != [] ==> AwaitsNearby(GetItem(w, c), ownOnly)
    ensures AwaitsNearby(WaitOnChannel(w, c, Reader), ownOnly)
  {
    if w.chans[c].items != [] {
      CoresChangedKeeps(w, GetItem(w, c), ownOnly);
    }
    LeaveKeeps(w, WaitOnChannel(w, c, Reader), AtChannel(c, Reader), ownOnly);
  }

  lemma ChannelKeeps(w: World, e: Event, ownOnly: bool)
    requires AwaitsNearby(w, ownOnly) && Enabled(w, e) && (e.Put? || e.Get? || e.PutResumed? || e.GetResumed?)
    ensures AwaitsNearby(Step(w, e), ownOnly)
  {
    if e.Put? || e.PutResumed? {
      PutKeeps(w, e.c, e.item, ownOnly);
    } else {
      GetKeeps(w, e.c, ownOnly);
    }
  }

  lemma YieldsKeep(w: World, v: Value, ownOnly: bool)
    requires AwaitsNearby(w, ownOnly) && Running(w) && w.frames[Top(w)].kind.Gen?
    ensures AwaitsNearby(Yields(w, v), ownOnly)
  {
    UnmovedKeeps(w, Yields(w, v), ownOnly);
  }

  lemma CallbackKeepsNear(w: World, h: Handle, ownOnly: bool)
    requires AwaitsNearby(w, ownOnly) && h in w.frames
    ensures AwaitsNearby(CalledBack(w, h), ownOnly)
  {
    UnmovedKeeps(w, CalledBack(w, h), ownOnly);
  }

  lemma OtherKeeps(w: World, e: Event, ownOnly: bool)
    requires AwaitsNearby(w, ownOnly) && Enabled(w, e)
    requires e.Unwrap? || e.Yield? || e.CoYield? || e.Callback?
    ensures AwaitsNearby(Step(w, e), ownOnly)
  {
    match e
    case Unwrap(p) => FetchedKeeps(w, p, AfterUnwrap(w.frames[p].core), ownOnly);
    case Yield => LeaveKeeps(w, Step(w, e), AtExternal(false), ownOnly);
    case CoYield(v) => YieldsKeep(w, v, ownOnly);
    case Callback(h) => CallbackKeepsNear(w, h, ownOnly);
  }

  lemma WaitingKeeps(w: World, e: Event, ownOnly: bool)
    requires AwaitsNearby(w, ownOnly) && Enabled(w, e) && (e.WaitExternally? || e.Loop?)
    ensures AwaitsNearby(Step(w, e), ownOnly)
  {
    if e.Loop? {
      RunNextKeepsNear(w, ownOnly);
    } else {
      LeaveKeeps(w, Leave(w, AtExternal(true)), AtExternal(true), ownOnly);
      RunNextKeepsNear(Leave(w, AtExternal(true)), ownOnly);
    }
  }

  /** A structured event respects the lifetimes of what is awaited, and keeps the discipline. */
  lemma StructuredIsEnabled(w: World, e: Event, ownOnly: bool)
    requires Inv(w) && AwaitsNearby(w, ownOnly) && Structured(w, e, ownOnly)
    ensures Enabled(w, e) && AwaitsNearby(Step(w, e), ownOnly)
  {
    if e.Finish? {
      FinishingKeeps(w, e.o, e.locals, ownOnly);
    } else if e.FinishGenerator? {
      FinishingGeneratorKeeps(w, e.error, e.locals, ownOnly);
    } else if e.Drop? {
      DropKeeps(w, e.p, ownOnly);
    } else if e.Overwrite? {
      OverwriteKeeps(w, e.p, ownOnly);
    } else if e.Await? || e.AwaitGenerator? || e.Select? {
      AwaitingKeeps(w, e, ownOnly);
    } else if e.Start? {
      StartKeeps(w, e.n, e.generator, e.args, ownOnly);
    } else if e.Move? {
      MoveKeeps(w, e.p, e.to, ownOnly);
    } else if e.Put? || e.Get? || e.PutResumed? || e.GetResumed? {
      ChannelKeeps(w, e, ownOnly);
    } else if e.WaitExternally? || e.Loop? {
      WaitingKeeps(w, e, ownOnly);
    } else if e.DropSet? {
      UnawaitedSetKeeps(w, e.ps);
    } else {
      OtherKeeps(w, e, ownOnly);
    }
  }

  /** Runs in which every event is structured. */
  ghost predicate ReachesStructured(start: World, events: seq<Event>, w: World, ownOnly: bool)
    decreases |events|
  {
    if events == [] then w == start
    else
      var prefix, last := events[..|events| - 1], events[|events| - 1];
      exists before :: ReachesStructured(start, prefix, before, ownOnly) && Structured(before, last, ownOnly)
                       && (Enabled(before, last) ==> w == Step(before, last))
  }

  /** Runs of structured programs are runs in the sense of `Reaches`, so that all that is proved of
      these holds of them. If coroutines await only what they own, no hypothesis is left about who is
      destroyed when; if they await also promises of the coroutines that they live in, what remains is
      that what is dropped is not awaited from outside, and does not wait outside by a plain co_await. */
  lemma {:induction false} StructuredRunsAreSafe(chans: map<nat, Chan<Value>>, events: seq<Event>, w: World,
                                                 ownOnly: bool)
    requires Fresh(chans) && ReachesStructured(Empty(chans), events, w, ownOnly)
    ensures Reaches(Empty(chans), events, w) && Inv(w) && AwaitsNearby(w, ownOnly)
    decreases |events|
  {
    if events == [] {
      EveryRunIsSafe(chans, events, w);
    } else {
      var prefix, last := events[..|events| - 1], events[|events| - 1];
      var before :| ReachesStructured(Empty(chans), prefix, before, ownOnly) && Structured(before, last, ownOnly)
                    && (Enabled(before, last) ==> w == Step(before, last));
      StructuredRunsAreSafe(chans, prefix, before, ownOnly);
      StructuredIsEnabled(before, last, ownOnly);
      StepKeeps(before, last);
    }
  }
}
