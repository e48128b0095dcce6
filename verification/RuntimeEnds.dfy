/** What dies when a promise is destroyed, and when a coroutine ends: who exists afterwards, and what is left
    in the scheduler and in the channels. */
module RuntimeEnds {
  import opened Wrappers
  import opened Schedulers
  import opened Cores
  import opened Generators
  import opened Channels
  import opened Runtime
  import opened Destruction
  import opened RuntimeInvariant
  import opened RuntimeSteps
  import opened RuntimeSafety
  import opened RuntimeTheorems
  import opened RuntimeOwnership
  import opened RuntimeMeaning
  import opened RuntimeComposition

  /** Exactly the coroutines in `dead` are gone; nobody keeps a handle of one that is gone; the others are
      where they were, and owned by whom they were; and what is left of the rings are the others' handles. */
  ghost predicate Buried(w: World, w': World, dead: set<Handle>) {
    && (forall f :: f in w'.frames <==> f in w.frames && f !in dead)
    && (forall s, h :: Holds(w', s, h) ==> h in w'.frames)
    && (forall f :: f in w'.frames ==> w'.frames[f].owner == w.frames[f].owner)
    && w'.chans.Keys == w.chans.Keys
    && (forall c, side :: c in w.chans ==>
          && w'.chans[c].items == w.chans[c].items
          && |Ring(w'.chans[c], side)| == |Ring(w.chans[c], side)|
          && Live(Ring(w'.chans[c], side), {}) == Live(Ring(w.chans[c], side), dead))
  }

  lemma {:induction false} StruckOut(q: seq<Entry>, dead: set<Handle>)
    ensures Live(CancelAll(q, dead), {}) == Live(q, dead)
  {
    if q != [] {
      StruckOut(q[1..], dead);
      assert CancelAll(q, dead)[1..] == CancelAll(q[1..], dead);
    }
  }

  lemma ErasedIsBuried(w: World, dead: set<Handle>)
    requires Inv(Erase(w, dead))
    ensures Buried(w, Erase(w, dead), dead)
  {
    InvIsSafe(Erase(w, dead));
    forall c, side | c in w.chans
      ensures Live(Ring(Erase(w, dead).chans[c], side), {}) == Live(Ring(w.chans[c], side), dead)
    {
      StruckOut(Ring(w.chans[c], side), dead);
    }
  }

  lemma DropErases(w: World, e: Event)
    requires Inv(w) && Enabled(w, e) && (e.Drop? || e.Overwrite?)
    ensures Step(w, e) == Erase(w, Residents(w, {e.p}))
  {
    var lazily := if e.Drop? then DestroysLazily(w.frames[e.p]) else true;
    InvIsSettled(w);
    DoomedAreResidents(w, e.p, lazily);
    RecursiveDestructionErases(w, e.p, lazily, {});
  }

  lemma LivesInIs(w: World, f: Handle, p: Handle)
    ensures LivesInOne(w, f, {p}) <==> LivesIn(w, f, p)
  {
    assert p in {p};
  }

  lemma ErasedOnly(w: World, dead: set<Handle>)
    ensures var w' := Erase(w, dead);
            && w'.stack == w.stack && (forall f :: f in w'.frames ==> w'.frames[f].place == w.frames[f].place)
            && Live(w'.queue, {}) == Live(w.queue, dead)
  {
    StruckOut(w.queue, dead);
  }

  /** A promise is destroyed, or overwritten: exactly the coroutines that live in it die, and their handles
      are gone from everywhere, while the scheduler keeps those of the others, in order. */
  lemma DropBuriesExactly(w: World, e: Event)
    requires Inv(w) && Enabled(w, e) && (e.Drop? || e.Overwrite?)
    ensures var w', dead := Step(w, e), Residents(w, {e.p});
            && Buried(w, w', dead) && (forall f :: f in w.frames ==> (f in dead <==> LivesIn(w, f, e.p)))
            && Live(w'.queue, {}) == Live(w.queue, dead)
            && w'.stack == w.stack && forall f :: f in w'.frames ==> w'.frames[f].place == w.frames[f].place
  {
    StepKeeps(w, e);
    DropErases(w, e);
    ErasedIsBuried(w, Residents(w, {e.p}));
    ErasedOnly(w, Residents(w, {e.p}));
    forall f | f in w.frames
      ensures f in Residents(w, {e.p}) <==> LivesIn(w, f, e.p)
    {
      LivesInIs(w, f, e.p);
    }
  }

  // ---- the end of a coroutine ----------------------------------------------------------------------

  /** Only the running coroutine, the scheduler and the stack are concerned. */
  ghost predicate OnlyTop(w: World, u: World) {
    && w.stack != [] && u.frames.Keys == w.frames.Keys && u.chans == w.chans
    && forall f :: f in w.frames ==>
         u.frames[f].owner == w.frames[f].owner && (f != Top(w) ==> u.frames[f] == w.frames[f])
  }

  lemma EndsOnlyTop(w: World, o: Outcome<Value>, error: Option<Exception>)
    requires Running(w)
    ensures OnlyTop(w, Ends(w, o))
    ensures w.frames[Top(w)].kind.Gen? ==> OnlyTop(w, EndsGenerator(w, error))
  {
  }

  /** Destruction first, or last: in both cases the same is left. */
  lemma BuriedLast(w: World, u: World, dead: set<Handle>)
    requires OnlyTop(w, u) && Inv(Erase(u, dead))
    ensures Buried(w, Erase(u, dead), dead)
  {
    ErasedIsBuried(u, dead);
  }

  lemma BuriedFirst(w: World, w': World, dead: set<Handle>)
    requires OnlyTop(Erase(w, dead), w') && Inv(w')
    ensures Buried(w, w', dead)
  {
    InvIsSafe(w');
    forall c, side | c in w.chans
      ensures Live(Ring(Erase(w, dead).chans[c], side), {}) == Live(Ring(w.chans[c], side), dead)
    {
      StruckOut(Ring(w.chans[c], side), dead);
    }
  }

  /** The waiter of a running coroutine that is let go of is among the dead. */
  lemma WaiterDies(w: World, e: Event, dead: set<Handle>)
    requires Inv(w) && Running(w) && dead == Gone(w, e) && Top(w) !in dead && LetGoOf(w, e, Top(w))
    ensures w.frames[Top(w)].core.waiting.Some? && w.frames[Top(w)].core.waiting.value in dead
  {
    var g :| g in dead && g in w.frames && w.frames[g].place.AtSelect? && Top(w) in w.frames[g].place.ps;
    assert PlaceOK(w, g);
    TopIsReady(w);
    RunningIsEmpty(w);
  }

  /** The waiter of a running coroutine, if it dies with what the event destroys, is let go of. */
  lemma DyingWaiterIsLetGo(w: World, e: Event, dead: set<Handle>)
    requires Inv(w) && Running(w) && dead == Gone(w, e) && Top(w) !in dead && NoneLeftBehind(w, dead)
    requires w.frames[Top(w)].core.waiting.Some? && w.frames[Top(w)].core.waiting.value in dead
    ensures LetGoOf(w, e, Top(w))
  {
    var g := w.frames[Top(w)].core.waiting.value;
    assert WaiterOK(w, Top(w)) && PlaceOK(w, g);
  }

  lemma LiveOne(h: Handle, dead: set<Handle>)
    ensures Live([Some(h)], dead) == if h in dead then [] else [h]
  {
    assert [Some(h)][1..] == [];
  }

  /** What the scheduler holds after an unwinding: the waiter is queued unless it is among the dead. */
  lemma UnwoundLive(q: seq<Entry>, waiting: Entry, kept: Entry, dead: set<Handle>)
    requires kept == if waiting.Some? && waiting.value in dead then None else waiting
    ensures Live(CancelAll(q, dead) + (if kept.Some? then [kept] else []), {})
         == Live(q + (if waiting.Some? then [waiting] else []), dead)
  {
    StruckOut(q, dead);
    LiveConcat(CancelAll(q, dead), if kept.Some? then [kept] else [], {});
    LiveConcat(q, if waiting.Some? then [waiting] else [], dead);
    if waiting.Some? {
      LiveOne(waiting.value, dead);
      LiveOne(waiting.value, {});
    }
  }

  lemma ReturnedQueueIs(w: World, u: World, dead: set<Handle>)
    requires Running(w) && u.queue == w.queue + Wakes(w.frames[Top(w)].core)
    ensures Live(Erase(u, dead).queue, {}) == Live(w.queue + Wakes(w.frames[Top(w)].core), dead)
  {
    StruckOut(u.queue, dead);
  }

  /** Whether the waiter of the running coroutine is still registered after the unwinding. */
  lemma KeptWaiter(w: World, e: Event)
    requires Inv(w) && Running(w) && Top(w) !in Gone(w, e) && NoneLeftBehind(w, Gone(w, e))
    ensures var waiting := w.frames[Top(w)].core.waiting;
            Erase(w, Gone(w, e)).frames[Top(w)].core.waiting
            == if waiting.Some? && waiting.value in Gone(w, e) then None else waiting
  {
    var dead, waiting := Gone(w, e), w.frames[Top(w)].core.waiting;
    SurvivorIs(w, dead, Top(w), LetGoOf(w, e, Top(w)));
    assert CoreOK(w.frames[Top(w)]);
    if LetGoOf(w, e, Top(w)) {
      WaiterDies(w, e, dead);
    } else if waiting.Some? && waiting.value in dead {
      DyingWaiterIsLetGo(w, e, dead);
    }
  }

  lemma UnwoundQueueIs(w: World, e: Event, w': World)
    requires Inv(w) && Running(w) && Top(w) !in Gone(w, e) && NoneLeftBehind(w, Gone(w, e))
    requires w'.queue == Erase(w, Gone(w, e)).queue + Wakes(Erase(w, Gone(w, e)).frames[Top(w)].core)
    ensures Live(w'.queue, {}) == Live(w.queue + Wakes(w.frames[Top(w)].core), Gone(w, e))
  {
    KeptWaiter(w, e);
    UnwoundLive(w.queue, w.frames[Top(w)].core.waiting, Erase(w, Gone(w, e)).frames[Top(w)].core.waiting, Gone(w, e));
  }

  lemma FinishQueue(w: World, o: Outcome<Value>, locals: set<Handle>)
    requires Inv(w) && Enabled(w, Finish(o, locals)) && Inv(Concluded(w, o, locals))
    ensures var w', dead := Concluded(w, o, locals), Residents(w, locals);
            && Buried(w, w', dead)
            && Live(w'.queue, {}) == Live(w.queue + Wakes(w.frames[Top(w)].core), dead)
  {
    var e, dead := Finish(o, locals), Residents(w, locals);
    KidsExist(w, Top(w));
    if o.Thrown? {
      InvIsSettled(w);
      AllDoomedAreResidents(w, locals);
      RecursiveDestructionErasesAll(w, locals, {});
      EndsOnlyTop(Erase(w, dead), o, None);
      BuriedFirst(w, Concluded(w, o, locals), dead);
      UnwoundQueueIs(w, e, Concluded(w, o, locals));
    } else {
      var u := Ends(w, o);
      EndsKeeps(w, o);
      InvIsSettled(u);
      EndsIsEnded(w, o, locals);
      EndedResidents(w, e, u, locals);
      AllDoomedAreResidents(u, locals);
      RecursiveDestructionErasesAll(u, locals, {});
      EndsOnlyTop(w, o, None);
      BuriedLast(w, u, dead);
      ReturnedQueueIs(w, u, dead);
    }
  }

  lemma FinishGeneratorQueue(w: World, error: Option<Exception>, locals: set<Handle>)
    requires Inv(w) && Enabled(w, FinishGenerator(error, locals)) && Inv(ConcludedGenerator(w, error, locals))
    ensures var w', dead := ConcludedGenerator(w, error, locals), Residents(w, locals);
            && Buried(w, w', dead)
            && Live(w'.queue, {}) == Live(w.queue + Wakes(w.frames[Top(w)].core), dead)
  {
    var e, dead := FinishGenerator(error, locals), Residents(w, locals);
    KidsExist(w, Top(w));
    if error.Some? {
      InvIsSettled(w);
      AllDoomedAreResidents(w, locals);
      RecursiveDestructionErasesAll(w, locals, {});
      ErasedIsGenerator(w, e);
      EndsOnlyTop(Erase(w, dead), Thrown(error.value), error);
      BuriedFirst(w, ConcludedGenerator(w, error, locals), dead);
      UnwoundQueueIs(w, e, ConcludedGenerator(w, error, locals));
    } else {
      var u := EndsGenerator(w, error);
      EndsGeneratorKeeps(w, error);
      InvIsSettled(u);
      EndsGeneratorIsEnded(w, error, locals);
      EndedResidents(w, e, u, locals);
      AllDoomedAreResidents(u, locals);
      RecursiveDestructionErasesAll(u, locals, {});
      EndsOnlyTop(w, Value(0), error);
      BuriedLast(w, u, dead);
      ReturnedQueueIs(w, u, dead);
    }
  }

  /** What the coroutine that has ended leaves in its core. */
  predicate Left(e: Event, x: Frame) {
    && x.place.AtEnd? && x.core.phase.Finished? && x.core.waiting == None
    && match e
       case Finish(o, _) => x.core.slot == Some(o)
       case FinishGenerator(error, _) => x.core.slot == if error.Some? then Some(Thrown(error.value)) else None
       case _ => false
  }

  lemma PlainLeaves(w: World, e: Event, w': World, t: Handle)
    requires e.Finish? && w.stack != [] && t == Top(w) && t in w.frames && t in w'.frames && CoreFollows(w, e, w', t)
    ensures w'.frames[t].core.phase.Finished? && w'.frames[t].core.slot == Some(e.o)
  {
    FinishThen(w, e, t);
  }

  lemma GeneratorLeaves(w: World, e: Event, w': World, t: Handle)
    requires e.FinishGenerator? && w.stack != [] && t == Top(w) && t in w.frames && t in w'.frames
    requires w.frames[t].kind.Gen? && w'.frames[t].kind.Gen? && GenFollows(w, e, w', t)
    requires w.frames[t].core.slot == None
    ensures w'.frames[t].core.phase.Finished?
    ensures w'.frames[t].core.slot == if e.error.Some? then Some(Thrown(e.error.value)) else None
  {
    FinishThen(w, e, t);
  }

  lemma TopLeaves(w: World, e: Event, w': World)
    requires Inv(w) && Callable(w, e) && (e.Finish? || e.FinishGenerator?) && Composed(w, e, w') && Inv(w')
    requires Top(w) in w'.frames
    ensures Left(e, w'.frames[Top(w)])
  {
    var t := Top(w);
    FinishStack(w, e);
    FinishPlace(w, e, t);
    RunningIsEmpty(w);
    assert CoreOK(w'.frames[t]);
    if e.Finish? {
      PlainLeaves(w, e, w', t);
    } else {
      GeneratorLeaves(w, e, w', t);
    }
  }

  /** A coroutine ends: exactly the coroutines that live in its locals die, and their handles are gone from
      everywhere; its outcome is in its core; and the scheduler holds what it held, and behind it the
      coroutine that has waited for it, except for the dead. */
  lemma EndBuriesExactly(w: World, e: Event)
    requires Inv(w) && Enabled(w, e) && (e.Finish? || e.FinishGenerator?)
    ensures var w', dead := Step(w, e), Residents(w, e.locals);
            && Buried(w, w', dead)
            && Live(w'.queue, {}) == Live(w.queue + Wakes(w.frames[Top(w)].core), dead)
            && w'.stack == w.stack[..|w.stack| - 1]
            && (Top(w) in w'.frames ==> Left(e, w'.frames[Top(w)]))
            && forall f :: f in w'.frames && f != Top(w) ==> w'.frames[f].place == w.frames[f].place
  {
    StepKeeps(w, e);
    StepComposes(w, e);
    if e.Finish? {
      FinishQueue(w, e.o, e.locals);
    } else {
      FinishGeneratorQueue(w, e.error, e.locals);
    }
    EndMoves(w, e, Step(w, e));
    if Top(w) in Step(w, e).frames {
      TopLeaves(w, e, Step(w, e));
    }
  }

  lemma EndMoves(w: World, e: Event, w': World)
    requires (e.Finish? || e.FinishGenerator?) && w.stack != [] && Moved(w, e, w')
    ensures w'.stack == w.stack[..|w.stack| - 1]
    ensures forall f :: f in w'.frames && f != Top(w) ==> w'.frames[f].place == w.frames[f].place
  {
    FinishStack(w, e);
  }
}
