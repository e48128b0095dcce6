/** What the invariant means for those who use the runtime. */
module RuntimeTheorems {
  import opened Wrappers
  import opened Schedulers
  import opened Cores
  import opened Generators
  import opened Channels
  import Selects
  import opened Runtime
  import opened Destruction
  import opened RuntimeInvariant
  import opened RuntimeSteps
  import opened RuntimeSafety

  // ---- handles --------------------------------------------------------------------------------------

  /** A place in memory where a coroutine handle can be kept for later resumption. */
  datatype Site =
    | InScheduler(i: nat)
    | InCore(p: Handle)
    | InRing(c: nat, side: Side, i: nat)

  predicate Holds(w: World, s: Site, h: Handle) {
    match s
    case InScheduler(i) => i < |w.queue| && w.queue[i] == Some(h)
    case InCore(p) => p in w.frames && w.frames[p].core.waiting == Some(h)
    case InRing(c, side, i) => c in w.chans && i < |Ring(w.chans[c], side)| && Ring(w.chans[c], side)[i] == Some(h)
  }

  /** Coroutines that wait for something to happen inside the runtime, and have something to wait for. */
  predicate Expectant(w: World, f: Handle)
    requires f in w.frames
  {
    match w.frames[f].place
    case OnStack => false
    case AtEnd => false
    case AtYield => !(w.frames[f].kind.Gen? && w.frames[f].kind.suspended)
    case AtExternal(pending) => !pending
    case AtSelect(_, joined) => joined != {}
    case _ => true
  }

  ghost predicate HandlesSafe(w: World) {
    && (forall s, h :: Holds(w, s, h) ==>
          h in w.frames && w.frames[h].Suspended() && !w.frames[h].core.phase.Finished?)
    && (forall s, t, h :: Holds(w, s, h) && Holds(w, t, h) && h in w.frames && !w.frames[h].place.AtSelect? ==> s == t)
    && (forall h :: h in w.frames && Expectant(w, h) ==> exists s :: Holds(w, s, h))
  }

  lemma OccTwice(q: seq<Entry>, i: nat, j: nat, h: Handle)
    requires i < j < |q| && q[i] == Some(h) && q[j] == Some(h)
    ensures Occ(q, h) >= 2
  {
    OccSplit(q, i + 1, h);
    assert q[..i + 1][i] == Some(h) && q[i + 1..][j - i - 1] == Some(h);
    assert Some(h) in q[..i + 1] && Some(h) in q[i + 1..];
  }

  lemma Found(q: seq<Entry>, h: Handle) returns (i: nat)
    requires Occ(q, h) > 0
    ensures i < |q| && q[i] == Some(h)
  {
    assert Some(h) in q;
    i :| i < |q| && q[i] == Some(h);
  }

  /** A handle that is kept somewhere is that of a suspended coroutine whose awaiter knows the place. */
  lemma HeldIsSuspended(w: World, s: Site, h: Handle)
    requires Inv(w) && Holds(w, s, h)
    ensures h in w.frames && w.frames[h].Suspended() && !w.frames[h].core.phase.Finished?
    ensures s.InScheduler? ==> Occ(w.queue, h) > 0
    ensures s.InCore? ==> Registers(w.frames[h], s.p) && Registrations(w, s.p, h) == 1
    ensures s.InRing? ==> w.frames[h].place == AtChannel(s.c, s.side) && Occ(Ring(w.chans[s.c], s.side), h) > 0
  {
    match s
    case InScheduler(i) => assert Some(h) in w.queue;
    case InCore(p) => assert WaiterOK(w, p);
    case InRing(c, side, i) => assert Some(h) in Ring(w.chans[c], side);
    assert PlaceOK(w, h) && CoreOK(w.frames[h]);
  }

  lemma HeldOnce(w: World, s: Site, t: Site, h: Handle)
    requires Inv(w) && Holds(w, s, h) && Holds(w, t, h) && h in w.frames && !w.frames[h].place.AtSelect?
    ensures s == t
  {
    HeldIsSuspended(w, s, h);
    HeldIsSuspended(w, t, h);
    assert PlaceOK(w, h);
    if s.InScheduler? && t.InScheduler? && s != t {
      OccTwice(w.queue, if s.i < t.i then s.i else t.i, if s.i < t.i then t.i else s.i, h);
    }
    if s.InRing? && t.InRing? && s != t {
      OccTwice(Ring(w.chans[s.c], s.side), if s.i < t.i then s.i else t.i, if s.i < t.i then t.i else s.i, h);
    }
  }

  lemma ExpectantIsHeld(w: World, h: Handle) returns (s: Site)
    requires Inv(w) && h in w.frames && Expectant(w, h)
    ensures Holds(w, s, h)
  {
    assert PlaceOK(w, h);
    if Occ(w.queue, h) > 0 {
      var i := Found(w.queue, h);
      return InScheduler(i);
    }
    match w.frames[h].place
    case AtPromise(p) => s := InCore(p);
    case AtGenerator(p) => s := InCore(p);
    case AtSelect(_, joined) =>
      var p :| p in joined;
      s := InCore(p);
    case AtChannel(c, side) =>
      var i := Found(Ring(w.chans[c], side), h);
      s := InRing(c, side, i);
  }

  lemma InvIsSafe(w: World)
    requires Inv(w)
    ensures HandlesSafe(w)
  {
    forall s, h | Holds(w, s, h)
      ensures h in w.frames && w.frames[h].Suspended() && !w.frames[h].core.phase.Finished?
    {
      HeldIsSuspended(w, s, h);
    }
    forall s, t, h | Holds(w, s, h) && Holds(w, t, h) && h in w.frames && !w.frames[h].place.AtSelect?
      ensures s == t
    {
      HeldOnce(w, s, t, h);
    }
    forall h | h in w.frames && Expectant(w, h)
      ensures exists s :: Holds(w, s, h)
    {
      var s := ExpectantIsHeld(w, h);
    }
  }

  /** In every run: a handle that is kept anywhere is that of a suspended, unfinished coroutine that
      has not been destroyed; outside a select set it is kept in one place only; and no coroutine
      that waits for something is forgotten. */
  lemma EveryHandleIsSafe(chans: map<nat, Chan<Value>>, events: seq<Event>, w: World)
    requires Fresh(chans) && Reaches(Empty(chans), events, w)
    ensures HandlesSafe(w)
  {
    EveryRunIsSafe(chans, events, w);
    InvIsSafe(w);
  }

  // ---- waking ---------------------------------------------------------------------------------------

  /** What `f` waits for has not happened yet. */
  predicate StillWaits(w: World, f: Handle)
    requires f in w.frames
  {
    match w.frames[f].place
    case AtPromise(p) => p in w.frames && w.frames[p].core.waiting == Some(f) && !w.frames[p].core.phase.Finished?
    case AtGenerator(g) =>
      && g in w.frames && w.frames[g].kind.Gen? && w.frames[g].core.waiting == Some(f)
      && !AwaitReady(w.frames[g].AsGen())
    case AtSelect(ps, joined) =>
      forall p :: p in ps ==>
        p in w.frames && if p in joined then w.frames[p].core == Core(WaitedOn, Some(f), None) else Spent(w, p)
    case AtYield => w.frames[f].kind.Gen? && w.frames[f].kind.suspended
    case AtChannel(c, side) => c in w.chans && Some(f) in Ring(w.chans[c], side)
    case AtExternal(pending) => pending
    case OnStack => false
    case AtEnd => false
  }

  /** A coroutine is scheduled as soon as what it waits for has happened: a suspended coroutine that is
      not scheduled still waits, and with a select set, for every member. */
  lemma NoWakeupIsLost(w: World, f: Handle)
    requires Inv(w) && f in w.frames && w.frames[f].Suspended()
    ensures Occ(w.queue, f) == 0 <==> StillWaits(w, f)
  {
    assert PlaceOK(w, f) && CoreOK(w.frames[f]);
    match w.frames[f].place
    case AtPromise(p) => assert CoreOK(w.frames[p]);
    case AtGenerator(g) => assert CoreOK(w.frames[g]);
    case AtSelect(ps, joined) =>
      forall p | p in ps
        ensures CoreOK(w.frames[p])
      {
      }
    case _ =>
  }

  /** When the scheduler has drained, only coroutines whose awaited promise, generator, or select set
      has nothing for them are left waiting. */
  lemma DrainedMeansIdle(w: World)
    requires Inv(w) && NextHandle(w.queue, DoneSet(w)) == None
    ensures forall f :: f in w.frames && w.frames[f].Suspended() ==> StillWaits(w, f)
  {
    forall f | f in w.frames && w.frames[f].Suspended()
      ensures StillWaits(w, f)
    {
      assert PlaceOK(w, f);
      RestCounts(w, f);
      assert AfterNext(w.queue, DoneSet(w)) == [];
      NoWakeupIsLost(w, f);
    }
  }

  // ---- select sets ------------------------------------------------------------------------------------

  /** The coroutine that runs next is kept nowhere any more: not in the scheduler, not in a core, not in
      a channel, even if several members of its select set had finished. */
  lemma ResumedIsNowhere(w: World, h: Handle, s: Site)
    requires Inv(w) && NextHandle(w.queue, DoneSet(w)) == Some(h)
    ensures h in w.frames && w.frames[h].Suspended() && Running(RunNext(w)) && Top(RunNext(w)) == h
    ensures !Holds(RunNext(w), s, h)
  {
    NextIsSuspended(w, h);
    RunNextKeeps(w);
    assert PlaceOK(RunNext(w), h) by {
      assert h in RunNext(w).frames;
    }
    if Holds(RunNext(w), s, h) {
      HeldIsSuspended(RunNext(w), s, h);
    }
  }

  function MemberCores(w: World, ps: seq<Handle>): (cs: seq<Core<Value>>)
    requires forall p :: p in ps ==> p in w.frames
  {
    seq(|ps|, i requires 0 <= i < |ps| => w.frames[ps[i]].core)
  }

  /** The members that are ready have been waited for, are over, and have not been fetched. */
  lemma ReadyAreFinished(w: World, h: Handle, ps: seq<Handle>, joined: set<Handle>)
    requires h in w.frames && w.frames[h].place == AtSelect(ps, joined) && PlaceOK(w, h) && CoresOK(w)
    ensures forall p :: p in ps ==>
              p in w.frames && (w.frames[p].core.Ready() <==> p in joined && Over(w, p) && !Spent(w, p))
  {
    forall p | p in ps
      ensures p in w.frames && (w.frames[p].core.Ready() <==> p in joined && Over(w, p) && !Spent(w, p))
    {
      assert CoreOK(w.frames[p]);
    }
  }

  lemma ReadyMembersAre(w: World, ps: seq<Handle>, cs: seq<Core<Value>>)
    requires |cs| == |ps| && forall i :: 0 <= i < |ps| ==> ps[i] in w.frames && cs[i] == w.frames[ps[i]].core
    ensures Selects.AnyReady(cs) <==> exists p :: p in ps && w.frames[p].core.Ready()
  {
    if Selects.AnyReady(cs) {
      var i :| 0 <= i < |cs| && cs[i].Ready();
      assert ps[i] in ps;
    }
    if p :| p in ps && w.frames[p].core.Ready() {
      var i :| 0 <= i < |ps| && ps[i] == p;
      assert cs[i].Ready();
    }
  }

  /** A select set is resumed because a member has finished. Its list of ready members holds, in index
      order, exactly those that have finished since it suspended and that nobody else has fetched the
      result of; so it is empty only if somebody else has fetched them all. */
  lemma NoSpuriousWakeup(w: World, h: Handle)
    requires Inv(w) && NextHandle(w.queue, DoneSet(w)) == Some(h)
    requires h in w.frames && w.frames[h].place.AtSelect?
    ensures forall p :: p in w.frames[h].place.ps ==> p in w.frames
    ensures var place := w.frames[h].place;
            var ready := Selects.ReadyMembers(MemberCores(w, place.ps));
            && (exists p :: p in place.joined && Over(w, p))
            && (ready == [] <==> forall p :: p in place.joined && Over(w, p) ==> Spent(w, p))
            && (forall i: nat :: i in ready <==>
                  i < |place.ps| && place.ps[i] in place.joined && Over(w, place.ps[i]) && !Spent(w, place.ps[i]))
  {
    NextIsSuspended(w, h);
    assert PlaceOK(w, h);
    var ps, joined := w.frames[h].place.ps, w.frames[h].place.joined;
    ReadyAreFinished(w, h, ps, joined);
    var cs := MemberCores(w, ps);
    ReadyMembersAre(w, ps, cs);
    Selects.NothingListed(cs);
    assert forall i :: 0 <= i < |ps| ==> ps[i] in ps;
  }

  // ---- destroying generators ---------------------------------------------------------------------------

  /** A finished core belongs to a coroutine that is over or parked at a co_yield, so it is not
      scheduled: destroyCoroutine(), which skips the cancellation then, does the same as
      cancelGenerator(), which never does. */
  lemma FinishedIsNotScheduled(w: World, g: Handle)
    requires Inv(w) && g in w.frames
    ensures w.frames[g].core.phase.Finished? ==>
              && (w.frames[g].place.AtEnd? || (w.frames[g].place.AtYield? && w.frames[g].kind.suspended))
              && Some(g) !in w.queue
    ensures Destroy(w, g, true) == Destroy(w, g, false)
  {
    assert CoreOK(w.frames[g]) && PlaceOK(w, g);
    if w.frames[g].core.phase.Finished? {
      assert Occ(w.queue, g) == 0;
      CancelAbsent(w.queue, g);
    }
    assert Unhook(w, g, true) == Unhook(w, g, false);
  }

  /** Move-assignment to a generator leaves no handle of the old generator anywhere. */
  lemma OverwrittenIsGone(w: World, g: Handle, s: Site)
    requires Inv(w) && Enabled(w, Overwrite(g))
    ensures !Holds(Step(w, Overwrite(g)), s, g) && g !in Step(w, Overwrite(g)).frames
  {
    StepKeeps(w, Overwrite(g));
    if Holds(Step(w, Overwrite(g)), s, g) {
      HeldIsSuspended(Step(w, Overwrite(g)), s, g);
    }
  }

  // ---- assertions in the code ----------------------------------------------------------------------------

  /** What the code asserts, or throws an exception for, when `e` happens. */
  predicate Asserts(w: World, e: Event) {
    match e
    case Await(p) =>
      p in w.frames && (w.frames[p].core.Ready() || w.frames[p].core.Stale() || w.frames[p].core.phase.Init?)
    case AwaitGenerator(g) =>
      g in w.frames && w.frames[g].core.waiting == None && !w.frames[g].core.phase.WaitedOn?
    case Select(ps) =>
      && (forall p :: p in ps ==> p in w.frames)
      && forall p :: p in ps ==> w.frames[p].core.Ready() || w.frames[p].core.Stale() || w.frames[p].core.phase.Init?
    case CoYield(_) => Running(w) && w.frames[Top(w)].core.slot == None && w.frames[Top(w)].kind == Gen(false, false)
    case Finish(_, _) => Running(w) && w.frames[Top(w)].core.slot == None && !w.frames[Top(w)].core.phase.Finished?
    case FinishGenerator(_, _) =>
      Running(w) && w.frames[Top(w)].core.slot == None && w.frames[Top(w)].kind == Gen(false, false)
    case _ => true
  }

  lemma RunningIsEmpty(w: World)
    requires Inv(w) && Running(w)
    ensures w.frames[Top(w)].core.slot == None && !w.frames[Top(w)].core.phase.Finished?
    ensures w.frames[Top(w)].kind.Plain? || w.frames[Top(w)].kind == Gen(false, false)
  {
    TopIsReady(w);
  }

  /** None of the assertions about cores and generators fails; in particular, a generator never
      overwrites a value that has not been fetched. */
  lemma AssertionsHold(w: World, e: Event)
    requires Inv(w) && Enabled(w, e)
    ensures Asserts(w, e)
  {
    assert CoresOK(w);
    if e.CoYield? || e.Finish? || e.FinishGenerator? {
      RunningIsEmpty(w);
    }
  }

  /** A coroutine that has waited for one promise finds it finished when it runs again; if its result
      has not been fetched by somebody else, it finds the result. */
  lemma ResumedFindsItsPromiseFinished(w: World, h: Handle)
    requires Inv(w) && NextHandle(w.queue, DoneSet(w)) == Some(h)
    requires h in w.frames && w.frames[h].place.AtPromise?
    ensures var p := w.frames[h].place.p;
            && Over(w, p) && Fetched(w.frames[p].core) != Err(Unfulfilled)
            && (Fetched(w.frames[p].core) == Err(FinishedBefore) <==> Spent(w, p))
  {
    NextIsSuspended(w, h);
    assert PlaceOK(w, h) && CoreOK(w.frames[w.frames[h].place.p]);
  }
}
