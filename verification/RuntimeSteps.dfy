/** The other pieces of steps keep the invariant as well. */
module RuntimeSteps {
  import opened Wrappers
  import opened Schedulers
  import opened Cores
  import opened Generators
  import opened Channels
  import opened Runtime
  import opened Destruction
  import opened RuntimeInvariant

  // ---- fetching results ---------------------------------------------------------------------------

  /** Only slots have been emptied. */
  ghost predicate SlotsEmptied(w: World, w': World) {
    && w'.frames.Keys == w.frames.Keys
    && w'.queue == w.queue && w'.chans == w.chans && w'.stack == w.stack
    && (forall f :: f in w.frames ==>
          && w'.frames[f].place == w.frames[f].place && w'.frames[f].kind == w.frames[f].kind
          && w'.frames[f].owner == w.frames[f].owner
          && w'.frames[f].core.phase == w.frames[f].core.phase && w'.frames[f].core.waiting == w.frames[f].core.waiting
          && (w'.frames[f].core.slot == w.frames[f].core.slot || w'.frames[f].core.slot == None))
  }

  lemma SlotsEmptiedFrame(w: World, w': World, f: Handle)
    requires SlotsEmptied(w, w') && f in w.frames
    requires CoreOK(w.frames[f]) && OwnerOK(w, f) && WaiterOK(w, f) && PlaceOK(w, f)
    ensures CoreOK(w'.frames[f]) && OwnerOK(w', f) && WaiterOK(w', f) && PlaceOK(w', f)
  {
    PlaceKept(w, w', f);
  }

  lemma SlotsEmptiedEntries(w: World, w': World)
    requires SlotsEmptied(w, w') && EntriesOK(w) && StackOK(w)
    ensures EntriesOK(w') && StackOK(w')
  {
  }

  lemma SlotsEmptiedKeeps(w: World, w': World)
    requires Inv(w) && SlotsEmptied(w, w')
    ensures Inv(w')
  {
    SlotsEmptiedEntries(w, w');
    forall f | f in w'.frames
      ensures CoreOK(w'.frames[f]) && OwnerOK(w', f) && WaiterOK(w', f) && PlaceOK(w', f)
    {
      SlotsEmptiedFrame(w, w', f);
    }
  }

  // ---- starting, moving, calling back ---------------------------------------------------------------

  /** Owners may have changed, and one running frame may be new. */
  ghost predicate Reowned(w: World, w': World, new': set<Handle>) {
    && w'.frames.Keys == w.frames.Keys + new' && w.frames.Keys !! new'
    && w'.queue == w.queue && w'.chans == w.chans
    && (forall f :: f in w.frames ==> w'.frames[f] == w.frames[f].(owner := w'.frames[f].owner))
    && (forall f :: f in w'.frames ==> OwnerOK(w', f))
    && (forall f :: f in new' ==> w'.frames[f].core == NewCore() && w'.frames[f].place.OnStack?
                                  && (w'.frames[f].kind.Plain? || w'.frames[f].kind == Gen(false, false)))
    && (forall f :: f in w.stack || f in new' ==> f in w'.stack)
    && StackOK(w')
  }

  lemma ReownedKeeps(w: World, w': World, new': set<Handle>)
    requires Inv(w) && Reowned(w, w', new')
    ensures Inv(w')
  {
    forall f | f in w'.frames
      ensures CoreOK(w'.frames[f]) && WaiterOK(w', f) && PlaceOK(w', f)
    {
      if f in w.frames {
        assert CoreOK(w.frames[f]) && WaiterOK(w, f) && PlaceOK(w, f);
        PlaceKept(w, w', f);
      } else {
        assert Some(f) !in w.queue;
      }
    }
  }

  function CalledBack(w: World, h: Handle): World
    requires h in w.frames
  {
    Enqueued(w.(frames := w.frames[h := w.frames[h].(place := AtExternal(false))]), [Some(h)])
  }

  lemma CallbackFrame(w: World, h: Handle, f: Handle)
    requires h in w.frames && w.frames[h].place == AtExternal(true) && PlaceOK(w, h) && f in w.frames
    requires CoreOK(w.frames[f]) && OwnerOK(w, f) && WaiterOK(w, f) && PlaceOK(w, f)
    ensures CoreOK(CalledBack(w, h).frames[f]) && OwnerOK(CalledBack(w, h), f) && WaiterOK(CalledBack(w, h), f)
    ensures PlaceOK(CalledBack(w, h), f)
  {
    if f != h {
      PlaceKept(w, CalledBack(w, h), f);
    }
  }

  lemma CallbackKeeps(w: World, h: Handle)
    requires Inv(w) && h in w.frames && w.frames[h].place == AtExternal(true)
    ensures Inv(CalledBack(w, h))
  {
    var w' := CalledBack(w, h);
    forall f | f in w'.frames
      ensures CoreOK(w'.frames[f]) && OwnerOK(w', f) && WaiterOK(w', f) && PlaceOK(w', f)
    {
      CallbackFrame(w, h, f);
    }
    CallbackEntries(w, h);
  }

  lemma CallbackEntries(w: World, h: Handle)
    requires EntriesOK(w) && StackOK(w) && h in w.frames && w.frames[h].place == AtExternal(true)
    ensures EntriesOK(CalledBack(w, h)) && StackOK(CalledBack(w, h))
  {
  }

  // ---- completing -----------------------------------------------------------------------------------

  /** The top coroutine has put something into its core, enqueued its waiter, and left the stack. */
  ghost predicate Completion(w: World, w': World) {
    && Running(w)
    && w'.frames.Keys == w.frames.Keys && w'.chans == w.chans
    && w'.stack == w.stack[..|w.stack| - 1]
    && w'.queue == w.queue + Wakes(w.frames[Top(w)].core)
    && (forall f :: f in w.frames && f != Top(w) ==> w'.frames[f] == w.frames[f])
    && var x, x' := w.frames[Top(w)], w'.frames[Top(w)];
       && x'.owner == x.owner && (x'.kind.Plain? <==> x.kind.Plain?)
       && x'.core.phase.Finished? && x'.core.waiting == None
       && (x'.place.AtEnd? || (x'.place.AtYield? && x'.kind.Gen? && x'.kind.suspended))
       && CoreOK(x')
  }

  lemma WokenPlace(w: World, w': World, f: Handle)
    requires Completion(w, w') && f in w.frames && f != Top(w) && PlaceOK(w, f)
    requires w.frames[Top(w)].core.waiting == Some(f) && Registers(w.frames[f], Top(w))
    requires w.frames[Top(w)].place.OnStack? && CoreOK(w.frames[Top(w)])
    ensures PlaceOK(w', f)
  {
    var t := Top(w);
    OccAppend(w.queue, [Some(f)], f);
    match w.frames[f].place
    case AtSelect(ps, joined) =>
      assert t in joined && t in ps && Over(w', t);
      forall p | p in ps
        ensures Spent(w', p) || (p in joined && (Over(w', p) || Registrations(w', p, f) == 1))
      {
      }
    case _ =>
  }

  lemma CompletionPlace(w: World, w': World, f: Handle)
    requires Completion(w, w') && StackOK(w) && f in w.frames && PlaceOK(w, f) && WaiterOK(w, Top(w))
    requires w.frames[Top(w)].place.OnStack? && CoreOK(w.frames[Top(w)])
    ensures PlaceOK(w', f)
  {
    LeaveStack(w, AtEnd);
    var t := Top(w);
    OccAppend(w.queue, Wakes(w.frames[t].core), f);
    if f == t {
    } else if w.frames[t].core.waiting == Some(f) {
      WokenPlace(w, w', f);
    } else {
      OnlyTheWaiterBorrows(w, t, f);
      PlaceKept(w, w', f);
    }
  }

  /** Whoever refers to a running coroutine that is not a generator is registered with it. */
  lemma OnlyTheWaiterBorrows(w: World, t: Handle, f: Handle)
    requires t in w.frames && w.frames[t].place.OnStack? && CoreOK(w.frames[t])
    requires f in w.frames && PlaceOK(w, f)
    ensures w.frames[t].kind.Plain? && Borrows(w, f, t) ==> w.frames[t].core.waiting == Some(f)
  {
  }

  lemma CompletionFrame(w: World, w': World, f: Handle)
    requires Completion(w, w') && StackOK(w) && f in w.frames
    requires w.frames[Top(w)].place.OnStack?
    requires CoreOK(w.frames[f]) && OwnerOK(w, f) && WaiterOK(w, f)
    ensures CoreOK(w'.frames[f]) && OwnerOK(w', f) && WaiterOK(w', f)
  {
  }

  lemma CompletionEntries(w: World, w': World)
    requires Completion(w, w') && StackOK(w) && EntriesOK(w) && WaiterOK(w, Top(w))
    requires w.frames[Top(w)].place.OnStack?
    ensures EntriesOK(w') && StackOK(w')
  {
    LeaveStack(w, AtEnd);
  }

  lemma CompletionLinks(w: World, w': World)
    requires Completion(w, w') && LinksOK(w)
    ensures LinksOK(w')
  {
    assert WaiterOK(w, Top(w));
    TopUnregistered(w);
    CompletionEntries(w, w');
    forall f | f in w'.frames
      ensures CoreOK(w'.frames[f]) && OwnerOK(w', f) && WaiterOK(w', f)
    {
      CompletionFrame(w, w', f);
    }
  }

  lemma CompletionKeeps(w: World, w': World)
    requires Inv(w) && Completion(w, w')
    ensures Inv(w')
  {
    TopUnregistered(w);
    CompletionLinks(w, w');
    forall f | f in w'.frames
      ensures PlaceOK(w', f)
    {
      assert PlaceOK(w, f) && WaiterOK(w, Top(w)) && CoreOK(w.frames[Top(w)]);
      CompletionPlace(w, w', f);
    }
  }

  // ---- channels ---------------------------------------------------------------------------------------

  /** An item has moved, and the first waiter of one ring has been woken. */
  ghost predicate Waking(w: World, w': World, c: nat, side: Side) {
    && c in w.chans && w'.chans.Keys == w.chans.Keys
    && w'.frames == w.frames && w'.stack == w.stack
    && w'.queue == w.queue + Woken(Ring(w.chans[c], side))
    && Ring(w'.chans[c], side) == AfterWaking(Ring(w.chans[c], side))
    && (forall d, s :: d in w.chans && !(d == c && s == side) ==> Ring(w'.chans[d], s) == Ring(w.chans[d], s))
  }

  lemma WakingPlace(w: World, w': World, c: nat, side: Side, f: Handle)
    requires Waking(w, w', c, side) && EntriesOK(w) && f in w.frames && PlaceOK(w, f)
    ensures PlaceOK(w', f)
  {
    var ring := Ring(w.chans[c], side);
    OccNext(ring, {}, f);
    OccAppend(w.queue, Woken(ring), f);
    if FirstWaiter(ring) == Some(f) {
      assert Some(f) in ring by {
        assert Occ(ring, f) > 0;
      }
      assert w.frames[f].place == AtChannel(c, side);
    } else {
      PlaceKept(w, w', f);
    }
  }

  lemma WakingEntries(w: World, w': World, c: nat, side: Side)
    requires Waking(w, w', c, side) && EntriesOK(w)
    ensures EntriesOK(w')
  {
    forall d, s, h | d in w'.chans && Some(h) in Ring(w'.chans[d], s)
      ensures Some(h) in Ring(w.chans[d], s)
    {
      OccNext(Ring(w.chans[c], side), {}, h);
      assert d == c && s == side ==> Occ(AfterWaking(Ring(w.chans[c], side)), h) > 0;
    }
    var ring := Ring(w.chans[c], side);
    if FirstWaiter(ring).Some? {
      OccNext(ring, {}, FirstWaiter(ring).value);
      assert Occ(ring, FirstWaiter(ring).value) > 0;
    }
  }

  lemma WakingKeeps(w: World, w': World, c: nat, side: Side)
    requires Inv(w) && Waking(w, w', c, side)
    ensures Inv(w')
  {
    WakingEntries(w, w', c, side);
    forall f | f in w'.frames
      ensures CoreOK(w'.frames[f]) && OwnerOK(w', f) && WaiterOK(w', f) && PlaceOK(w', f)
    {
      assert CoreOK(w.frames[f]) && OwnerOK(w, f) && WaiterOK(w, f) && PlaceOK(w, f);
      WakingPlace(w, w', c, side, f);
    }
  }

  // ---- resuming -----------------------------------------------------------------------------------------

  /** `h` has been taken out of the deque and runs. */
  ghost predicate Scheduled(w: World, w': World, h: Handle) {
    && h in w.frames && w.frames[h].Suspended()
    && w'.frames.Keys == w.frames.Keys && w'.chans == w.chans && w'.stack == w.stack + [h]
    && w'.frames[h].place.OnStack?
    && Occ(w'.queue, h) == 0
    && (forall f :: f in w.frames && f != h ==>
          Occ(w'.queue, f) == Occ(w.queue, f) && w'.frames[f].place == w.frames[f].place)
    && (forall f :: Some(f) in w'.queue ==> Some(f) in w.queue)
  }

  /** Its awaiter has let go of what it was registered with, and may have emptied slots. */
  ghost predicate LetGo(w: World, w': World, h: Handle, f: Handle)
    requires h in w.frames && f in w.frames && f in w'.frames
  {
    && w'.frames[f].kind == w.frames[f].kind && w'.frames[f].owner == w.frames[f].owner
    && var c, c' := w.frames[f].core, w'.frames[f].core;
       && (c'.slot == c.slot || c'.slot == None)
       && if w.frames[h].place.AtSelect? && c.waiting == Some(h)
          then c'.phase == Init && c'.waiting == None
          else c'.phase == c.phase && c'.waiting == c.waiting && c.waiting != Some(h)
  }

  ghost predicate Reactivation(w: World, w': World, h: Handle) {
    Scheduled(w, w', h) && forall f :: f in w.frames ==> LetGo(w, w', h, f)
  }

  lemma ReactivatedFrame(w: World, w': World, h: Handle, f: Handle)
    requires Reactivation(w, w', h) && f in w.frames
    requires CoreOK(w.frames[f]) && OwnerOK(w, f) && WaiterOK(w, f) && PlaceOK(w, f)
    requires f == h && w.frames[h].place.AtYield? ==> !w.frames[h].kind.suspended
    ensures CoreOK(w'.frames[f]) && OwnerOK(w', f) && WaiterOK(w', f)
  {
  }

  lemma ReactivatedPlace(w: World, w': World, h: Handle, f: Handle)
    requires Reactivation(w, w', h) && f in w.frames && CoreOK(w.frames[f]) && PlaceOK(w, f)
    requires forall p :: p in w.frames ==> CoreOK(w.frames[p])
    ensures PlaceOK(w', f)
  {
    if f == h {
      assert w'.stack[|w.stack|] == h;
    } else {
      forall p | p in w.frames && Borrows(w, f, p)
        ensures Remains(w, w', p) && Registrations(w', p, f) == Registrations(w, p, f)
      {
        assert CoreOK(w.frames[p]);
      }
      PlaceKept(w, w', f);
    }
  }

  lemma ReactivatedStack(w: World, w': World, h: Handle)
    requires Reactivation(w, w', h) && StackOK(w)
    ensures StackOK(w')
  {
    forall i | 0 <= i < |w.stack|
      ensures w'.stack[i] == w.stack[i] && w.stack[i] != h
    {
    }
  }

  lemma ReactivatedEntries(w: World, w': World, h: Handle)
    requires Reactivation(w, w', h) && EntriesOK(w) && Occ(w.queue, h) > 0 && PlaceOK(w, h)
    ensures EntriesOK(w')
  {
    forall c, side, g | c in w.chans && Some(g) in Ring(w.chans[c], side)
      ensures g != h
    {
      assert w.frames[g].place == AtChannel(c, side);
      assert Occ(Ring(w.chans[c], side), g) > 0;
    }
  }

  lemma ReactivatedKeeps(w: World, w': World, h: Handle)
    requires Inv(w) && Reactivation(w, w', h) && Occ(w.queue, h) > 0
    ensures Inv(w')
  {
    assert PlaceOK(w, h);
    ReactivatedEntries(w, w', h);
    ReactivatedStack(w, w', h);
    forall f | f in w'.frames
      ensures CoreOK(w'.frames[f]) && OwnerOK(w', f) && WaiterOK(w', f) && PlaceOK(w', f)
    {
      ReactivatedFrame(w, w', h, f);
      ReactivatedPlace(w, w', h, f);
    }
  }

  /** The coroutine that the scheduler returns is suspended, and is taken out of the deque. */
  lemma NextIsSuspended(w: World, h: Handle)
    requires Inv(w) && NextHandle(w.queue, DoneSet(w)) == Some(h)
    ensures h in w.frames && w.frames[h].Suspended() && Occ(w.queue, h) > 0
    ensures w.frames[h].place.AtYield? ==> !w.frames[h].kind.suspended
  {
    OccNext(w.queue, DoneSet(w), h);
    var n := Skipped(w.queue, DoneSet(w));
    assert w.queue[n] == Some(h);
    assert Occ(w.queue, h) > 0;
    assert PlaceOK(w, h) && CoreOK(w.frames[h]);
  }

  lemma RestCounts(w: World, f: Handle)
    requires f in w.frames && PlaceOK(w, f)
    ensures Occ(AfterNext(w.queue, DoneSet(w)), f)
            == Occ(w.queue, f) - if NextHandle(w.queue, DoneSet(w)) == Some(f) then 1 else 0
  {
    OccNext(w.queue, DoneSet(w), f);
    if f in DoneSet(w) {
      assert Occ(w.queue, f) == 0;
      NextHandleNotDone(w.queue, DoneSet(w));
    }
  }

  lemma NextHandleNotDone(q: seq<Entry>, done: set<Handle>)
    ensures NextHandle(q, done).Some? ==> NextHandle(q, done).value !in done
  {
  }

  lemma RestEntries(q: seq<Entry>, done: set<Handle>)
    ensures forall e :: e in AfterNext(q, done) ==> e in q
  {
  }

  lemma RunNextIdle(w: World)
    requires Inv(w) && NextHandle(w.queue, DoneSet(w)) == None
    ensures Inv(RunNext(w))
  {
    var w' := RunNext(w);
    RestEntries(w.queue, DoneSet(w));
    forall f | f in w'.frames
      ensures CoreOK(w'.frames[f]) && OwnerOK(w', f) && WaiterOK(w', f) && PlaceOK(w', f)
    {
      assert CoreOK(w.frames[f]) && OwnerOK(w, f) && WaiterOK(w, f) && PlaceOK(w, f);
      RestCounts(w, f);
      PlaceKept(w, w', f);
    }
  }

  /** The deque that is left for the others when `h` runs again. */
  ghost predicate Dequeued(w: World, rest: World, h: Handle) {
    && rest == w.(queue := rest.queue)
    && (forall f :: f in w.frames ==> Occ(rest.queue, f) == Occ(w.queue, f) - if f == h then 1 else 0)
    && (forall f :: Some(f) in rest.queue ==> Some(f) in w.queue)
  }

  /** What await_resume() does to one frame. */
  ghost predicate ResumptionOf(w: World, h: Handle, f: Handle)
    requires h in w.frames
  {
    var r := Resumption(w, h);
    && f in w.frames && f in r.frames
    && r.frames[f].place == w.frames[f].place && r.frames[f].kind == w.frames[f].kind
    && r.frames[f].owner == w.frames[f].owner
    && (r.frames[f].core.slot == w.frames[f].core.slot || r.frames[f].core.slot == None)
    && var c := w.frames[f].core;
       var released := w.frames[h].place.AtSelect? && f in w.frames[h].place.ps && !c.Ready();
       && r.frames[f].core.phase == (if released then Deregistered(c).phase else c.phase)
       && r.frames[f].core.waiting == (if released then Deregistered(c).waiting else c.waiting)
  }

  lemma ResumptionFrame(w: World, h: Handle, f: Handle)
    requires h in w.frames && f in w.frames
    ensures ResumptionOf(w, h, f)
  {
  }

  /** A coroutine that has been enqueued is not registered with what it has waited for. */
  lemma ScheduledIsUnregistered(w: World, h: Handle)
    requires h in w.frames && PlaceOK(w, h) && Occ(w.queue, h) > 0 && !w.frames[h].place.AtSelect? && WaitersOK(w)
    ensures forall p :: p in w.frames ==> w.frames[p].core.waiting != Some(h)
  {
    forall p | p in w.frames
      ensures w.frames[p].core.waiting != Some(h)
    {
      assert WaiterOK(w, p);
      assert w.frames[p].core.waiting == Some(h) ==> Registrations(w, p, h) == 1;
    }
  }

  lemma ResumePlain(w: World, rest: World, h: Handle)
    requires Dequeued(w, rest, h) && h in w.frames && w.frames[h].Suspended() && !w.frames[h].place.AtSelect?
    requires Occ(rest.queue, h) == 0
    requires forall p :: p in w.frames ==> w.frames[p].core.waiting != Some(h)
    ensures Scheduled(w, Resume(rest, h), h)
    ensures forall f :: f in w.frames ==> LetGo(w, Resume(rest, h), h, f)
  {
    forall f | f in w.frames
      ensures ResumptionOf(rest, h, f)
    {
      ResumptionFrame(rest, h, f);
    }
  }

  /** The members of a select set that have not finished are exactly those that it waits for. */
  lemma SelectedMembers(w: World, h: Handle)
    requires h in w.frames && w.frames[h].place.AtSelect? && PlaceOK(w, h) && WaitersOK(w) && CoresOK(w)
    ensures forall p :: p in w.frames && w.frames[p].core.waiting == Some(h) ==>
              p in w.frames[h].place.ps && w.frames[p].core.phase.WaitedOn? && !w.frames[p].core.Ready()
    ensures forall p :: p in w.frames && p in w.frames[h].place.ps ==>
              w.frames[p].core.waiting == Some(h) ||
              (w.frames[p].core.phase.Finished? && w.frames[p].core.waiting == None)
  {
    forall p | p in w.frames
      ensures w.frames[p].core.waiting == Some(h) ==>
                p in w.frames[h].place.ps && w.frames[p].core.phase.WaitedOn? && !w.frames[p].core.Ready()
      ensures p in w.frames[h].place.ps ==>
                w.frames[p].core.waiting == Some(h) ||
                (w.frames[p].core.phase.Finished? && w.frames[p].core.waiting == None)
    {
      assert WaiterOK(w, p) && CoreOK(w.frames[p]);
    }
  }

  lemma ResumeSelectLetsGo(w: World, rest: World, h: Handle, f: Handle)
    requires Dequeued(w, rest, h) && h in w.frames && w.frames[h].place.AtSelect? && f in w.frames
    requires w.frames[f].core.waiting == Some(h) ==>
               f in w.frames[h].place.ps && w.frames[f].core.phase.WaitedOn? && !w.frames[f].core.Ready()
    requires f in w.frames[h].place.ps ==>
               w.frames[f].core.waiting == Some(h) ||
               (w.frames[f].core.phase.Finished? && w.frames[f].core.waiting == None)
    ensures LetGo(w, Resume(rest, h), h, f)
  {
    ResumptionFrame(rest, h, f);
  }

  lemma CancelledCounts(q: seq<Entry>, h: Handle)
    ensures forall f :: Occ(Cancelled(q, h), f) == if f == h then 0 else Occ(q, f)
    ensures forall f :: Some(f) in Cancelled(q, h) ==> Some(f) in q
  {
    CancelOne(q, h);
    forall f: Handle
      ensures Occ(Cancelled(q, h), f) == if f == h then 0 else Occ(q, f)
    {
      OccCancelAll(q, {h}, f);
    }
  }

  lemma ResumeSelect(w: World, rest: World, h: Handle)
    requires Dequeued(w, rest, h) && h in w.frames && w.frames[h].place.AtSelect?
    ensures Scheduled(w, Resume(rest, h), h)
  {
    CancelledCounts(rest.queue, h);
    var w' := Resume(rest, h);
    assert w'.queue == Cancelled(rest.queue, h);
    assert w'.frames.Keys == w.frames.Keys && w'.stack == w.stack + [h] && w'.chans == w.chans;
    assert forall f :: f in w.frames && f != h ==> w'.frames[f].place == w.frames[f].place;
  }

  lemma RunNextKeeps(w: World)
    requires Inv(w)
    ensures Inv(RunNext(w))
  {
    var next := NextHandle(w.queue, DoneSet(w));
    if next == None {
      RunNextIdle(w);
      return;
    }
    var h := next.value;
    NextIsSuspended(w, h);
    RestEntries(w.queue, DoneSet(w));
    var rest := w.(queue := AfterNext(w.queue, DoneSet(w)));
    forall f | f in w.frames
      ensures Occ(rest.queue, f) == Occ(w.queue, f) - if f == h then 1 else 0
    {
      assert PlaceOK(w, f);
      RestCounts(w, f);
    }
    assert PlaceOK(w, h);
    if w.frames[h].place.AtSelect? {
      SelectedMembers(w, h);
      ResumeSelect(w, rest, h);
      forall f | f in w.frames
        ensures LetGo(w, Resume(rest, h), h, f)
      {
        ResumeSelectLetsGo(w, rest, h, f);
      }
    } else {
      ScheduledIsUnregistered(w, h);
      ResumePlain(w, rest, h);
    }
    ReactivatedKeeps(w, RunNext(w), h);
  }
}
