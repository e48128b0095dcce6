/** The invariant of the runtime, and the pieces of steps that keep it. */
module RuntimeInvariant {
  import opened Wrappers
  import opened Schedulers
  import opened Cores
  import opened Generators
  import opened Channels
  import opened Runtime
  import opened Destruction

  /** A core is finished exactly while its coroutine is over, or parked at a co_yield. */
  predicate CoreOK(x: Frame) {
    && x.core.WellFormed()
    && (x.place.AtYield? ==> x.kind.Gen?)
    && (x.kind.Gen? ==> (x.kind.suspended ==> x.place.AtYield?) && (x.kind.terminated <==> x.place.AtEnd?))
    && (x.core.phase.Finished? <==> x.place.AtEnd? || (x.place.AtYield? && x.kind.suspended))
  }

  function Registrations(w: World, p: Handle, f: Handle): nat {
    if p in w.frames && w.frames[p].core.waiting == Some(f) then 1 else 0
  }

  /** A coroutine that is not a generator is over for good. */
  predicate Over(w: World, p: Handle) {
    p in w.frames && w.frames[p].kind.Plain? && w.frames[p].core.phase.Finished?
  }

  /** Over, and its result has been fetched. */
  predicate Spent(w: World, p: Handle) {
    Over(w, p) && !w.frames[p].core.Ready()
  }

  /** A suspended coroutine is registered in one place, which its awaiter knows: in what it waits for,
      or, once that has happened, in the scheduler. A select set may be registered in several. */
  predicate PlaceOK(w: World, f: Handle)
    requires f in w.frames
  {
    var scheduled := Occ(w.queue, f);
    match w.frames[f].place
    case OnStack => f in w.stack && scheduled == 0
    case AtEnd => scheduled == 0
    case AtPromise(p) =>
      && p in w.frames && w.frames[p].kind.Plain? && scheduled + Registrations(w, p, f) == 1
      && (scheduled > 0 ==> Over(w, p))
    case AtGenerator(g) => g in w.frames && w.frames[g].kind.Gen? && scheduled + Registrations(w, g, f) == 1
    case AtSelect(ps, joined) =>
      && (forall p :: p in ps ==> p in w.frames && w.frames[p].kind.Plain?)
      && (forall p :: p in ps ==> Spent(w, p) || (p in joined && (Over(w, p) || Registrations(w, p, f) == 1)))
      && (forall p :: p in joined ==> p in ps)
      && (scheduled > 0 <==> exists p :: p in joined && Over(w, p))
    case AtYield => scheduled == if w.frames[f].kind.Gen? && w.frames[f].kind.suspended then 0 else 1
    case AtChannel(c, side) => c in w.chans && scheduled + Occ(Ring(w.chans[c], side), f) == 1
    case AtExternal(pending) => scheduled == if pending then 0 else 1
  }

  /** The awaiter of `f` has registered with `p`. */
  predicate Registers(x: Frame, p: Handle) {
    match x.place
    case AtPromise(q) => q == p
    case AtGenerator(q) => q == p
    case AtSelect(_, joined) => p in joined
    case _ => false
  }

  predicate WaiterOK(w: World, p: Handle)
    requires p in w.frames
  {
    var waiting := w.frames[p].core.waiting;
    waiting.Some? ==> waiting.value in w.frames && Registers(w.frames[waiting.value], p)
  }

  predicate OwnerOK(w: World, f: Handle)
    requires f in w.frames
  {
    w.frames[f].owner.Some? ==> w.frames[f].owner.value in w.frames
  }

  predicate StackOK(w: World) {
    && (forall i :: 0 <= i < |w.stack| ==> w.stack[i] in w.frames && w.frames[w.stack[i]].place.OnStack?)
    && (forall i, j :: 0 <= i < j < |w.stack| ==> w.stack[i] != w.stack[j])
  }

  ghost predicate EntriesOK(w: World) {
    && (forall h :: Some(h) in w.queue ==> h in w.frames)
    && (forall c, side, h :: c in w.chans && Some(h) in Ring(w.chans[c], side)
                             ==> h in w.frames && w.frames[h].place == AtChannel(c, side))
  }

  predicate CoresOK(w: World) { forall f :: f in w.frames ==> CoreOK(w.frames[f]) }

  predicate PlacesOK(w: World) { forall f :: f in w.frames ==> PlaceOK(w, f) }

  predicate WaitersOK(w: World) { forall p :: p in w.frames ==> WaiterOK(w, p) }

  predicate OwnersOK(w: World) { forall f :: f in w.frames ==> OwnerOK(w, f) }

  ghost predicate LinksOK(w: World) {
    CoresOK(w) && WaitersOK(w) && OwnersOK(w) && StackOK(w) && EntriesOK(w)
  }

  ghost predicate Inv(w: World) {
    PlacesOK(w) && LinksOK(w)
  }

  // ---- counting ---------------------------------------------------------------------------------

  lemma OccAppend(q: seq<Entry>, r: seq<Entry>, h: Handle)
    ensures Occ(q + r, h) == Occ(q, h) + Occ(r, h)
  {
  }

  /** Taking the next handle removes one entry of it, and otherwise only entries of done coroutines. */
  lemma OccNext(q: seq<Entry>, done: set<Handle>, h: Handle)
    ensures var next, rest := NextHandle(q, done), AfterNext(q, done);
            && Occ(rest, h) <= Occ(q, h)
            && (h !in done ==> Occ(q, h) == Occ(rest, h) + if next == Some(h) then 1 else 0)
  {
    var n := Skipped(q, done);
    OccSplit(q, n, h);
    if h !in done {
      assert Some(h) !in q[..n];
    }
    if n < |q| {
      OccSplit(q[n..], 1, h);
      assert q[n..][..1] == [q[n]] && q[n..][1..] == q[n + 1..];
    } else {
      assert q[n..] == [];
    }
  }

  /** Leaving the stack takes only the top coroutine off it. */
  lemma LeaveStack(w: World, place: Place)
    requires StackOK(w) && w.stack != [] && !place.OnStack?
    ensures StackOK(Leave(w, place))
    ensures forall f :: f in w.stack && f != Top(w) ==> f in Leave(w, place).stack
    ensures Top(w) !in Leave(w, place).stack
  {
    forall f | f in w.stack && f != Top(w)
      ensures f in w.stack[..|w.stack| - 1]
    {
      var i :| 0 <= i < |w.stack| && w.stack[i] == f;
      assert w.stack[..|w.stack| - 1][i] == f;
    }
  }

  // ---- frames that a step does not concern --------------------------------------------------------

  /** Nothing that `PlaceOK` looks at has changed for `f`. */
  ghost predicate Undisturbed(w: World, w': World, f: Handle) {
    && f in w.frames && f in w'.frames
    && w'.frames[f].place == w.frames[f].place
    && (w.frames[f].place.AtYield? ==> w'.frames[f].kind == w.frames[f].kind)
    && Occ(w'.queue, f) == Occ(w.queue, f)
    && (f in w.stack ==> f in w'.stack)
    && (forall p | p in w.frames && Borrows(w, f, p) ::
          Remains(w, w', p) && Registrations(w', p, f) == Registrations(w, p, f))
    && (w.frames[f].place.AtChannel? ==>
          var c, side := w.frames[f].place.c, w.frames[f].place.side;
          c in w.chans ==> c in w'.chans && Occ(Ring(w'.chans[c], side), f) == Occ(Ring(w.chans[c], side), f))
  }

  /** `p` still exists, is of the same kind, and stays over, and spent. */
  predicate Remains(w: World, w': World, p: Handle) {
    && p in w.frames && p in w'.frames
    && (w.frames[p].kind.Plain? <==> w'.frames[p].kind.Plain?)
    && (Over(w, p) <==> Over(w', p)) && (Spent(w, p) ==> Spent(w', p))
  }

  lemma PlaceKept(w: World, w': World, f: Handle)
    requires f in w.frames && PlaceOK(w, f) && Undisturbed(w, w', f)
    ensures PlaceOK(w', f)
  {
    match w.frames[f].place
    case AtPromise(p) => assert Borrows(w, f, p);
    case AtGenerator(p) => assert Borrows(w, f, p);
    case AtSelect(ps, joined) =>
      forall p | p in ps
        ensures Remains(w, w', p) && Registrations(w', p, f) == Registrations(w, p, f)
      {
        assert Borrows(w, f, p);
      }
      forall p | p in joined
        ensures Over(w, p) <==> Over(w', p)
      {
        assert p in ps && Remains(w, w', p);
      }
    case _ =>
  }

  /** A running coroutine is registered nowhere. */
  lemma TopUnregistered(w: World)
    requires LinksOK(w) && Running(w)
    ensures w.frames[Top(w)].place.OnStack?
    ensures forall p :: p in w.frames ==> w.frames[p].core.waiting != Some(Top(w))
    ensures forall c, side :: c in w.chans ==> Some(Top(w)) !in Ring(w.chans[c], side)
  {
    forall p | p in w.frames
      ensures w.frames[p].core.waiting != Some(Top(w))
    {
      assert WaiterOK(w, p);
    }
  }

  // ---- suspending -------------------------------------------------------------------------------

  /** The top coroutine leaves the stack, and has registered with the cores `joined`; a generator
      that was parked at a co_yield is rescheduled by this. */
  ghost predicate Suspension(w: World, w': World, joined: set<Handle>) {
    && Running(w)
    && w'.frames.Keys == w.frames.Keys && joined <= w.frames.Keys
    && w'.stack == w.stack[..|w.stack| - 1]
    && !w'.frames[Top(w)].place.OnStack?
    && (forall f :: f in w.frames ==> w'.frames[f].owner == w.frames[f].owner)
    && (forall f :: f in w.frames && f != Top(w) ==> w'.frames[f].place == w.frames[f].place)
    && (forall f :: f in w.frames && f !in joined ==>
          w'.frames[f].core == w.frames[f].core && w'.frames[f].kind == w.frames[f].kind)
    && (forall f :: f in joined ==>
          && w.frames[f].core.waiting == None && w.frames[f].core.slot == None
          && w'.frames[f].core == Core(WaitedOn, Some(Top(w)), None)
          && (w.frames[f].kind.Plain? ==> !w.frames[f].core.phase.Finished? && w'.frames[f].kind.Plain?)
          && (w.frames[f].kind.Gen? ==> !w.frames[f].kind.terminated && w'.frames[f].kind == Gen(false, false)))
  }

  lemma SuspensionCores(w: World, w': World, joined: set<Handle>)
    requires Suspension(w, w', joined) && CoresOK(w)
    requires w.frames[Top(w)].place.OnStack? && CoreOK(w'.frames[Top(w)])
    ensures CoresOK(w')
  {
    forall f | f in w'.frames
      ensures CoreOK(w'.frames[f])
    {
      assert CoreOK(w.frames[f]);
    }
  }

  lemma SuspensionWaiters(w: World, w': World, joined: set<Handle>)
    requires Suspension(w, w', joined) && WaitersOK(w)
    requires w.frames[Top(w)].place.OnStack?
    requires forall p :: p in joined ==> Registers(w'.frames[Top(w)], p)
    ensures WaitersOK(w')
  {
    forall p | p in w'.frames
      ensures WaiterOK(w', p)
    {
      assert WaiterOK(w, p);
    }
  }

  lemma SuspensionStack(w: World, w': World, joined: set<Handle>)
    requires Suspension(w, w', joined) && StackOK(w) && OwnersOK(w)
    ensures StackOK(w') && OwnersOK(w')
    ensures forall f :: f in w.stack && f != Top(w) ==> f in w'.stack
  {
    LeaveStack(w, AtEnd);
    forall f | f in w'.frames
      ensures OwnerOK(w', f)
    {
      assert OwnerOK(w, f);
    }
  }

  /** For every other coroutine only the scheduler's entries of a rescheduled generator change. */
  lemma SuspensionPlace(w: World, w': World, joined: set<Handle>, f: Handle)
    requires Suspension(w, w', joined) && StackOK(w) && OwnersOK(w) && f in w.frames && f != Top(w)
    requires CoreOK(w.frames[f]) && PlaceOK(w, f)
    requires var rescheduled := f in joined && w.frames[f].kind.Gen? && w.frames[f].kind.suspended;
             Occ(w'.queue, f) == Occ(w.queue, f) + if rescheduled then 1 else 0
    requires forall c, side :: c in w.chans ==>
               c in w'.chans && Occ(Ring(w'.chans[c], side), f) == Occ(Ring(w.chans[c], side), f)
    ensures PlaceOK(w', f)
  {
    if w.frames[f].place.AtYield? {
      assert f !in joined ==> w'.frames[f].kind == w.frames[f].kind;
    } else {
      SuspensionStack(w, w', joined);
      PlaceKept(w, w', f);
    }
  }

  /** The counts of every other coroutine are what `SuspensionPlace` asks for. */
  ghost predicate CountsKept(w: World, w': World, joined: set<Handle>)
    requires w.stack != []
  {
    && (forall f :: f in w.frames && f != Top(w) ==>
          Occ(w'.queue, f) == Occ(w.queue, f)
                              + if f in joined && w.frames[f].kind.Gen? && w.frames[f].kind.suspended then 1 else 0)
    && w'.chans.Keys == w.chans.Keys
    && (forall f, c, side :: f != Top(w) && c in w.chans ==>
          Occ(Ring(w'.chans[c], side), f) == Occ(Ring(w.chans[c], side), f))
  }

  lemma SuspensionEntry(w: World, w': World, joined: set<Handle>, c: nat, side: Side, h: Handle)
    requires Suspension(w, w', joined) && EntriesOK(w) && CountsKept(w, w', joined)
    requires c in w'.chans && Some(h) in Ring(w'.chans[c], side) && h != Top(w)
    ensures h in w'.frames && w'.frames[h].place == AtChannel(c, side)
  {
    assert Occ(Ring(w'.chans[c], side), h) == Occ(Ring(w.chans[c], side), h);
    assert Some(h) in Ring(w.chans[c], side);
  }

  lemma SuspensionEntries(w: World, w': World, joined: set<Handle>)
    requires Suspension(w, w', joined) && EntriesOK(w) && CountsKept(w, w', joined)
    requires forall c, side :: c in w'.chans && Some(Top(w)) in Ring(w'.chans[c], side)
                               ==> w'.frames[Top(w)].place == AtChannel(c, side)
    requires forall h :: h !in w.frames ==> Some(h) !in w'.queue
    ensures EntriesOK(w')
  {
    forall c, side, h | c in w'.chans && Some(h) in Ring(w'.chans[c], side)
      ensures h in w'.frames && w'.frames[h].place == AtChannel(c, side)
    {
      if h != Top(w) {
        SuspensionEntry(w, w', joined, c, side, h);
      }
    }
  }

  /** The coroutine that has left the stack is registered as its awaiter says, and nowhere else. */
  ghost predicate WellPlaced(w: World, w': World, joined: set<Handle>)
    requires w.stack != []
  {
    && Top(w) in w'.frames && CoreOK(w'.frames[Top(w)]) && PlaceOK(w', Top(w))
    && (forall p :: p in joined ==> Registers(w'.frames[Top(w)], p))
    && (forall c, side :: c in w'.chans && Some(Top(w)) in Ring(w'.chans[c], side)
                          ==> w'.frames[Top(w)].place == AtChannel(c, side))
    && (forall h :: h !in w.frames ==> Some(h) !in w'.queue)
  }

  ghost predicate GoodSuspension(w: World, w': World, joined: set<Handle>) {
    Suspension(w, w', joined) && CountsKept(w, w', joined) && WellPlaced(w, w', joined)
  }

  lemma SuspensionKeeps(w: World, w': World, joined: set<Handle>)
    requires Inv(w) && GoodSuspension(w, w', joined)
    ensures Inv(w')
  {
    TopUnregistered(w);
    SuspensionCores(w, w', joined);
    SuspensionWaiters(w, w', joined);
    SuspensionStack(w, w', joined);
    SuspensionEntries(w, w', joined);
    forall f | f in w'.frames
      ensures PlaceOK(w', f)
    {
      if f != Top(w) {
        assert CoreOK(w.frames[f]) && PlaceOK(w, f);
        SuspensionPlace(w, w', joined, f);
      }
    }
  }

  /** What is known of a running coroutine. */
  ghost predicate TopReady(w: World) {
    && Running(w)
    && w.frames[Top(w)].place.OnStack? && CoreOK(w.frames[Top(w)]) && Occ(w.queue, Top(w)) == 0
    && (forall c, side :: c in w.chans ==> Some(Top(w)) !in Ring(w.chans[c], side))
    && (forall h :: Some(h) in w.queue ==> h in w.frames)
  }

  lemma TopIsReady(w: World)
    requires Inv(w) && Running(w)
    ensures TopReady(w)
  {
    TopUnregistered(w);
    assert PlaceOK(w, Top(w));
  }

  lemma AwaitSuspends(w: World, p: Handle)
    requires TopReady(w) && Free(w, p) && w.frames[p].kind.Plain? && w.frames[p].core.phase.Init? && CoreOK(w.frames[p])
    ensures var w' := Leave(SetCore(w, p, Core(WaitedOn, Some(Top(w)), w.frames[p].core.slot)), AtPromise(p));
            GoodSuspension(w, w', {p})
  {
  }

  lemma AwaitGeneratorJoins(w: World, g: Handle)
    requires TopReady(w) && Free(w, g) && w.frames[g].kind.Gen? && CoreOK(w.frames[g])
    requires !AwaitReady(w.frames[g].AsGen())
    ensures Suspension(w, AwaitedGenerator(w, g), {g}) && CountsKept(w, AwaitedGenerator(w, g), {g})
  {
  }

  lemma AwaitGeneratorSuspends(w: World, g: Handle)
    requires TopReady(w) && Free(w, g) && w.frames[g].kind.Gen? && CoreOK(w.frames[g])
    requires !AwaitReady(w.frames[g].AsGen())
    ensures GoodSuspension(w, AwaitedGenerator(w, g), {g})
  {
    AwaitGeneratorJoins(w, g);
  }

  lemma WaitSuspends(w: World)
    requires TopReady(w)
    ensures GoodSuspension(w, Leave(w, AtExternal(true)), {})
  {
  }

  lemma YieldSuspends(w: World)
    requires TopReady(w)
    ensures GoodSuspension(w, Enqueued(Leave(w, AtExternal(false)), [Some(Top(w))]), {})
  {
  }

  /** The members of a select set that are still running. */
  function Joined(w: World, ps: seq<Handle>): set<Handle> {
    set p | p in ps && p in w.frames && !w.frames[p].core.phase.Finished?
  }

  ghost predicate Selectable(w: World, ps: seq<Handle>) {
    forall p :: p in ps ==> Free(w, p) && w.frames[p].kind.Plain? && !w.frames[p].core.Ready() && CoreOK(w.frames[p])
  }

  lemma SelectJoins(w: World, ps: seq<Handle>)
    requires TopReady(w) && Selectable(w, ps)
    ensures Suspension(w, Selected(w, ps), Joined(w, ps)) && CountsKept(w, Selected(w, ps), Joined(w, ps))
  {
  }

  lemma SelectSuspends(w: World, ps: seq<Handle>)
    requires TopReady(w) && Selectable(w, ps)
    ensures GoodSuspension(w, Selected(w, ps), Joined(w, ps))
  {
    SelectJoins(w, ps);
  }

  lemma ChannelJoins(w: World, c: nat, side: Side)
    requires TopReady(w) && c in w.chans
    ensures Suspension(w, WaitOnChannel(w, c, side), {}) && CountsKept(w, WaitOnChannel(w, c, side), {})
  {
  }

  lemma ChannelSuspends(w: World, c: nat, side: Side)
    requires TopReady(w) && c in w.chans
    ensures GoodSuspension(w, WaitOnChannel(w, c, side), {})
  {
    var w' := WaitOnChannel(w, c, side);
    ChannelJoins(w, c, side);
    forall d, s | d in w'.chans
      ensures Some(Top(w)) in Ring(w'.chans[d], s) ==> d == c && s == side
    {
      assert Some(Top(w)) !in Ring(w.chans[d], s);
    }
    assert Occ(Ring(w.chans[c], side), Top(w)) == 0;
  }
}
