/** Recursive destruction, which follows ownership frame by frame, compared with erasing a set of
    frames all at once. */
module Destruction {
  import opened Wrappers
  import opened Schedulers
  import opened Cores
  import opened Channels
  import opened Runtime

  // ---- counting handles -------------------------------------------------------------------------

  function Occ(q: seq<Entry>, h: Handle): nat { multiset(q)[Some(h)] }

  function CancelAll(q: seq<Entry>, doomed: set<Handle>): (r: seq<Entry>)
    ensures |r| == |q|
    ensures forall i :: 0 <= i < |q| ==> r[i] == if q[i].Some? && q[i].value in doomed then None else q[i]
  {
    seq(|q|, i requires 0 <= i < |q| => if q[i].Some? && q[i].value in doomed then None else q[i])
  }

  lemma OccSplit(q: seq<Entry>, n: nat, h: Handle)
    requires n <= |q|
    ensures Occ(q, h) == Occ(q[..n], h) + Occ(q[n..], h)
  {
    assert q == q[..n] + q[n..];
  }

  lemma {:induction false} OccCancelAll(q: seq<Entry>, doomed: set<Handle>, h: Handle)
    ensures Occ(CancelAll(q, doomed), h) == if h in doomed then 0 else Occ(q, h)
  {
    if q != [] {
      var c := CancelAll(q, doomed);
      OccCancelAll(q[1..], doomed, h);
      OccSplit(q, 1, h);
      OccSplit(c, 1, h);
      assert q[..1] == [q[0]] && c[..1] == [c[0]];
      assert c[1..] == CancelAll(q[1..], doomed);
    }
  }

  lemma CancelOne(q: seq<Entry>, h: Handle)
    ensures Cancelled(q, h) == CancelAll(q, {h})
  {
  }

  lemma CancelTwice(q: seq<Entry>, a: set<Handle>, b: set<Handle>)
    ensures CancelAll(CancelAll(q, a), b) == CancelAll(q, a + b)
  {
  }

  lemma CancelAbsent(q: seq<Entry>, h: Handle)
    requires Occ(q, h) == 0
    ensures Cancelled(q, h) == q
  {
    assert Some(h) !in q;
  }

  // ---- erasing a set of frames --------------------------------------------------------------------

  /** A select set of a doomed frame refers to `p`. */
  predicate Deselected(w: World, doomed: set<Handle>, p: Handle) {
    exists g :: g in doomed && g in w.frames && w.frames[g].place.AtSelect? && p in w.frames[g].place.ps
  }

  function Survivor(w: World, doomed: set<Handle>, f: Handle): Frame
    requires f in w.frames
  {
    if Deselected(w, doomed, f) then w.frames[f].(core := Deregistered(w.frames[f].core)) else w.frames[f]
  }

  /** The doomed frames vanish from the world; their handles vanish from the scheduler and from the
      channels; promises they have selected from the outside forget them. */
  function Erase(w: World, doomed: set<Handle>): World {
    World(
      map f | f in w.frames && f !in doomed :: Survivor(w, doomed, f),
      CancelAll(w.queue, doomed),
      map c | c in w.chans ::
        w.chans[c].(readers := CancelAll(w.chans[c].readers, doomed),
                    writers := CancelAll(w.chans[c].writers, doomed)),
      w.stack)
  }

  /** What makes it harmless to skip a cancellation: finished frames are not scheduled. And a handle
      stands only in the waiter ring its frame waits in. */
  predicate Settled(w: World) {
    && (forall f :: f in w.frames && w.frames[f].core.phase.Finished? ==> Occ(w.queue, f) == 0)
    && (forall c, side, f :: c in w.chans && f in w.frames && Some(f) in Ring(w.chans[c], side)
                             ==> w.frames[f].place == AtChannel(c, side))
  }

  lemma SettledErased(w: World, doomed: set<Handle>)
    requires Settled(w)
    ensures Settled(Erase(w, doomed))
  {
    var w' := Erase(w, doomed);
    forall f | f in w'.frames && w'.frames[f].core.phase.Finished?
      ensures Occ(w'.queue, f) == 0
    {
      OccCancelAll(w.queue, doomed, f);
    }
    forall c, side, f | c in w'.chans && f in w'.frames && Some(f) in Ring(w'.chans[c], side)
      ensures w'.frames[f].place == AtChannel(c, side)
    {
      assert Ring(w'.chans[c], side) == CancelAll(Ring(w.chans[c], side), doomed);
      assert Some(f) in Ring(w.chans[c], side);
    }
  }

  lemma RingUntouched(w: World, x: Handle, c: nat, side: Side)
    requires Settled(w) && x in w.frames && c in w.chans && w.frames[x].place != AtChannel(c, side)
    ensures CancelAll(Ring(w.chans[c], side), {x}) == Ring(w.chans[c], side)
  {
    assert Some(x) !in Ring(w.chans[c], side);
  }

  lemma ChansUnhooked(w: World, x: Handle, lazily: bool)
    requires Settled(w) && x in w.frames
    ensures Unhook(w, x, lazily).chans == Erase(w, {x}).chans
  {
    var here, there := Unhook(w, x, lazily).chans, Erase(w, {x}).chans;
    forall c | c in w.chans
      ensures here[c] == there[c]
    {
      if w.frames[x].place != AtChannel(c, Reader) { RingUntouched(w, x, c, Reader); }
      if w.frames[x].place != AtChannel(c, Writer) { RingUntouched(w, x, c, Writer); }
      CancelOne(w.chans[c].readers, x);
      CancelOne(w.chans[c].writers, x);
    }
  }

  /** Destroying one frame erases it. */
  lemma UnhookErases(w: World, x: Handle, lazily: bool)
    requires Settled(w) && x in w.frames
    ensures Unhook(w, x, lazily) == Erase(w, {x})
  {
    ChansUnhooked(w, x, lazily);
    CancelOne(w.queue, x);
    if w.frames[x].core.phase.Finished? {
      CancelAbsent(w.queue, x);
    }
    var here, there := Unhook(w, x, lazily), Erase(w, {x});
    forall f | f in w.frames && f != x
      ensures here.frames[f] == there.frames[f]
    {
      assert Deselected(w, {x}, f) <==> w.frames[x].place.AtSelect? && f in w.frames[x].place.ps;
    }
    assert here.frames == there.frames;
  }

  lemma EraseTwice(w: World, a: set<Handle>, b: set<Handle>)
    ensures Erase(Erase(w, a), b) == Erase(w, a + b)
  {
    var once, twice, both := Erase(w, a), Erase(Erase(w, a), b), Erase(w, a + b);
    CancelTwice(w.queue, a, b);
    forall c | c in w.chans
      ensures twice.chans[c] == both.chans[c]
    {
      CancelTwice(w.chans[c].readers, a, b);
      CancelTwice(w.chans[c].writers, a, b);
    }
    assert twice.chans == both.chans;
    forall f | f in w.frames && f !in a && f !in b
      ensures twice.frames[f] == both.frames[f]
    {
      DeselectedTwice(w, a, b, f);
    }
    assert twice.frames == both.frames;
  }

  lemma DeselectedTwice(w: World, a: set<Handle>, b: set<Handle>, f: Handle)
    ensures Deselected(w, a + b, f) <==> Deselected(w, a, f) || Deselected(Erase(w, a), b, f)
  {
    var once := Erase(w, a);
    forall g | g in once.frames
      ensures once.frames[g].place == w.frames[g].place
    {
    }
    if Deselected(w, a + b, f) {
      var g :| g in a + b && g in w.frames && w.frames[g].place.AtSelect? && f in w.frames[g].place.ps;
      assert g in a || g in once.frames;
    }
    if Deselected(once, b, f) {
      var g :| g in b && g in once.frames && once.frames[g].place.AtSelect? && f in once.frames[g].place.ps;
      assert g in a + b;
    }
  }

  lemma EraseNothing(w: World)
    ensures Erase(w, {}) == w
  {
    var none := Erase(w, {});
    assert none.queue == w.queue;
    forall c | c in w.chans
      ensures none.chans[c] == w.chans[c]
    {
      assert CancelAll(w.chans[c].readers, {}) == w.chans[c].readers;
      assert CancelAll(w.chans[c].writers, {}) == w.chans[c].writers;
    }
    assert none.chans == w.chans;
    assert none.frames == w.frames;
  }

  // ---- recursive destruction ------------------------------------------------------------------------

  /** A set of frames with everything that its members own. */
  predicate Closed(w: World, s: set<Handle>) {
    forall f, k :: f in s && k in w.frames && w.frames[k].owner == Some(f) ==> k in s
  }

  /** `gone` is what is destroyed: the roots, and whatever the destroyed frames own; and no more than
      that, as it stays inside every closed set that contains the roots. */
  predicate Extent(w: World, roots: set<Handle>, gone: set<Handle>, bound: set<Handle>) {
    && gone <= w.frames.Keys
    && roots * w.frames.Keys <= gone
    && Closed(w, gone)
    && (Closed(w, bound) && roots <= bound ==> gone <= bound)
  }

  lemma {:induction false} DestroyErases(w: World, x: Handle, lazily: bool, bound: set<Handle>)
    returns (gone: set<Handle>)
    requires Settled(w) && x in w.frames
    ensures Destroy(w, x, lazily) == Erase(w, gone)
    ensures Extent(w, {x}, gone, bound)
    decreases |w.frames|, 0
  {
    var rest := Unhook(w, x, lazily);
    assert rest.frames.Keys == w.frames.Keys - {x};
    UnhookErases(w, x, lazily);
    SettledErased(w, {x});
    var below := DestroyAllErases(rest, Kids(w, x), bound);
    EraseTwice(w, {x}, below);
    gone := {x} + below;
    KidsSurvive(w, {x}, below);
    if Closed(w, bound) && x in bound {
      BoundSurvives(w, {x}, bound);
      assert Kids(w, x) <= bound;
    }
    forall k | k in w.frames && w.frames[k].owner == Some(x)
      ensures k in gone
    {
      assert k in Kids(w, x);
    }
  }

  /** A set that is closed after an erasure was closed up to the erased frames. */
  lemma KidsSurvive(w: World, a: set<Handle>, s: set<Handle>)
    requires Closed(Erase(w, a), s)
    ensures forall f, k :: f in s && k in w.frames && w.frames[k].owner == Some(f) ==> k in s + a
  {
    forall f, k | f in s && k in w.frames && w.frames[k].owner == Some(f)
      ensures k in s + a
    {
      if k !in a {
        assert Erase(w, a).frames[k].owner == Some(f);
      }
    }
  }

  lemma BoundSurvives(w: World, a: set<Handle>, bound: set<Handle>)
    requires Closed(w, bound)
    ensures Closed(Erase(w, a), bound)
  {
    forall f, k | f in bound && k in Erase(w, a).frames && Erase(w, a).frames[k].owner == Some(f)
      ensures k in bound
    {
      assert w.frames[k].owner == Some(f);
    }
  }

  lemma ExtentsAdd(w: World, s: set<Handle>, t: set<Handle>, first: set<Handle>, rest: set<Handle>, bound: set<Handle>)
    requires Extent(w, s, first, bound) && Extent(Erase(w, first), t, rest, bound)
    ensures Extent(w, s + t, first + rest, bound)
  {
    KidsSurvive(w, first, rest);
    if Closed(w, bound) && s + t <= bound {
      BoundSurvives(w, first, bound);
    }
  }

  lemma {:induction false} DestroyAllErases(w: World, s: set<Handle>, bound: set<Handle>)
    returns (gone: set<Handle>)
    requires Settled(w)
    ensures DestroyAll(w, s) == Erase(w, gone)
    ensures Extent(w, s, gone, bound)
    decreases |w.frames|, |s| + 1
  {
    if s == {} {
      EraseNothing(w);
      return {};
    }
    var k, next := Picked(w, s);
    var first := FirstErased(w, k, next, bound);
    SettledErased(w, first);
    SubsetSize(next.frames.Keys, w.frames.Keys);
    var rest := DestroyAllErases(next, s - {k}, bound);
    EraseTwice(w, first, rest);
    ExtentsAdd(w, {k}, s - {k}, first, rest, bound);
    assert {k} + (s - {k}) == s;
    gone := first + rest;
  }

  lemma {:induction false} FirstErased(w: World, k: Handle, next: World, bound: set<Handle>)
    returns (first: set<Handle>)
    requires Settled(w)
    requires next == if k in w.frames then Destroy(w, k, DestroysLazily(w.frames[k])) else w
    ensures next == Erase(w, first) && Extent(w, {k}, first, bound)
    decreases |w.frames|, 1
  {
    if k in w.frames {
      first := DestroyErases(w, k, DestroysLazily(w.frames[k]), bound);
    } else {
      EraseNothing(w);
      first := {};
    }
  }

  /** The promise that DestroyAll destroys first. */
  lemma Picked(w: World, s: set<Handle>) returns (k: Handle, next: World)
    requires s != {}
    ensures k in s
    ensures next == if k in w.frames then Destroy(w, k, DestroysLazily(w.frames[k])) else w
    ensures DestroyAll(w, s) == DestroyAll(next, s - {k})
  {
    k :| k in s && DestroyAll(w, s)
                   == DestroyAll(if k in w.frames then Destroy(w, k, DestroysLazily(w.frames[k])) else w, s - {k});
    next := if k in w.frames then Destroy(w, k, DestroysLazily(w.frames[k])) else w;
  }

  /** Following ownership frame by frame, in whatever order, erases exactly the least set of frames
      that contains the destroyed one and everything owned in it, although the cancellation of
      finished cores is skipped. */
  lemma RecursiveDestructionErases(w: World, x: Handle, lazily: bool, bound: set<Handle>)
    requires Settled(w) && x in w.frames
    ensures Destroy(w, x, lazily) == Erase(w, Doomed(w, x, lazily))
    ensures x in Doomed(w, x, lazily) && Closed(w, Doomed(w, x, lazily))
    ensures Closed(w, bound) && x in bound ==> Doomed(w, x, lazily) <= bound
  {
    var gone := DestroyErases(w, x, lazily, bound);
    assert Erase(w, gone).frames.Keys == w.frames.Keys - gone;
    assert gone == Doomed(w, x, lazily);
  }

  lemma RecursiveDestructionErasesAll(w: World, s: set<Handle>, bound: set<Handle>)
    requires Settled(w)
    ensures DestroyAll(w, s) == Erase(w, DoomedAll(w, s)) && Closed(w, DoomedAll(w, s))
    ensures Closed(w, bound) && s <= bound ==> DoomedAll(w, s) <= bound
  {
    var gone := DestroyAllErases(w, s, bound);
    assert Erase(w, gone).frames.Keys == w.frames.Keys - gone;
    assert gone == DoomedAll(w, s);
  }
}
