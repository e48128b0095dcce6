/** Whole runs of the scheduler, compared with a definition that has no deque and no tombstones:
    the handle returned is that of the oldest enqueue event which was not cancelled afterwards,
    whose coroutine is not done, and which has not been returned before. */
module SchedulerRuns {
  import opened Wrappers
  import opened Schedulers

  datatype Event =
    | Enqueue(h: Handle)
    | Cancel(h: Handle)
    | Finish(h: Handle)  // the coroutine reaches its final suspension point
    | Next               // getNextInner, from runAll or from a suspending awaiter

  // ---- the reference: enqueue events that survive -------------------------------------------

  /** The enqueue event `i` is neither cancelled later on nor is its coroutine done. */
  predicate Survives(ev: seq<Event>, i: nat)
  {
    && i < |ev| && ev[i].Enqueue?
    && Cancel(ev[i].h) !in ev[i..]
    && Finish(ev[i].h) !in ev
  }

  /** The first enqueue event at or after `from` that survives and has not been served. */
  function Oldest(ev: seq<Event>, served: seq<nat>, from: nat): (first: Option<nat>)
    requires from <= |ev|
    ensures first.None? ==> forall i :: from <= i < |ev| && Survives(ev, i) ==> i in served
    ensures first.Some? ==>
              && from <= first.value < |ev| && Survives(ev, first.value) && first.value !in served
              && forall i :: from <= i < first.value && Survives(ev, i) ==> i in served
    decreases |ev| - from
  {
    if from == |ev| then None
    else if Survives(ev, from) && from !in served then Some(from)
    else Oldest(ev, served, from + 1)
  }

  /** The enqueue events whose handles have been returned, in the order in which they were returned. */
  function Served(ev: seq<Event>): seq<nat> {
    if ev == [] then []
    else
      var before := ev[..|ev| - 1];
      var served := Served(before);
      if ev[|ev| - 1].Next? && Oldest(before, served, 0).Some?
      then served + [Oldest(before, served, 0).value]
      else served
  }

  // ---- the run of the deque -------------------------------------------------------------------

  datatype Deque = Deque(q: seq<Entry>, done: set<Handle>)

  function Step(d: Deque, e: Event): Deque {
    match e
    case Enqueue(h) => d.(q := d.q + [Some(h)])
    case Cancel(h) => d.(q := Cancelled(d.q, h))
    case Finish(h) => d.(done := d.done + {h})
    case Next => d.(q := AfterNext(d.q, d.done))
  }

  function Run(ev: seq<Event>): Deque {
    if ev == [] then Deque([], {}) else Step(Run(ev[..|ev| - 1]), ev[|ev| - 1])
  }

  /** What a run makes of any deque. */
  function After(d: Deque, ev: seq<Event>): Deque {
    if ev == [] then d else Step(After(d, ev[..|ev| - 1]), ev[|ev| - 1])
  }

  lemma {:induction false} RunsAppend(ev: seq<Event>, more: seq<Event>)
    ensures Run(ev + more) == After(Run(ev), more)
  {
    if more == [] {
      assert ev + more == ev;
    } else {
      RunsAppend(ev, more[..|more| - 1]);
      assert (ev + more)[..|ev + more| - 1] == ev + more[..|more| - 1];
    }
  }

  lemma {:induction false} AfterAppend(d: Deque, ev: seq<Event>, more: seq<Event>)
    ensures After(d, ev + more) == After(After(d, ev), more)
  {
    if more == [] {
      assert ev + more == ev;
    } else {
      AfterAppend(d, ev, more[..|more| - 1]);
      assert (ev + more)[..|ev + more| - 1] == ev + more[..|more| - 1];
    }
  }

  // ---- the relation between the two ---------------------------------------------------------

  /** The entry `x` of the deque is what is left of the enqueue event `i`. */
  predicate EntryOK(ev: seq<Event>, x: Entry, i: nat, served: seq<nat>) {
    && i < |ev| && ev[i].Enqueue? && i !in served
    && x == if Cancel(ev[i].h) in ev[i..] then None else Some(ev[i].h)
  }

  predicate Entries(ev: seq<Event>, q: seq<Entry>, o: seq<nat>, served: seq<nat>) {
    |o| == |q| && forall k :: 0 <= k < |o| ==> EntryOK(ev, q[k], o[k], served)
  }

  predicate Increasing(o: seq<nat>) {
    forall j, k :: 0 <= j < k < |o| ==> o[j] < o[k]
  }

  ghost predicate Dones(ev: seq<Event>, done: set<Handle>) {
    forall h :: h in done <==> Finish(h) in ev
  }

  ghost predicate Covers(ev: seq<Event>, o: seq<nat>, served: seq<nat>) {
    forall i: nat :: Survives(ev, i) && i !in served ==> i in o
  }

  /** `o` names, for each entry of the deque, the event that enqueued it. */
  ghost predicate Tracks(ev: seq<Event>, d: Deque, o: seq<nat>, served: seq<nat>) {
    Entries(ev, d.q, o, served) && Increasing(o) && Dones(ev, d.done) && Covers(ev, o, served)
  }

  lemma Appended(before: seq<Event>, e: Event)
    ensures var ev := before + [e];
            && ev[..|ev| - 1] == before && ev[|ev| - 1] == e
            && ev[|before|..] == [e]
            && (forall i :: 0 <= i < |before| ==> ev[i] == before[i] && ev[i..] == before[i..] + [e])
            && (forall x :: x in ev <==> x in before || x == e)
            && (forall i: nat :: i < |before| && Survives(ev, i) ==> Survives(before, i))
  {
    var ev := before + [e];
    assert ev[..|ev| - 1] == before;
    forall i | 0 <= i < |before|
      ensures ev[i..] == before[i..] + [e]
    {
    }
  }

  lemma TracksEnqueue(ev: seq<Event>, d: Deque, o: seq<nat>, served: seq<nat>, h: Handle)
    requires Tracks(ev, d, o, served) && forall i :: i in served ==> i < |ev|
    ensures Tracks(ev + [Enqueue(h)], Step(d, Enqueue(h)), o + [|ev|], served)
  {
    Appended(ev, Enqueue(h));
    var ev', o' := ev + [Enqueue(h)], o + [|ev|];
    forall k | 0 <= k < |o|
      ensures Cancel(ev'[o[k]].h) in ev'[o[k]..] <==> Cancel(ev'[o[k]].h) in ev[o[k]..]
    {
    }
    forall i: nat | Survives(ev', i) && i !in served
      ensures i in o'
    {
      assert o'[|o|] == |ev|;
    }
  }

  lemma TracksQuiet(ev: seq<Event>, d: Deque, o: seq<nat>, served: seq<nat>, e: Event)
    requires Tracks(ev, d, o, served) && (e.Cancel? || e.Finish?)
    ensures Tracks(ev + [e], Step(d, e), o, served)
  {
    Appended(ev, e);
    var ev' := ev + [e];
    forall k | 0 <= k < |o|
      ensures Cancel(ev'[o[k]].h) in ev'[o[k]..] <==> Cancel(ev'[o[k]].h) in ev[o[k]..] || e == Cancel(ev'[o[k]].h)
    {
    }
  }

  /** `getNextInner` stops at the oldest survivor. */
  lemma NextIsOldest(ev: seq<Event>, d: Deque, o: seq<nat>, served: seq<nat>)
    requires Tracks(ev, d, o, served)
    ensures var n, first := Skipped(d.q, d.done), Oldest(ev, served, 0);
            && (first == None <==> n == |o|)
            && (n < |o| ==> first == Some(o[n]) && d.q[n] == Some(ev[o[n]].h))
  {
    var n, first := Skipped(d.q, d.done), Oldest(ev, served, 0);
    if n < |o| {
      assert Survives(ev, o[n]);
    }
    if first.Some? {
      var k :| 0 <= k < |o| && o[k] == first.value;
      assert Runnable(d.q[k], d.done);
    }
  }

  /** A survivor other than the one taken is behind it in the deque. */
  lemma SurvivorStays(ev: seq<Event>, d: Deque, o: seq<nat>, served: seq<nat>, n: nat, i: nat)
    requires Tracks(ev, d, o, served) && n == Skipped(d.q, d.done)
    requires Survives(ev, i) && i !in served && (n < |o| ==> i != o[n])
    ensures n < |o| && i in o[n + 1..]
  {
    var k :| 0 <= k < |o| && o[k] == i;
    assert Runnable(d.q[k], d.done);
    assert n < k;
    assert o[n + 1..][k - n - 1] == i;
  }

  lemma TracksIdle(ev: seq<Event>, d: Deque, o: seq<nat>, served: seq<nat>)
    requires Tracks(ev, d, o, served) && Skipped(d.q, d.done) == |o|
    ensures Tracks(ev + [Next], Step(d, Next), [], served)
  {
    Appended(ev, Next);
    forall i: nat
      ensures !(Survives(ev + [Next], i) && i !in served)
    {
      if Survives(ev, i) && i !in served {
        SurvivorStays(ev, d, o, served, |o|, i);
      }
    }
  }

  lemma EntryStays(ev: seq<Event>, x: Entry, i: nat, served: seq<nat>, taken: nat)
    requires EntryOK(ev, x, i, served) && taken < i
    ensures EntryOK(ev + [Next], x, i, served + [taken])
  {
    assert (ev + [Next])[i..] == ev[i..] + [Next];
  }

  lemma EntriesStay(ev: seq<Event>, q: seq<Entry>, o: seq<nat>, served: seq<nat>, n: nat)
    requires Entries(ev, q, o, served) && Increasing(o) && n < |o|
    ensures Entries(ev + [Next], q[n + 1..], o[n + 1..], served + [o[n]])
  {
    var q', o' := q[n + 1..], o[n + 1..];
    forall k | 0 <= k < |o'|
      ensures EntryOK(ev + [Next], q'[k], o'[k], served + [o[n]])
    {
      assert q'[k] == q[n + 1 + k] && o'[k] == o[n + 1 + k];
      EntryStays(ev, q[n + 1 + k], o[n + 1 + k], served, o[n]);
    }
  }

  lemma IncreasingStays(o: seq<nat>, n: nat)
    requires Increasing(o) && n < |o|
    ensures Increasing(o[n + 1..])
  {
  }

  lemma NextTakes(d: Deque, n: nat)
    requires n == Skipped(d.q, d.done) && n < |d.q|
    ensures Step(d, Next) == Deque(d.q[n + 1..], d.done)
  {
  }

  lemma DonesStay(ev: seq<Event>, done: set<Handle>)
    requires Dones(ev, done)
    ensures Dones(ev + [Next], done)
  {
  }

  lemma SurvivorsStay(ev: seq<Event>, d: Deque, o: seq<nat>, served: seq<nat>, n: nat, i: nat)
    requires Tracks(ev, d, o, served) && n == Skipped(d.q, d.done) && n < |o|
    requires Survives(ev + [Next], i) && i !in served && i != o[n]
    ensures i in o[n + 1..]
  {
    Appended(ev, Next);
    SurvivorStays(ev, d, o, served, n, i);
  }

  lemma CoveredStay(ev: seq<Event>, d: Deque, o: seq<nat>, served: seq<nat>, n: nat)
    requires Tracks(ev, d, o, served) && n == Skipped(d.q, d.done) && n < |o|
    ensures Covers(ev + [Next], o[n + 1..], served + [o[n]])
  {
    forall i: nat | Survives(ev + [Next], i) && i !in served + [o[n]]
      ensures i in o[n + 1..]
    {
      assert i !in served && i != o[n];
      SurvivorsStay(ev, d, o, served, n, i);
    }
  }

  lemma TracksTake(ev: seq<Event>, d: Deque, o: seq<nat>, served: seq<nat>, n: nat)
    requires Tracks(ev, d, o, served) && n == Skipped(d.q, d.done) && n < |o|
    ensures Tracks(ev + [Next], Step(d, Next), o[n + 1..], served + [o[n]])
  {
    NextTakes(d, n);
    EntriesStay(ev, d.q, o, served, n);
    IncreasingStays(o, n);
    CoveredStay(ev, d, o, served, n);
    DonesStay(ev, d.done);
  }

  lemma {:induction false} RunTracks(ev: seq<Event>) returns (o: seq<nat>)
    ensures Tracks(ev, Run(ev), o, Served(ev))
    ensures forall i :: i in Served(ev) ==> i < |ev|
  {
    if ev == [] {
      return [];
    }
    var before, e := ev[..|ev| - 1], ev[|ev| - 1];
    assert ev == before + [e];
    o := RunTracks(before);
    match e
    case Enqueue(h) =>
      TracksEnqueue(before, Run(before), o, Served(before), h);
      o := o + [|before|];
    case Next =>
      NextIsOldest(before, Run(before), o, Served(before));
      var n := Skipped(Run(before).q, Run(before).done);
      if n == |o| {
        TracksIdle(before, Run(before), o, Served(before));
        o := [];
      } else {
        TracksTake(before, Run(before), o, Served(before), n);
        o := o[n + 1..];
      }
    case _ =>
      TracksQuiet(before, Run(before), o, Served(before), e);
  }

  /** The deque returns, at every moment of every run, the handle of the oldest surviving enqueue
      event, and the no-op coroutine exactly when none survives. A handle that is enqueued again
      after a cancellation is returned, because only later cancellations count. */
  lemma DequeRefinesSurvivors(ev: seq<Event>)
    ensures NextHandle(Run(ev).q, Run(ev).done)
            == match Oldest(ev, Served(ev), 0)
               case None => None
               case Some(i) => Some(ev[i].h)
  {
    var o := RunTracks(ev);
    NextIsOldest(ev, Run(ev), o, Served(ev));
  }

  /** No enqueue event is served twice, and they are served in the order in which they happened. */
  lemma {:induction false} ServedInOrder(ev: seq<Event>)
    ensures forall j, k :: 0 <= j < k < |Served(ev)| ==> Served(ev)[j] < Served(ev)[k]
    ensures forall i :: i in Served(ev) ==> i < |ev| && ev[i].Enqueue?
    ensures forall i: nat, k :: Survives(ev, i) && i !in Served(ev) && 0 <= k < |Served(ev)| ==> Served(ev)[k] < i
  {
    if ev != [] {
      var before, e := ev[..|ev| - 1], ev[|ev| - 1];
      assert ev == before + [e];
      ServedInOrder(before);
      OrderKept(before, e, Served(before));
    }
  }

  lemma OrderKept(ev: seq<Event>, e: Event, served: seq<nat>)
    requires forall j, k :: 0 <= j < k < |served| ==> served[j] < served[k]
    requires forall i :: i in served ==> i < |ev| && ev[i].Enqueue?
    requires forall i: nat, k :: Survives(ev, i) && i !in served && 0 <= k < |served| ==> served[k] < i
    ensures var first := Oldest(ev, served, 0);
            var served' := if e.Next? && first.Some? then served + [first.value] else served;
            && (forall j, k :: 0 <= j < k < |served'| ==> served'[j] < served'[k])
            && (forall i :: i in served' ==> i < |ev| && ev[i].Enqueue?)
            && (forall i: nat, k :: Survives(ev + [e], i) && i !in served' && 0 <= k < |served'| ==> served'[k] < i)
  {
    var first := Oldest(ev, served, 0);
    var served' := if e.Next? && first.Some? then served + [first.value] else served;
    forall i: nat, k | Survives(ev + [e], i) && i !in served' && 0 <= k < |served'|
      ensures served'[k] < i
    {
      if k < |served| {
        assert served[k] in served;
        ServedIsOlder(ev, e, served, i, k);
      } else {
        OldestIsOlder(ev, served, i);
      }
    }
  }

  lemma ServedIsOlder(ev: seq<Event>, e: Event, served: seq<nat>, i: nat, k: nat)
    requires k < |served| && served[k] < |ev|
    requires Survives(ev, i) ==> served[k] < i
    requires Survives(ev + [e], i)
    ensures served[k] < i
  {
    Appended(ev, e);
  }

  lemma OldestIsOlder(ev: seq<Event>, served: seq<nat>, i: nat)
    requires Oldest(ev, served, 0).Some? && Survives(ev + [Next], i)
    requires i !in served && i != Oldest(ev, served, 0).value
    ensures Oldest(ev, served, 0).value < i
  {
    Appended(ev, Next);
  }
}
