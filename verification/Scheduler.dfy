/** The scheduler's queue of resumable coroutine handles (uvco/loop/scheduler.h, scheduler.cc).

    `cancel` overwrites entries with null instead of erasing them; `getNextInner` skips those
    tombstones and every coroutine that is done. */
module Schedulers {
  import opened Wrappers

  /** A coroutine handle: the identity of a coroutine frame. */
  type Handle = nat

  /** A deque entry: a handle, or the null left behind by `cancel`. */
  type Entry = Option<Handle>

  // ---- the specification: functions of the deque's contents -------------------------------

  function Cancelled(q: seq<Entry>, h: Handle): (r: seq<Entry>)
    ensures |r| == |q|
    ensures forall i :: 0 <= i < |q| ==> r[i] == if q[i] == Some(h) then None else q[i]
  {
    if q == [] then [] else [if q[0] == Some(h) then None else q[0]] + Cancelled(q[1..], h)
  }

  predicate Runnable(e: Entry, done: set<Handle>) {
    e.Some? && e.value !in done
  }

  /** The handles that are still going to be resumed, in order: a plain FIFO without tombstones. */
  function Live(q: seq<Entry>, done: set<Handle>): (live: seq<Handle>)
  {
    if q == [] then []
    else (if Runnable(q[0], done) then [q[0].value] else []) + Live(q[1..], done)
  }

  /** The number of entries at the front that `getNextInner` skips. */
  function Skipped(q: seq<Entry>, done: set<Handle>): (n: nat)
    ensures n <= |q|
    ensures forall i :: 0 <= i < n ==> !Runnable(q[i], done)
    ensures n < |q| ==> Runnable(q[n], done)
  {
    if q == [] || Runnable(q[0], done) then 0 else 1 + Skipped(q[1..], done)
  }

  /** What `getNextInner` returns; `None` is the no-op coroutine. */
  function NextHandle(q: seq<Entry>, done: set<Handle>): (next: Option<Handle>) {
    var n := Skipped(q, done);
    if n == |q| then None else q[n]
  }

  /** What `getNextInner` leaves in the deque. */
  function AfterNext(q: seq<Entry>, done: set<Handle>): (rest: seq<Entry>) {
    var n := Skipped(q, done);
    if n == |q| then [] else q[n + 1..]
  }

  // ---- the deque refines a plain FIFO -------------------------------------------------------

  function Without(s: seq<Handle>, h: Handle): seq<Handle> {
    if s == [] then [] else (if s[0] == h then [] else [s[0]]) + Without(s[1..], h)
  }

  lemma {:induction false} LiveConcat(q: seq<Entry>, r: seq<Entry>, done: set<Handle>)
    ensures Live(q + r, done) == Live(q, done) + Live(r, done)
  {
    if q == [] {
      assert q + r == r;
    } else {
      LiveConcat(q[1..], r, done);
      assert (q + r)[1..] == q[1..] + r && (q + r)[0] == q[0];
      var head, tail, more := (if Runnable(q[0], done) then [q[0].value] else []), Live(q[1..], done), Live(r, done);
      assert head + (tail + more) == (head + tail) + more;
    }
  }

  /** Enqueueing appends to the FIFO; a done handle is never going to be resumed and adds nothing. */
  lemma EnqueueAppends(q: seq<Entry>, h: Handle, done: set<Handle>)
    ensures Live(q + [Some(h)], done) == Live(q, done) + if h in done then [] else [h]
  {
    LiveConcat(q, [Some(h)], done);
    assert [Some(h)][1..] == [];
  }

  /** Cancelling removes every occurrence of one handle and keeps the order of the others. */
  lemma {:induction false} CancelRemoves(q: seq<Entry>, h: Handle, done: set<Handle>)
    ensures Live(Cancelled(q, h), done) == Without(Live(q, done), h)
  {
    if q != [] {
      var c := Cancelled(q, h);
      assert c[1..] == Cancelled(q[1..], h);
      CancelRemoves(q[1..], h, done);
      if Runnable(q[0], done) {
        assert ([q[0].value] + Live(q[1..], done))[1..] == Live(q[1..], done);
      } else {
        assert [] + Live(q[1..], done) == Live(q[1..], done);
        assert [] + Live(c[1..], done) == Live(c[1..], done);
      }
    }
  }

  /** Taking the next handle is taking the head of the FIFO. */
  lemma {:induction false} NextTakesHead(q: seq<Entry>, done: set<Handle>)
    ensures Live(q, done) == [] ==> NextHandle(q, done) == None && AfterNext(q, done) == []
    ensures Live(q, done) != [] ==>
              && NextHandle(q, done) == Some(Live(q, done)[0])
              && Live(AfterNext(q, done), done) == Live(q, done)[1..]
  {
    if q != [] {
      var rest := q[1..];
      if Runnable(q[0], done) {
        assert Skipped(q, done) == 0 && q[0 + 1..] == rest;
        assert ([q[0].value] + Live(rest, done))[1..] == Live(rest, done);
      } else {
        NextTakesHead(rest, done);
        assert [] + Live(rest, done) == Live(rest, done);
        var n := Skipped(rest, done);
        assert Skipped(q, done) == n + 1;
        assert n < |rest| ==> rest[n + 1..] == q[n + 2..] && rest[n] == q[n + 1];
      }
    }
  }

  // ---- the implementation -------------------------------------------------------------------

  class Scheduler {
    var resumable: seq<Entry>

    constructor ()
      ensures resumable == []
    {
      resumable := [];
    }

    predicate Empty()
      reads this
    {
      resumable == []
    }

    method Enqueue(h: Handle)
      modifies this
      ensures resumable == old(resumable) + [Some(h)]
    {
      resumable := resumable + [Some(h)];
    }

    method Cancel(h: Handle)
      modifies this
      ensures resumable == Cancelled(old(resumable), h)
    {
      for i := 0 to |resumable|
        invariant |resumable| == |old(resumable)|
        invariant resumable[..i] == Cancelled(old(resumable), h)[..i]
        invariant resumable[i..] == old(resumable)[i..]
      {
        assert resumable[i] == resumable[i..][0] == old(resumable)[i];
        if resumable[i] == Some(h) {
          resumable := resumable[i := None];
        }
        assert resumable[..i + 1] == resumable[..i] + [resumable[i]];
      }
    }

    /** `done` is the set of coroutines that have reached their final suspension point. */
    method GetNextInner(done: set<Handle>) returns (next: Entry)
      modifies this
      ensures next == NextHandle(old(resumable), done)
      ensures resumable == AfterNext(old(resumable), done)
    {
      next := None;
      ghost var taken := 0;
      while resumable != [] && (next == None || next.value in done)
        invariant taken <= |old(resumable)| && resumable == old(resumable)[taken..]
        invariant taken == 0 ==> next == None
        invariant taken > 0 ==> next == old(resumable)[taken - 1]
        invariant forall i :: 0 <= i < taken - 1 ==> !Runnable(old(resumable)[i], done)
        decreases |resumable|
      {
        next := resumable[0];
        resumable := resumable[1..];
        taken := taken + 1;
      }
      if next == None || next.value in done {
        next := None;
        assert Skipped(old(resumable), done) == |old(resumable)|;
      } else {
        assert Skipped(old(resumable), done) == taken - 1;
      }
    }
  }
}
