/** Symmetric handoff (uvco/loop/scheduler.cc:13-30, 57-79): a coroutine that suspends through
    `Loop::getNext()` gives control straight to the next resumable coroutine, instead of returning
    to the loop in `runAll`. This module compares whole drains with the handoff on and off.

    Coroutine bodies are arbitrary: a program says what one uninterrupted stretch of a coroutine
    does to the rest of the state, which handles it enqueues and cancels, and how it ends. */
module Handoff {
  import opened Wrappers
  import opened Schedulers

  datatype Request = Enqueue(h: Handle) | Cancel(h: Handle)

  datatype End =
    | Returned   // finished, or suspended by an awaiter that gives control back to the resumer
    | HandedOff  // suspended by an awaiter that calls getNext()
    | Started    // a coroutine started by this one has suspended through getNext(); the starter
                 // continues when control comes back

  datatype Stretch<S> = Stretch(state: S, requests: seq<Request>, end: End)

  datatype Program<!S(!new)> = Program(body: (S, Handle) -> Stretch<S>, done: S -> set<Handle>)
  {
    /** A coroutine that has reached its final suspension point never leaves it. */
    ghost predicate DoneIsFinal() {
      forall s, h :: done(s) <= done(body(s, h).state)
    }
  }

  /** `stack` holds the resumed coroutines that are nested in each other; the last one runs.
      `resumed` is the order in which the scheduler's handles were resumed. */
  datatype Machine<S> = Machine(q: seq<Entry>, state: S, stack: seq<Handle>, resumed: seq<Handle>)

  function Apply(q: seq<Entry>, requests: seq<Request>): seq<Entry>
    decreases |requests|
  {
    if requests == [] then q
    else
      var q' := match requests[0]
                case Enqueue(h) => q + [Some(h)]
                case Cancel(h) => Cancelled(q, h);
      Apply(q', requests[1..])
  }

  /** `getNextInner`, and the resumption of what it returned. */
  function Fetch<S(!new)>(p: Program<S>, m: Machine<S>): Machine<S> {
    var done := p.done(m.state);
    match NextHandle(m.q, done)
    case None => m.(q := AfterNext(m.q, done))
    case Some(h) => m.(q := AfterNext(m.q, done), stack := m.stack + [h], resumed := m.resumed + [h])
  }

  /** The running coroutine's next stretch, without what follows it. */
  function Execute<S(!new)>(p: Program<S>, m: Machine<S>): (Machine<S>, End)
    requires m.stack != []
  {
    var t := p.body(m.state, m.stack[|m.stack| - 1]);
    (m.(q := Apply(m.q, t.requests), state := t.state,
        stack := if t.end.Started? then m.stack else m.stack[..|m.stack| - 1]),
     t.end)
  }

  /** One stretch, then the handoff if it is on, then the loop of `runAll` if control got there. */
  function Turn<S(!new)>(p: Program<S>, m: Machine<S>, symmetric: bool): Machine<S> {
    if m.stack == [] then m
    else
      var (ran, end) := Execute(p, m);
      var next := if symmetric && !end.Returned? then Fetch(p, ran) else ran;
      if next.stack == [] then Fetch(p, next) else next
  }

  function Drain<S(!new)>(p: Program<S>, q: seq<Entry>, s: S, symmetric: bool, turns: nat): Machine<S> {
    if turns == 0 then Fetch(p, Machine(q, s, [], []))
    else Turn(p, Drain(p, q, s, symmetric, turns - 1), symmetric)
  }

  /** A coroutine has just started another one that suspended, while a live handle was queued. */
  predicate Nests<S(!new)>(p: Program<S>, m: Machine<S>) {
    && m.stack != []
    && var (ran, end) := Execute(p, m);
    && end.Started?
    && Live(ran.q, p.done(ran.state)) != []
  }

  /** Two machines agree on everything but tombstones and done handles in the deque. */
  predicate Same<S(==, !new)>(p: Program<S>, m: Machine<S>, n: Machine<S>) {
    && m.state == n.state && m.stack == n.stack && m.resumed == n.resumed
    && Live(m.q, p.done(m.state)) == Live(n.q, p.done(n.state))
  }

  lemma {:induction false} ApplyLive(q: seq<Entry>, r: seq<Entry>, requests: seq<Request>, done: set<Handle>)
    requires Live(q, done) == Live(r, done)
    ensures Live(Apply(q, requests), done) == Live(Apply(r, requests), done)
    decreases |requests|
  {
    if requests != [] {
      match requests[0]
      case Enqueue(h) =>
        EnqueueAppends(q, h, done);
        EnqueueAppends(r, h, done);
        ApplyLive(q + [Some(h)], r + [Some(h)], requests[1..], done);
      case Cancel(h) =>
        CancelRemoves(q, h, done);
        CancelRemoves(r, h, done);
        ApplyLive(Cancelled(q, h), Cancelled(r, h), requests[1..], done);
    }
  }

  function Minus(s: seq<Handle>, done: set<Handle>): seq<Handle> {
    if s == [] then [] else (if s[0] in done then [] else [s[0]]) + Minus(s[1..], done)
  }

  lemma {:induction false} LiveShrinks(q: seq<Entry>, done: set<Handle>, more: set<Handle>)
    requires done <= more
    ensures Live(q, more) == Minus(Live(q, done), more)
  {
    if q != [] {
      LiveShrinks(q[1..], done, more);
      if Runnable(q[0], done) {
        assert Live(q, done)[1..] == Live(q[1..], done);
      } else {
        assert Live(q, done) == Live(q[1..], done);
        assert Live(q, more) == Live(q[1..], more);
      }
    }
  }

  lemma FetchSame<S(!new)>(p: Program<S>, m: Machine<S>, n: Machine<S>)
    requires Same(p, m, n)
    ensures Same(p, Fetch(p, m), Fetch(p, n))
    ensures Live(m.q, p.done(m.state)) == [] ==> Same(p, Fetch(p, m), n)
  {
    NextTakesHead(m.q, p.done(m.state));
    NextTakesHead(n.q, p.done(n.state));
  }

  lemma ExecuteSame<S(!new)>(p: Program<S>, m: Machine<S>, n: Machine<S>)
    requires p.DoneIsFinal() && Same(p, m, n) && m.stack != []
    ensures Same(p, Execute(p, m).0, Execute(p, n).0) && Execute(p, m).1 == Execute(p, n).1
  {
    var t := p.body(m.state, m.stack[|m.stack| - 1]);
    var before, after := p.done(m.state), p.done(t.state);
    assert before <= after;
    LiveShrinks(m.q, before, after);
    LiveShrinks(n.q, before, after);
    ApplyLive(m.q, n.q, t.requests, after);
  }

  /** Between two machines that agree, one turn with handoff and one without end in agreement if
      and only if the turn does not start a coroutine that suspends while a live handle is queued. */
  lemma TurnsAgreeExactly<S(!new)>(p: Program<S>, on: Machine<S>, off: Machine<S>)
    requires p.DoneIsFinal() && Same(p, on, off) && |off.stack| <= 1
    ensures Same(p, Turn(p, on, true), Turn(p, off, false)) <==> !Nests(p, off)
    ensures !Nests(p, off) ==> |Turn(p, off, false).stack| <= 1
  {
    if off.stack != [] {
      ExecuteSame(p, on, off);
      var (ranOn, end) := Execute(p, on);
      var ranOff := Execute(p, off).0;
      FetchSame(p, ranOn, ranOff);
      NextTakesHead(ranOn.q, p.done(ranOn.state));
      if end.HandedOff? && Live(ranOn.q, p.done(ranOn.state)) == [] {
        FetchSame(p, Fetch(p, ranOn), ranOff);
      }
    }
  }

  ghost predicate NeverNests<S(!new)>(p: Program<S>, q: seq<Entry>, s: S, turns: nat) {
    turns == 0 || (NeverNests(p, q, s, turns - 1) && !Nests(p, Drain(p, q, s, false, turns - 1)))
  }

  /** Draining with symmetric handoff resumes the same handles in the same order as draining
      without it, for all bodies, enqueues and cancels, as long as no coroutine starts another one
      that suspends while a live handle is queued. */
  lemma {:induction false} DrainsAgree<S(!new)>(p: Program<S>, q: seq<Entry>, s: S, turns: nat)
    requires p.DoneIsFinal()
    requires NeverNests(p, q, s, turns)
    ensures Same(p, Drain(p, q, s, true, turns), Drain(p, q, s, false, turns))
    ensures Drain(p, q, s, true, turns).resumed == Drain(p, q, s, false, turns).resumed
    ensures |Drain(p, q, s, false, turns).stack| <= 1
  {
    if turns > 0 {
      DrainsAgree(p, q, s, turns - 1);
      TurnsAgreeExactly(p, Drain(p, q, s, true, turns - 1), Drain(p, q, s, false, turns - 1));
    }
  }

  /** The two drains agree after each of the first `turns` turns. */
  ghost predicate AgreeThroughout<S(!new)>(p: Program<S>, q: seq<Entry>, s: S, turns: nat) {
    && Same(p, Drain(p, q, s, true, turns), Drain(p, q, s, false, turns))
    && (turns == 0 || AgreeThroughout(p, q, s, turns - 1))
  }

  lemma NextTurnAgrees<S(!new)>(p: Program<S>, q: seq<Entry>, s: S, turns: nat)
    requires p.DoneIsFinal() && NeverNests(p, q, s, turns)
    ensures Same(p, Drain(p, q, s, true, turns + 1), Drain(p, q, s, false, turns + 1))
       <==> !Nests(p, Drain(p, q, s, false, turns))
  {
    DrainsAgree(p, q, s, turns);
    TurnsAgreeExactly(p, Drain(p, q, s, true, turns), Drain(p, q, s, false, turns));
  }

  /** Whole drains agree at every moment if and only if no such turn happens. */
  lemma {:induction false} DrainsAgreeExactly<S(!new)>(p: Program<S>, q: seq<Entry>, s: S, turns: nat)
    requires p.DoneIsFinal()
    ensures AgreeThroughout(p, q, s, turns) <==> NeverNests(p, q, s, turns)
  {
    if turns == 0 {
      DrainsAgree(p, q, s, 0);
    } else {
      DrainsAgreeExactly(p, q, s, turns - 1);
      if NeverNests(p, q, s, turns - 1) {
        NextTurnAgrees(p, q, s, turns - 1);
      }
    }
  }

  // ---- the condition is needed -----------------------------------------------------------------

  /** Coroutine 0 starts a coroutine that suspends, and then cancels coroutine 1. */
  function NestingBody(pc: nat, h: Handle): Stretch<nat> {
    if h == 0 && pc == 0 then Stretch(1, [], Started)
    else if h == 0 then Stretch(pc, [Cancel(1)], Returned)
    else Stretch(pc, [], Returned)
  }

  const NESTING: Program<nat> := Program(NestingBody, (s: nat) => {})

  lemma ApplyOne(q: seq<Entry>, r: Request)
    ensures Apply(q, [r]) == if r.Enqueue? then q + [Some(r.h)] else Cancelled(q, r.h)
  {
    assert [r][1..] == [];
  }

  /** Without the condition of `DrainsAgree` the drains can differ: with the handoff, coroutine 1
      is resumed before its cancellation; without it, it is cancelled in time. Both drains end. */
  lemma HandoffOvertakes()
    ensures NESTING.DoneIsFinal()
    ensures Drain(NESTING, [Some(0), Some(1)], 0, true, 3) == Machine([], 1, [], [0, 1])
    ensures Drain(NESTING, [Some(0), Some(1)], 0, false, 3) == Machine([], 1, [], [0])
  {
    var q: seq<Entry> := [Some(0), Some(1)];
    ApplyOne([], Cancel(1));
    ApplyOne([Some(1)], Cancel(1));
    var start := Machine([Some(1)], 0, [0], [0]);
    assert Fetch(NESTING, Machine(q, 0, [], [])) == start;
    assert Turn(NESTING, start, false) == start.(state := 1);
    assert Turn(NESTING, start.(state := 1), false) == Machine([], 1, [], [0]);
    assert Drain(NESTING, q, 0, false, 1) == start.(state := 1);
    assert Turn(NESTING, start, true) == Machine([], 1, [0, 1], [0, 1]);
    assert Turn(NESTING, Machine([], 1, [0, 1], [0, 1]), true) == Machine([], 1, [0], [0, 1]);
    assert Drain(NESTING, q, 0, true, 1) == Machine([], 1, [0, 1], [0, 1]);
  }
}
