/** Whole drains, compared with a definition that has no deque: a log of what the coroutines ask of the
    scheduler, in program order, and the rule of SchedulerRuns for what is resumed next. */
module DrainRuns {
  import opened Wrappers
  import opened Schedulers
  import opened Handoff
  import SR = SchedulerRuns

  // ---- the reference ---------------------------------------------------------------------------

  /** What a coroutine asks for in one stretch, in the order in which it asks. */
  function Asked(requests: seq<Request>): seq<SR.Event> {
    seq(|requests|, k requires 0 <= k < |requests| =>
      match requests[k]
      case Enqueue(h) => SR.Enqueue(h)
      case Cancel(h) => SR.Cancel(h))
  }

  /** What is in the deque at the beginning. */
  function Queued(q: seq<Entry>): seq<SR.Event> {
    if q == [] then []
    else
      var last := q[|q| - 1];
      Queued(q[..|q| - 1]) + if last.Some? then [SR.Enqueue(last.value)] else []
  }

  ghost function Finishes(done: set<Handle>): (events: seq<SR.Event>)
    ensures forall e :: e in events <==> e.Finish? && e.h in done
  {
    if done == {} then []
    else
      var h :| h in done;
      Finishes(done - {h}) + [SR.Finish(h)]
  }

  /** The handles that have been resumed: those of the served enqueue events. */
  function ResumedBy(log: seq<SR.Event>): seq<Handle> {
    var served := SR.Served(log);
    SR.ServedInOrder(log);
    seq(|served|, k requires 0 <= k < |served| => assert served[k] in served; log[served[k]].h)
  }

  datatype Reference<S> = Reference(log: seq<SR.Event>, state: S, stack: seq<Handle>)

  /** The oldest enqueue event that survives is served. */
  function Serve<S>(r: Reference<S>): Reference<S> {
    r.(log := r.log + [SR.Next],
       stack := match SR.Oldest(r.log, SR.Served(r.log), 0)
                case None => r.stack
                case Some(i) => r.stack + [r.log[i].h])
  }

  ghost function Stretched<S(!new)>(p: Program<S>, r: Reference<S>): Reference<S>
    requires r.stack != []
  {
    var t := p.body(r.state, r.stack[|r.stack| - 1]);
    Reference(r.log + Asked(t.requests) + Finishes(p.done(t.state)), t.state,
              if t.end.Started? then r.stack else r.stack[..|r.stack| - 1])
  }

  /** A stretch; what is handed control, if the handoff is on; and the loop, once nobody runs. */
  ghost function Turned<S(!new)>(p: Program<S>, r: Reference<S>, symmetric: bool): Reference<S> {
    if r.stack == [] then r
    else
      var ran := Stretched(p, r);
      var end := p.body(r.state, r.stack[|r.stack| - 1]).end;
      var handed := if symmetric && !end.Returned? then Serve(ran) else ran;
      if handed.stack == [] then Serve(handed) else handed
  }

  ghost function Drained<S(!new)>(p: Program<S>, q: seq<Entry>, s: S, symmetric: bool, turns: nat): Reference<S> {
    if turns == 0 then Serve(Reference(Queued(q) + Finishes(p.done(s)), s, []))
    else Turned(p, Drained(p, q, s, symmetric, turns - 1), symmetric)
  }

  // ---- logs ------------------------------------------------------------------------------------

  lemma Extended(log: seq<SR.Event>, e: SR.Event)
    ensures SR.Run(log + [e]) == SR.Step(SR.Run(log), e)
    ensures SR.Served(log + [e])
         == SR.Served(log) + if e.Next? && SR.Oldest(log, SR.Served(log), 0).Some?
                             then [SR.Oldest(log, SR.Served(log), 0).value] else []
  {
    assert (log + [e])[..|log|] == log;
  }

  lemma ExtendedResumes(log: seq<SR.Event>, e: SR.Event)
    ensures ResumedBy(log + [e])
         == ResumedBy(log) + if e.Next? && SR.Oldest(log, SR.Served(log), 0).Some?
                             then [log[SR.Oldest(log, SR.Served(log), 0).value].h] else []
  {
    Extended(log, e);
    SR.ServedInOrder(log);
    SR.ServedInOrder(log + [e]);
    var served := SR.Served(log);
    forall k | 0 <= k < |served|
      ensures ResumedBy(log + [e])[k] == ResumedBy(log)[k]
    {
      assert served[k] in served;
    }
  }

  /** Events other than Next resume nobody; the deque and the done set change as they say. */
  ghost predicate Quietly(log: seq<SR.Event>, more: seq<SR.Event>) {
    ResumedBy(log + more) == ResumedBy(log)
  }

  lemma {:induction false} AskedRuns(log: seq<SR.Event>, requests: seq<Request>, q: seq<Entry>, done: set<Handle>)
    requires Live(SR.Run(log).q, done) == Live(q, done)
    ensures Quietly(log, Asked(requests)) && SR.Run(log + Asked(requests)).done == SR.Run(log).done
    ensures Live(SR.Run(log + Asked(requests)).q, done) == Live(Apply(q, requests), done)
    decreases |requests|
  {
    if requests == [] {
      assert log + Asked(requests) == log;
    } else {
      var first, rest := Asked(requests)[0], requests[1..];
      var log' := log + [first];
      Extended(log, first);
      ExtendedResumes(log, first);
      assert log + Asked(requests) == log' + Asked(rest);
      var d := SR.Run(log).q;
      match requests[0]
      case Enqueue(h) =>
        EnqueueAppends(d, h, done);
        EnqueueAppends(q, h, done);
        AskedRuns(log', rest, q + [Some(h)], done);
      case Cancel(h) =>
        CancelRemoves(d, h, done);
        CancelRemoves(q, h, done);
        AskedRuns(log', rest, Cancelled(q, h), done);
    }
  }

  lemma LastFinish(done: set<Handle>) returns (h: Handle)
    requires done != {}
    ensures h in done && Finishes(done) == Finishes(done - {h}) + [SR.Finish(h)]
  {
    h :| h in done && Finishes(done) == Finishes(done - {h}) + [SR.Finish(h)];
  }

  lemma FinishOne(log: seq<SR.Event>, more: seq<SR.Event>, h: Handle)
    requires Quietly(log, more)
    ensures Quietly(log, more + [SR.Finish(h)])
    ensures SR.Run(log + (more + [SR.Finish(h)]))
         == SR.Run(log + more).(done := SR.Run(log + more).done + {h})
  {
    assert log + (more + [SR.Finish(h)]) == (log + more) + [SR.Finish(h)];
    Extended(log + more, SR.Finish(h));
    ExtendedResumes(log + more, SR.Finish(h));
  }

  lemma {:induction false} FinishesRun(log: seq<SR.Event>, done: set<Handle>)
    ensures Quietly(log, Finishes(done))
    ensures SR.Run(log + Finishes(done)).q == SR.Run(log).q
    ensures SR.Run(log + Finishes(done)).done == SR.Run(log).done + done
    decreases |done|
  {
    if done == {} {
      assert log + Finishes(done) == log;
    } else {
      var h := LastFinish(done);
      FinishesRun(log, done - {h});
      FinishOne(log, Finishes(done - {h}), h);
      assert done == (done - {h}) + {h};
    }
  }

  lemma {:induction false} QueuedRuns(q: seq<Entry>, done: set<Handle>)
    ensures ResumedBy(Queued(q)) == [] && SR.Run(Queued(q)).done == {}
    ensures Live(SR.Run(Queued(q)).q, done) == Live(q, done)
  {
    if q != [] {
      var most, last := q[..|q| - 1], q[|q| - 1];
      QueuedRuns(most, done);
      assert q == most + [last];
      if last.Some? {
        Extended(Queued(most), SR.Enqueue(last.value));
        ExtendedResumes(Queued(most), SR.Enqueue(last.value));
        EnqueueAppends(SR.Run(Queued(most)).q, last.value, done);
        EnqueueAppends(most, last.value, done);
      } else {
        LiveConcat(most, [last], done);
        assert [last][1..] == [] && Queued(q) == Queued(most);
      }
    }
  }

  // ---- drains ----------------------------------------------------------------------------------

  /** The machine is where the reference says; tombstones and done handles in the deque do not matter. */
  ghost predicate Matches<S(!new)>(p: Program<S>, m: Machine<S>, r: Reference<S>) {
    && m.state == r.state && m.stack == r.stack && m.resumed == ResumedBy(r.log)
    && SR.Run(r.log).done == p.done(m.state)
    && Live(SR.Run(r.log).q, p.done(m.state)) == Live(m.q, p.done(m.state))
  }

  lemma FetchMatches<S(!new)>(p: Program<S>, m: Machine<S>, r: Reference<S>)
    requires Matches(p, m, r)
    ensures Matches(p, Fetch(p, m), Serve(r))
  {
    var done := p.done(m.state);
    SR.DequeRefinesSurvivors(r.log);
    NextTakesHead(m.q, done);
    NextTakesHead(SR.Run(r.log).q, done);
    Extended(r.log, SR.Next);
    ExtendedResumes(r.log, SR.Next);
  }

  lemma ExecuteMatches<S(!new)>(p: Program<S>, m: Machine<S>, r: Reference<S>)
    requires p.DoneIsFinal() && Matches(p, m, r) && m.stack != []
    ensures Matches(p, Execute(p, m).0, Stretched(p, r))
  {
    var t := p.body(m.state, m.stack[|m.stack| - 1]);
    var before, after := p.done(m.state), p.done(t.state);
    LiveShrinks(m.q, before, after);
    LiveShrinks(SR.Run(r.log).q, before, after);
    AskedRuns(r.log, t.requests, m.q, after);
    FinishesRun(r.log + Asked(t.requests), after);
    assert before + after == after;
  }

  /** A drain, with the handoff on or off, is where the reference says after every number of turns: the
      coroutines that it has resumed are those of the oldest enqueue events that had survived, in program
      order, at each moment at which the scheduler was asked for the next one. */
  lemma {:induction false} DrainServesSurvivors<S(!new)>(
    p: Program<S>, q: seq<Entry>, s: S, symmetric: bool, turns: nat)
    requires p.DoneIsFinal()
    ensures var m, r := Drain(p, q, s, symmetric, turns), Drained(p, q, s, symmetric, turns);
            && m.state == r.state && m.stack == r.stack && m.resumed == ResumedBy(r.log)
            && Matches(p, m, r)
  {
    if turns == 0 {
      var log := Queued(q) + Finishes(p.done(s));
      QueuedRuns(q, p.done(s));
      FinishesRun(Queued(q), p.done(s));
      assert Matches(p, Machine(q, s, [], []), Reference(log, s, []));
      FetchMatches(p, Machine(q, s, [], []), Reference(log, s, []));
    } else {
      DrainServesSurvivors(p, q, s, symmetric, turns - 1);
      TurnMatches(p, Drain(p, q, s, symmetric, turns - 1), Drained(p, q, s, symmetric, turns - 1), symmetric);
    }
  }

  lemma TurnMatches<S(!new)>(p: Program<S>, m: Machine<S>, r: Reference<S>, symmetric: bool)
    requires p.DoneIsFinal() && Matches(p, m, r)
    ensures Matches(p, Turn(p, m, symmetric), Turned(p, r, symmetric))
  {
    if m.stack != [] {
      ExecuteMatches(p, m, r);
      var (ran, end) := Execute(p, m);
      var ranBy := Stretched(p, r);
      FetchMatches(p, ran, ranBy);
      if symmetric && !end.Returned? {
        FetchMatches(p, Fetch(p, ran), Serve(ranBy));
      }
    }
  }
}
