/** Whole runs of the runtime, with a record of what has happened to each part. What is proved of all runs
    of the scheduler, of a promise and of a generator holds of these records. */
module RuntimeHistories {
  import opened Wrappers
  import opened Schedulers
  import opened Cores
  import opened Generators
  import opened Channels
  import opened Runtime
  import opened RuntimeInvariant
  import opened RuntimeSteps
  import opened RuntimeSafety
  import opened RuntimeTheorems
  import opened RuntimeMeaning
  import opened RuntimeComposition
  import PR = PromiseRuns
  import GR = GeneratorRuns
  import SR = SchedulerRuns

  // ---- records -----------------------------------------------------------------------------------

  /** What the scheduler has been asked, and what has happened to every promise and every generator that
      exists, since it was made. */
  datatype History = History(
    requests: seq<SR.Event>,
    promises: map<Handle, seq<PR.Event<Value>>>,
    streams: map<Handle, seq<GR.Event<Value>>>
  )

  ghost function Recorded(w: World, e: Event, past: History, w': World): History {
    History(
      past.requests + Scheduling(w, e),
      map p | p in w'.frames && w'.frames[p].kind.Plain? ::
        if p in w.frames && p in past.promises then past.promises[p] + PromiseEvents(w, e, p) else [],
      map g | g in w'.frames && w'.frames[g].kind.Gen? ::
        if g in w.frames && g in past.streams then past.streams[g] + GeneratorEvents(w, e, g) else [])
  }

  ghost predicate ReachesRecorded(start: World, events: seq<Event>, w: World, past: History)
    decreases |events|
  {
    if events == [] then w == start && past == History([], map[], map[])
    else
      var prefix, last := events[..|events| - 1], events[|events| - 1];
      exists before, earlier ::
        && ReachesRecorded(start, prefix, before, earlier) && Enabled(before, last)
        && w == Step(before, last) && past == Recorded(before, last, earlier, w)
  }

  /** The promise `p` is where its record leads to. */
  ghost predicate PromiseRecorded(w: World, past: History, p: Handle)
    requires p in w.frames
  {
    w.frames[p].kind.Plain? ==>
      p in past.promises && PR.EndsOnce(past.promises[p]) && PR.Run(past.promises[p]).core == w.frames[p].core
  }

  ghost predicate StreamRecorded(w: World, past: History, g: Handle)
    requires g in w.frames
  {
    w.frames[g].kind.Gen? ==>
      && g in past.streams && !GR.Run(past.streams[g]).producer.Destroyed?
      && GR.Run(past.streams[g]).core == w.frames[g].AsGen()
      && Fidelity(GR.Run(past.streams[g]))
  }

  /** What was yielded is what was received, and what is in the slot; and only what was thrown is rethrown. */
  ghost predicate Fidelity(s: GR.Stream<Value>) {
    && s.yielded == GR.Received(s.answers) + GR.InSlot(s.core)
    && (forall x: Exception :: Raised(x) in s.answers ==> s.failure == Some(x))
    && (s.core.base.slot.Some? && s.core.base.slot.value.Thrown? ==> s.failure == Some(s.core.base.slot.value.error))
    && (s.failure.Some? ==> s.core.terminated)
  }

  ghost predicate AllRecorded(w: World, past: History) {
    && SR.Run(past.requests) == SR.Deque(w.queue, {})
    && forall p :: p in w.frames ==> PromiseRecorded(w, past, p) && StreamRecorded(w, past, p)
  }

  // ---- promises ------------------------------------------------------------------------------------

  lemma CoreOfStep(l: PR.Log<Value>, e: PR.Event<Value>)
    ensures PR.Step(l, e).core == CoreThen(l.core, Some(e))
  {
  }

  lemma ListedRuns(log: seq<PR.Event<Value>>, e: Option<PR.Event<Value>>)
    ensures PR.Run(log + Listed(e)).core == CoreThen(PR.Run(log).core, e)
    ensures PR.EndsOnce(log) && (e.Some? && e.value.Finish? ==> !PR.Run(log).core.phase.Finished?) ==>
              PR.EndsOnce(log + Listed(e))
  {
    if e.None? {
      assert log + Listed(e) == log;
    } else {
      PR.Extended(log, e.value);
      CoreOfStep(PR.Run(log), e.value);
      if PR.EndsOnce(log) && (e.value.Finish? ==> !PR.Run(log).core.phase.Finished?) {
        PR.EveryRunDelivers(log);
        var longer := log + [e.value];
        forall i, j | 0 <= i < j < |longer| && longer[i].Finish?
          ensures !longer[j].Finish?
        {
          assert log[i] == longer[i];
          assert j < |log| ==> log[j] == longer[j];
        }
      }
    }
  }

  lemma Grouped<T>(a: seq<T>, b: seq<T>, c: seq<T>)
    ensures a + (b + c) == (a + b) + c
  {
  }

  lemma TwoListedRun(log: seq<PR.Event<Value>>, a: Option<PR.Event<Value>>, b: Option<PR.Event<Value>>)
    requires PR.EndsOnce(log)
    requires a.Some? && a.value.Finish? ==> !PR.Run(log).core.phase.Finished?
    requires b.Some? && b.value.Finish? ==> !CoreThen(PR.Run(log).core, a).phase.Finished?
    ensures PR.Run(log + (Listed(a) + Listed(b))).core == CoreThen(CoreThen(PR.Run(log).core, a), b)
    ensures PR.EndsOnce(log + (Listed(a) + Listed(b)))
  {
    Grouped(log, Listed(a), Listed(b));
    ListedRuns(log, a);
    ListedRuns(log + Listed(a), b);
  }

  lemma DirectEnd(w: World, e: Event, p: Handle)
    requires p in w.frames && Directly(w, e, p).Some? && Directly(w, e, p).value.Finish?
    ensures e.Finish? && w.stack != [] && p == Top(w)
  {
  }

  lemma IndirectEvents(w: World, e: Event, p: Handle)
    requires p in w.frames && Indirectly(w, e, p).Some?
    ensures Indirectly(w, e, p).value.Fetch? || Indirectly(w, e, p).value.Deregister?
  {
  }

  lemma NoEnd(c: Core<Value>, e: Option<PR.Event<Value>>)
    requires e.Some? ==> e.value.Fetch? || e.value.Deregister?
    ensures CoreThen(c, e).phase.Finished? <==> c.phase.Finished?
  {
  }

  /** A promise ends while its coroutine runs, and then it has not ended before. */
  lemma EndsOnceInAll(w: World, e: Event, log: seq<PR.Event<Value>>, p: Handle)
    requires Inv(w) && Callable(w, e) && p in w.frames && w.frames[p].kind.Plain?
    requires PR.EndsOnce(log) && PR.Run(log).core == w.frames[p].core
    ensures PR.EndsOnce(log + PromiseEvents(w, e, p))
    ensures PR.Run(log + PromiseEvents(w, e, p)).core
         == if EndsLast(e) then CoreThen(CoreThen(w.frames[p].core, Indirectly(w, e, p)), Directly(w, e, p))
            else CoreThen(CoreThen(w.frames[p].core, Directly(w, e, p)), Indirectly(w, e, p))
  {
    var d, i := Directly(w, e, p), Indirectly(w, e, p);
    if i.Some? {
      IndirectEvents(w, e, p);
    }
    NoEnd(w.frames[p].core, i);
    if d.Some? && d.value.Finish? {
      DirectEnd(w, e, p);
      RunningIsEmpty(w);
    }
    if EndsLast(e) {
      TwoListedRun(log, i, d);
    } else {
      TwoListedRun(log, d, i);
    }
  }

  lemma PromiseStays(w: World, e: Event, w': World, past: History, p: Handle)
    requires Inv(w) && Callable(w, e) && p in w.frames && p in w'.frames && CoreFollows(w, e, w', p)
    requires w.frames[p].kind.Plain? && w'.frames[p].kind.Plain? && PromiseRecorded(w, past, p)
    ensures PromiseRecorded(w', Recorded(w, e, past, w'), p)
  {
    EndsOnceInAll(w, e, past.promises[p], p);
    assert Recorded(w, e, past, w').promises[p] == past.promises[p] + PromiseEvents(w, e, p);
  }

  // ---- generators ------------------------------------------------------------------------------------

  /** What a generator's stream goes through while the generator exists. */
  lemma StreamStep(s: GR.Stream<Value>, e: GR.Event<Value>)
    requires !s.producer.Destroyed? && !e.Cancel?
    ensures GR.Step(s, e).core == GenThen(s.core, Some(e)) && !GR.Step(s, e).producer.Destroyed?
  {
  }

  lemma StreamExtended(log: seq<GR.Event<Value>>, e: GR.Event<Value>)
    ensures GR.Run(log + [e]) == GR.Step(GR.Run(log), e)
  {
    assert (log + [e])[..|log|] == log;
  }

  /** A value is yielded, and an exception thrown, only into an empty slot; and nothing is thrown twice. */
  lemma AnsweredFaithfully(s: GR.Stream<Value>, s': GR.Stream<Value>)
    requires Fidelity(s)
    requires s' == s.(core := AfterReply(s.core), answers := s.answers + [Reply(s.core)], consumer := s'.consumer)
    ensures Fidelity(s')
  {
    GR.ReceivedOne(s.answers, Reply(s.core));
    var r := Reply(s.core);
    assert GR.InSlot(s.core) == (if r.Got? then [r.value] else []) && GR.InSlot(s'.core) == [];
    forall x: Exception | Raised(x) in s'.answers
      ensures s'.failure == Some(x)
    {
      assert Raised(x) in s.answers || Raised(x) == r;
    }
  }

  lemma StreamFaithful(s: GR.Stream<Value>, e: GR.Event<Value>)
    requires Fidelity(s) && !s.producer.Destroyed? && !e.Cancel?
    requires e.Yield? || e.Throw? ==> s.core.base.slot == None && s.failure == None
    ensures Fidelity(GR.Step(s, e))
  {
    match e
    case Await(h) => if AwaitReady(s.core) { AnsweredFaithfully(s, GR.Step(s, e)); }
    case RunConsumer => AnsweredFaithfully(s, GR.Step(s, e));
    case Yield(v) => assert GR.Received(s.answers) + [] + [v] == GR.Received(s.answers) + [v];
    case _ =>
  }

  lemma ListedStream(log: seq<GR.Event<Value>>, e: Option<GR.Event<Value>>)
    requires Fidelity(GR.Run(log)) && !GR.Run(log).producer.Destroyed? && (e.Some? ==> !e.value.Cancel?)
    requires e.Some? && (e.value.Yield? || e.value.Throw?) ==>
               GR.Run(log).core.base.slot == None && !GR.Run(log).core.terminated
    ensures var s := GR.Run(log + Listed(e));
            Fidelity(s) && !s.producer.Destroyed? && s.core == GenThen(GR.Run(log).core, e)
  {
    if e.None? {
      assert log + Listed(e) == log;
    } else {
      StreamExtended(log, e.value);
      StreamStep(GR.Run(log), e.value);
      StreamFaithful(GR.Run(log), e.value);
    }
  }

  lemma TwoListedStreams(log: seq<GR.Event<Value>>, a: Option<GR.Event<Value>>, b: Option<GR.Event<Value>>)
    requires Fidelity(GR.Run(log)) && !GR.Run(log).producer.Destroyed? && (a.Some? ==> !a.value.Cancel?)
    requires a.Some? && (a.value.Yield? || a.value.Throw?) ==>
               GR.Run(log).core.base.slot == None && !GR.Run(log).core.terminated
    requires b.Some? ==> b.value.RunProducer? || b.value.RunConsumer?
    ensures var s := GR.Run(log + (Listed(a) + Listed(b)));
            Fidelity(s) && !s.producer.Destroyed? && s.core == GenThen(GenThen(GR.Run(log).core, a), b)
  {
    Grouped(log, Listed(a), Listed(b));
    ListedStream(log, a);
    ListedStream(log + Listed(a), b);
  }

  lemma DirectStreamEvents(w: World, e: Event, g: Handle)
    requires GeneratorDirectly(w, e, g).Some?
    ensures var d := GeneratorDirectly(w, e, g).value;
            && !d.Cancel?
            && (d.Yield? || d.Throw? ==> (e.CoYield? || e.FinishGenerator?) && w.stack != [] && g == Top(w))
  {
  }

  lemma IndirectStreamEvents(w: World, e: Event, g: Handle)
    requires GeneratorIndirectly(w, e, g).Some?
    ensures GeneratorIndirectly(w, e, g).value.RunProducer? || GeneratorIndirectly(w, e, g).value.RunConsumer?
  {
  }

  lemma StreamInAll(w: World, e: Event, log: seq<GR.Event<Value>>, g: Handle)
    requires Inv(w) && Callable(w, e) && g in w.frames && w.frames[g].kind.Gen?
    requires var s := GR.Run(log); Fidelity(s) && !s.producer.Destroyed? && s.core == w.frames[g].AsGen()
    ensures var s := GR.Run(log + GeneratorEvents(w, e, g));
            && Fidelity(s) && !s.producer.Destroyed?
            && s.core == GenThen(GenThen(w.frames[g].AsGen(), GeneratorDirectly(w, e, g)), GeneratorIndirectly(w, e, g))
  {
    var d, i := GeneratorDirectly(w, e, g), GeneratorIndirectly(w, e, g);
    if d.Some? {
      DirectStreamEvents(w, e, g);
      if d.value.Yield? || d.value.Throw? {
        RunningIsEmpty(w);
      }
    }
    if i.Some? {
      IndirectStreamEvents(w, e, g);
    }
    TwoListedStreams(log, d, i);
  }

  lemma StreamStays(w: World, e: Event, w': World, past: History, g: Handle)
    requires Inv(w) && Callable(w, e) && g in w.frames && g in w'.frames
    requires w.frames[g].kind.Gen? && w'.frames[g].kind.Gen? && GenFollows(w, e, w', g) && StreamRecorded(w, past, g)
    ensures StreamRecorded(w', Recorded(w, e, past, w'), g)
  {
    StreamInAll(w, e, past.streams[g], g);
    assert Recorded(w, e, past, w').streams[g] == past.streams[g] + GeneratorEvents(w, e, g);
  }

  // ---- whole runs ------------------------------------------------------------------------------------

  lemma BornRecorded(w: World, e: Event, w': World, past: History)
    requires Moved(w, e, w') && e.Start? && e.n !in w.frames
    ensures PromiseRecorded(w', Recorded(w, e, past, w'), e.n) && StreamRecorded(w', Recorded(w, e, past, w'), e.n)
  {
  }

  lemma StepRecorded(w: World, e: Event, w': World, past: History)
    requires Inv(w) && Enabled(w, e) && Composed(w, e, w') && AllRecorded(w, past)
    ensures AllRecorded(w', Recorded(w, e, past, w'))
  {
    var after := Recorded(w, e, past, w');
    SR.RunsAppend(past.requests, Scheduling(w, e));
    forall p | p in w'.frames
      ensures PromiseRecorded(w', after, p) && StreamRecorded(w', after, p)
    {
      if p !in w.frames {
        BornRecorded(w, e, w', past);
      } else if w.frames[p].kind.Plain? {
        assert PromiseRecorded(w, past, p);
        PromiseStays(w, e, w', past, p);
      } else {
        assert StreamRecorded(w, past, p);
        StreamStays(w, e, w', past, p);
      }
    }
  }

  /** In every run of the runtime: the scheduler's deque is what the requests have made of it, every promise
      has gone through a run in which its coroutine ends once, and every generator hands out what it has
      yielded, in order. */
  lemma {:induction false} EveryRunIsRecorded(
    chans: map<nat, Chan<Value>>, events: seq<Event>, w: World, past: History)
    requires Fresh(chans) && ReachesRecorded(Empty(chans), events, w, past)
    ensures Inv(w) && AllRecorded(w, past)
    decreases |events|
  {
    if events == [] {
      EveryRunIsSafe(chans, [], w);
    } else {
      var prefix, last := events[..|events| - 1], events[|events| - 1];
      var before, earlier :|
        && ReachesRecorded(Empty(chans), prefix, before, earlier) && Enabled(before, last)
        && w == Step(before, last) && past == Recorded(before, last, earlier, w);
      EveryRunIsRecorded(chans, prefix, before, earlier);
      StepKeeps(before, last);
      StepComposes(before, last);
      StepRecorded(before, last, w, earlier);
    }
  }

  // ---- what that means ---------------------------------------------------------------------------------

  /** In every run of the runtime, the coroutine that is resumed next is that of the oldest request which has
      neither been cancelled since nor been served. */
  lemma OldestIsNext(chans: map<nat, Chan<Value>>, events: seq<Event>, w: World, past: History)
    requires Fresh(chans) && ReachesRecorded(Empty(chans), events, w, past)
    ensures NextHandle(w.queue, DoneSet(w))
         == match SR.Oldest(past.requests, SR.Served(past.requests), 0)
            case None => None
            case Some(i) => Some(past.requests[i].h)
  {
    EveryRunIsRecorded(chans, events, w, past);
    DoneAreNotQueued(w);
    SR.DequeRefinesSurvivors(past.requests);
  }

  /** In every run of the runtime: whoever takes the result of a promise gets the outcome with which its
      coroutine has ended, if it has not been taken before; and nothing before the end. */
  lemma TakerGetsTheOutcome(
    chans: map<nat, Chan<Value>>, events: seq<Event>, w: World, past: History, p: Handle)
    requires Fresh(chans) && ReachesRecorded(Empty(chans), events, w, past)
    requires p in w.frames && w.frames[p].kind.Plain?
    ensures p in past.promises
    ensures forall o :: PR.Finish(o) in past.promises[p] ==>
              && Over(w, p)
              && Fetched(w.frames[p].core)
                 == (if PR.TakenSince(past.promises[p], o) then Err(FinishedBefore) else PR.Given(o))
              && Unwrapped(w.frames[p].core)
                 == (if PR.TakenSince(past.promises[p], o) then Err(Unfulfilled) else PR.Given(o))
    ensures (forall o :: PR.Finish(o) !in past.promises[p]) ==>
              !Over(w, p) && Fetched(w.frames[p].core) == Unwrapped(w.frames[p].core) == Err(Unfulfilled)
  {
    EveryRunIsRecorded(chans, events, w, past);
    assert PromiseRecorded(w, past, p);
    var log := past.promises[p];
    PR.EveryRunDelivers(log);
    PR.FirstTakerGetsTheOutcome(log);
    forall o
      ensures PR.Run(log).result == Some(o) <==> PR.Finish(o) in log
    {
      PR.ResultIsTheOutcome(log, o);
    }
  }

  /** A coroutine that has awaited a promise gets, when it runs again, what the promise's coroutine has
      returned or thrown, unless somebody else has taken it in between. */
  lemma ResumedGetsTheOutcome(
    chans: map<nat, Chan<Value>>, events: seq<Event>, w: World, past: History, h: Handle)
    requires Fresh(chans) && ReachesRecorded(Empty(chans), events, w, past)
    requires NextHandle(w.queue, DoneSet(w)) == Some(h) && h in w.frames && w.frames[h].place.AtPromise?
    ensures var p := w.frames[h].place.p;
            && p in w.frames && p in past.promises
            && exists o :: PR.Finish(o) in past.promises[p] &&
                 Fetched(w.frames[p].core)
                 == (if PR.TakenSince(past.promises[p], o) then Err(FinishedBefore) else PR.Given(o))
  {
    EveryRunIsRecorded(chans, events, w, past);
    ResumedFindsItsPromiseFinished(w, h);
    TakerGetsTheOutcome(chans, events, w, past, w.frames[h].place.p);
  }

  /** In every run of the runtime, however many coroutines take from it: a generator hands out the values of
      its co_yields in order, each once, and at most one of them has not been handed out yet. */
  lemma GeneratorHandsOutInOrder(
    chans: map<nat, Chan<Value>>, events: seq<Event>, w: World, past: History, g: Handle)
    requires Fresh(chans) && ReachesRecorded(Empty(chans), events, w, past)
    requires g in w.frames && w.frames[g].kind.Gen?
    ensures g in past.streams
    ensures var s := GR.Run(past.streams[g]);
            && s.core == w.frames[g].AsGen()
            && s.yielded == GR.Received(s.answers) + GR.InSlot(s.core)
            && (forall x: Exception :: Raised(x) in s.answers ==> s.failure == Some(x))
  {
    EveryRunIsRecorded(chans, events, w, past);
    assert StreamRecorded(w, past, g);
  }

  lemma NothingInSlot(s: GR.Stream<Value>)
    requires Fidelity(s) && !s.core.terminated
    ensures Reply(s.core) == Ended <==> s.yielded == GR.Received(s.answers)
  {
    var received := GR.Received(s.answers);
    assert |received + GR.InSlot(s.core)| == |received| + |GR.InSlot(s.core)|;
    assert received + [] == received;
  }

  /** A coroutine that has waited for a generator is told, when it runs again, that there is nothing more,
      although the generator goes on, if and only if all that was yielded has been handed out to others. */
  lemma NothingLeftExactly(
    chans: map<nat, Chan<Value>>, events: seq<Event>, w: World, past: History, h: Handle, g: Handle)
    requires Fresh(chans) && ReachesRecorded(Empty(chans), events, w, past)
    requires NextHandle(w.queue, DoneSet(w)) == Some(h) && h in w.frames && w.frames[h].place == AtGenerator(g)
    ensures g in w.frames && w.frames[g].kind.Gen? && g in past.streams
    ensures var s := GR.Run(past.streams[g]);
            && s.core == w.frames[g].AsGen()
            && (!s.core.terminated ==> (Reply(s.core) == Ended <==> s.yielded == GR.Received(s.answers)))
  {
    EveryRunIsRecorded(chans, events, w, past);
    ReferredTo(w, h);
    assert StreamRecorded(w, past, g);
    if !GR.Run(past.streams[g]).core.terminated {
      NothingInSlot(GR.Run(past.streams[g]));
    }
  }
}
