/** Generators of the runtime that one coroutine at a time consumes: each of them goes through a run in the
    sense of GeneratorRuns. */
module RuntimeStreams {
  import opened Wrappers
  import opened Schedulers
  import opened Cores
  import opened Generators
  import opened Channels
  import opened Runtime
  import opened Destruction
  import opened RuntimeInvariant
  import opened RuntimeSteps
  import opened RuntimeSafety
  import opened RuntimeTheorems
  import opened RuntimeMeaning
  import opened RuntimeComposition
  import opened RuntimeHistories
  import GR = GeneratorRuns

  predicate Consumes(w: World, f: Handle, g: Handle) {
    f in w.frames && w.frames[f].place == AtGenerator(g)
  }

  /** A generator is not awaited while another coroutine stands at it, and whoever stands at it is not
      destroyed before it. */
  ghost predicate OneConsumer(w: World, e: Event) {
    && (e.AwaitGenerator? ==> forall f :: !Consumes(w, f, e.g))
    && (forall f, g :: Consumes(w, f, g) && f in Gone(w, e) ==> g in Gone(w, e))
  }

  ghost predicate ReachesSingly(start: World, events: seq<Event>, w: World, past: History)
    decreases |events|
  {
    if events == [] then w == start && past == History([], map[], map[])
    else
      var prefix, last := events[..|events| - 1], events[|events| - 1];
      exists before, earlier ::
        && ReachesSingly(start, prefix, before, earlier) && Enabled(before, last) && OneConsumer(before, last)
        && w == Step(before, last) && past == Recorded(before, last, earlier, w)
  }

  ghost predicate Single(w: World) {
    forall f, h, g :: Consumes(w, f, g) && Consumes(w, h, g) ==> f == h
  }

  /** The record of `g` is a run of a generator and its consumer, in which both are where they are here. */
  ghost predicate Played(w: World, past: History, g: Handle)
    requires g in w.frames
  {
    w.frames[g].kind.Gen? ==>
      && g in past.streams && GR.Possible(past.streams[g])
      && var s := GR.Run(past.streams[g]);
         && (s.producer.Rescheduled? <==> w.frames[g].place.AtYield? && !w.frames[g].kind.suspended)
         && (s.consumer.Away? <==> forall f :: !Consumes(w, f, g))
  }

  // ---- what the record says about the handshake ------------------------------------------------------

  /** Whoever is registered with a generator stands at it. */
  lemma WaiterConsumes(w: World, g: Handle)
    requires Inv(w) && g in w.frames && w.frames[g].kind.Gen? && w.frames[g].core.waiting.Some?
    ensures Consumes(w, w.frames[g].core.waiting.value, g)
  {
    var f := w.frames[g].core.waiting.value;
    assert WaiterOK(w, g) && PlaceOK(w, f);
  }

  /** A coroutine that is queued is not registered any more with the generator it stands at. */
  lemma QueuedIsWoken(w: World, h: Handle, g: Handle)
    requires Inv(w) && Single(w) && Consumes(w, h, g) && Occ(w.queue, h) > 0
    ensures g in w.frames && w.frames[g].kind.Gen? && w.frames[g].core.waiting == None
  {
    assert PlaceOK(w, h);
    if w.frames[g].core.waiting.Some? {
      WaiterConsumes(w, g);
    }
  }

  /** The coroutine that is resumed is queued, or is a generator that is sent on. */
  lemma NextIsQueued(w: World, e: Event)
    requires Next(w, e).Some?
    ensures var h := Next(w, e).value; Occ(w.queue, h) > 0 || (SentOn(w, e) && h == e.g)
  {
    var h := Next(w, e).value;
    var q := w.queue + if SentOn(w, e) then [Some(e.g)] else [];
    assert q[Skipped(q, {})] == Some(h);
    assert Some(h) in w.queue || (SentOn(w, e) && h == e.g);
  }

  /** A generator that is sent on stands at a co_yield. */
  lemma SentOnIsParked(w: World, e: Event)
    requires CoresOK(w) && SentOn(w, e)
    ensures w.frames[e.g].place.AtYield? && w.frames[e.g].kind.Gen? && w.frames[e.g].kind.suspended
  {
    assert CoreOK(w.frames[e.g]);
  }

  lemma HandshakeIs(log: seq<GR.Event<Value>>)
    requires GR.Possible(log) && !GR.Run(log).producer.Destroyed?
    ensures GR.Handshake(GR.Run(log))
  {
    GR.EveryRunShakesHands(log);
  }

  // ---- one step ------------------------------------------------------------------------------------

  lemma AwaitEnabled(w: World, past: History, g: Handle)
    requires OneConsumer(w, AwaitGenerator(g)) && g in w.frames && w.frames[g].kind.Gen? && Played(w, past, g)
    ensures GR.Run(past.streams[g]).consumer.Away?
  {
  }

  lemma RunningIsBusy(w: World, past: History, g: Handle)
    requires Inv(w) && Running(w) && g == Top(w) && w.frames[g].kind.Gen?
    requires Played(w, past, g) && StreamRecorded(w, past, g)
    ensures GR.Run(past.streams[g]).producer.Busy?
  {
    HandshakeIs(past.streams[g]);
    RunningIsEmpty(w);
    TopUnregistered(w);
  }

  lemma DirectEnabled(w: World, e: Event, past: History, g: Handle)
    requires Inv(w) && Callable(w, e) && OneConsumer(w, e) && g in w.frames && w.frames[g].kind.Gen?
    requires Played(w, past, g) && StreamRecorded(w, past, g)
    ensures var d := GeneratorDirectly(w, e, g); d.Some? ==> GR.Enabled(GR.Run(past.streams[g]), d.value)
  {
    if e.AwaitGenerator? && e.g == g {
      AwaitEnabled(w, past, g);
    } else if (e.CoYield? || e.FinishGenerator?) && g == Top(w) {
      RunningIsBusy(w, past, g);
    }
  }

  /** A consumer that is resumed has been woken. */
  lemma ConsumerEnabled(w: World, e: Event, past: History, g: Handle)
    requires Inv(w) && Single(w) && g in w.frames && w.frames[g].kind.Gen?
    requires Played(w, past, g) && StreamRecorded(w, past, g)
    requires Next(w, e).Some? && Consumes(w, Next(w, e).value, g)
    ensures GR.Run(past.streams[g]).consumer.Woken?
  {
    var h := Next(w, e).value;
    NextIsQueued(w, e);
    if SentOn(w, e) {
      SentOnIsParked(w, e);
    }
    QueuedIsWoken(w, h, g);
    HandshakeIs(past.streams[g]);
  }

  /** A generator that is resumed at a co_yield has been rescheduled, by this event or before. */
  lemma ProducerEnabled(w: World, e: Event, past: History, g: Handle)
    requires Inv(w) && g in w.frames && w.frames[g].kind.Gen? && w.frames[g].place.AtYield?
    requires Played(w, past, g) && StreamRecorded(w, past, g) && Next(w, e) == Some(g)
    ensures if SentOn(w, e) && e.g == g then GR.Run(past.streams[g]).core.suspended
            else GR.Run(past.streams[g]).producer.Rescheduled?
  {
    NextIsQueued(w, e);
    assert PlaceOK(w, g);
  }

  lemma DirectKinds(w: World, e: Event, g: Handle)
    requires GeneratorDirectly(w, e, g).Some? && Next(w, e).Some?
    ensures e == AwaitGenerator(g) && HandsOn(w, e) && GeneratorDirectly(w, e, g).value.Await?
  {
  }

  lemma IndirectKinds(w: World, e: Event, g: Handle)
    requires GeneratorIndirectly(w, e, g).Some? && g in w.frames
    ensures Next(w, e).Some?
    ensures var h := Next(w, e).value;
            match GeneratorIndirectly(w, e, g).value
            case RunProducer => h == g && w.frames[g].place.AtYield?
            case RunConsumer => Consumes(w, h, g)
            case _ => false
  {
  }

  /** The streams of `g` before the event, after its first half, and after it. */
  function Between(w: World, e: Event, past: History, g: Handle): GR.Stream<Value>
    requires g in past.streams
  {
    GR.Run(past.streams[g] + Listed(GeneratorDirectly(w, e, g)))
  }

  lemma BetweenIs(w: World, e: Event, past: History, g: Handle)
    requires g in past.streams
    ensures var d := GeneratorDirectly(w, e, g);
            Between(w, e, past, g)
            == if d.None? then GR.Run(past.streams[g]) else GR.Step(GR.Run(past.streams[g]), d.value)
  {
    var d, log := GeneratorDirectly(w, e, g), past.streams[g];
    if d.None? {
      assert log + Listed(d) == log;
    } else {
      StreamExtended(log, d.value);
    }
  }

  lemma ConsumerCase(w: World, e: Event, past: History, g: Handle)
    requires Inv(w) && OneConsumer(w, e) && Single(w) && g in w.frames && w.frames[g].kind.Gen?
    requires Played(w, past, g) && StreamRecorded(w, past, g)
    requires Next(w, e).Some? && Consumes(w, Next(w, e).value, g)
    ensures Between(w, e, past, g).consumer.Woken?
  {
    BetweenIs(w, e, past, g);
    if GeneratorDirectly(w, e, g).Some? {
      DirectKinds(w, e, g);
    }
    ConsumerEnabled(w, e, past, g);
  }

  lemma ProducerCase(w: World, e: Event, past: History, g: Handle)
    requires Inv(w) && g in w.frames && w.frames[g].kind.Gen? && w.frames[g].place.AtYield?
    requires Played(w, past, g) && StreamRecorded(w, past, g) && Next(w, e) == Some(g)
    ensures Between(w, e, past, g).producer.Rescheduled?
  {
    BetweenIs(w, e, past, g);
    if GeneratorDirectly(w, e, g).Some? {
      DirectKinds(w, e, g);
    }
    ProducerEnabled(w, e, past, g);
  }

  lemma IndirectEnabled(w: World, e: Event, past: History, g: Handle)
    requires Inv(w) && OneConsumer(w, e) && Single(w) && g in w.frames && w.frames[g].kind.Gen?
    requires Played(w, past, g) && StreamRecorded(w, past, g)
    ensures var i := GeneratorIndirectly(w, e, g); i.Some? ==> GR.Enabled(Between(w, e, past, g), i.value)
  {
    if GeneratorIndirectly(w, e, g).Some? {
      IndirectKinds(w, e, g);
      if GeneratorIndirectly(w, e, g).value.RunConsumer? {
        ConsumerCase(w, e, past, g);
      } else {
        ProducerCase(w, e, past, g);
      }
    }
  }

  lemma PossibleListed(log: seq<GR.Event<Value>>, e: Option<GR.Event<Value>>)
    requires GR.Possible(log) && (e.Some? ==> GR.Enabled(GR.Run(log), e.value))
    ensures GR.Possible(log + Listed(e))
  {
    if e.None? {
      assert log + Listed(e) == log;
    } else {
      assert (log + [e.value])[..|log|] == log;
    }
  }

  lemma TwoPossible(log: seq<GR.Event<Value>>, a: Option<GR.Event<Value>>, b: Option<GR.Event<Value>>)
    requires GR.Possible(log) && (a.Some? ==> GR.Enabled(GR.Run(log), a.value))
    requires b.Some? ==> GR.Enabled(GR.Run(log + Listed(a)), b.value)
    ensures GR.Possible(log + (Listed(a) + Listed(b)))
    ensures GR.Run(log + (Listed(a) + Listed(b)))
         == if b.None? then GR.Run(log + Listed(a)) else GR.Step(GR.Run(log + Listed(a)), b.value)
  {
    Grouped(log, Listed(a), Listed(b));
    PossibleListed(log, a);
    PossibleListed(log + Listed(a), b);
    if b.None? {
      assert (log + Listed(a)) + Listed(b) == log + Listed(a);
    } else {
      StreamExtended(log + Listed(a), b.value);
    }
  }

  lemma StaysPossible(w: World, e: Event, past: History, g: Handle)
    requires Inv(w) && Callable(w, e) && OneConsumer(w, e) && Single(w) && g in w.frames && w.frames[g].kind.Gen?
    requires Played(w, past, g) && StreamRecorded(w, past, g)
    ensures var i, log := GeneratorIndirectly(w, e, g), past.streams[g] + GeneratorEvents(w, e, g);
            && GR.Possible(log)
            && GR.Run(log) == if i.None? then Between(w, e, past, g) else GR.Step(Between(w, e, past, g), i.value)
  {
    DirectEnabled(w, e, past, g);
    IndirectEnabled(w, e, past, g);
    TwoPossible(past.streams[g], GeneratorDirectly(w, e, g), GeneratorIndirectly(w, e, g));
  }

  // ---- where both are afterwards -----------------------------------------------------------------

  lemma TopStands(w: World, e: Event)
    requires Inv(w) && Callable(w, e) && w.stack != []
    ensures Top(w) in w.frames && w.frames[Top(w)].place.OnStack?
  {
    assert w.frames[w.stack[|w.stack| - 1]].place.OnStack?;
  }

  /** Whoever stands at a generator stays there until it is resumed. */
  lemma StaysAt(w: World, e: Event, w': World, f: Handle, g: Handle)
    requires Moved(w, e, w') && Callable(w, e) && Consumes(w, f, g) && f in w'.frames && Arrives(w, e) != Some(f)
    requires w.stack != [] ==> f != Top(w)
    ensures Consumes(w', f, g)
  {
  }

  lemma ComesTo(w: World, e: Event, w': World, f: Handle, g: Handle)
    requires Moved(w, e, w') && Consumes(w', f, g) && f in w.frames
    ensures Arrives(w, e) != Some(f)
    ensures Consumes(w, f, g) || (e == AwaitGenerator(g) && HandsOn(w, e) && w.stack != [] && f == Top(w))
  {
  }

  lemma AwaiterStandsThere(w: World, g: Handle, w': World)
    requires var e := AwaitGenerator(g);
             Moved(w, e, w') && HandsOn(w, e) && w.stack != [] && Top(w) in w.frames && Next(w, e) != Some(Top(w))
    ensures Consumes(w', Top(w), g)
  {
    NothingGone(w, AwaitGenerator(g));
  }

  lemma NewbornConsumesNothing(w: World, e: Event, w': World, f: Handle, g: Handle)
    requires Moved(w, e, w') && f !in w.frames
    ensures !Consumes(w', f, g)
  {
  }

  lemma NextOccurs(q: seq<Entry>)
    ensures NextHandle(q, {}).Some? ==> Occ(q, NextHandle(q, {}).value) > 0
  {
    if NextHandle(q, {}).Some? {
      assert q[Skipped(q, {})] == NextHandle(q, {});
    }
  }

  lemma TopIsNotNext(w: World, e: Event)
    requires Inv(w) && w.stack != [] && HandsOn(w, e)
    ensures Next(w, e) != Some(Top(w))
  {
    TopIsNotQueued(w, e);
    NextOccurs(w.queue + if SentOn(w, e) then [Some(e.g)] else []);
  }

  lemma AwaitedIsAwaited(w: World, w': World, past: History, g: Handle)
    requires var e := AwaitGenerator(g);
             && Inv(w) && Callable(w, e) && OneConsumer(w, e) && Single(w) && Moved(w, e, w') && HandsOn(w, e)
    requires g in w.frames && Played(w, past, g) && StreamRecorded(w, past, g)
    ensures var e := AwaitGenerator(g);
            && !GR.Run(past.streams[g] + GeneratorEvents(w, e, g)).consumer.Away?
            && Consumes(w', Top(w), g)
  {
    var e := AwaitGenerator(g);
    StaysPossible(w, e, past, g);
    BetweenIs(w, e, past, g);
    TopIsNotNext(w, e);
    AwaiterStandsThere(w, g, w');
    if GeneratorIndirectly(w, e, g).Some? {
      IndirectKinds(w, e, g);
    }
  }

  lemma BetweenConsumer(w: World, e: Event, past: History, g: Handle)
    requires !(e == AwaitGenerator(g) && HandsOn(w, e)) && g in w.frames && w.frames[g].kind.Gen?
    requires StreamRecorded(w, past, g)
    ensures Between(w, e, past, g).consumer.Away? <==> GR.Run(past.streams[g]).consumer.Away?
  {
    BetweenIs(w, e, past, g);
  }

  lemma ConsumerRuns(w: World, e: Event, g: Handle)
    ensures GeneratorIndirectly(w, e, g) == Some(GR.RunConsumer)
       <==> Next(w, e).Some? && Consumes(w, Next(w, e).value, g)
  {
  }

  lemma ConsumerIs(w: World, e: Event, past: History, g: Handle, s: GR.Stream<Value>)
    requires !(e == AwaitGenerator(g) && HandsOn(w, e)) && g in w.frames && w.frames[g].kind.Gen?
    requires StreamRecorded(w, past, g)
    requires var i := GeneratorIndirectly(w, e, g);
             s == if i.None? then Between(w, e, past, g) else GR.Step(Between(w, e, past, g), i.value)
    ensures s.consumer.Away? <==>
            (GR.Run(past.streams[g]).consumer.Away? || (Next(w, e).Some? && Consumes(w, Next(w, e).value, g)))
  {
    BetweenConsumer(w, e, past, g);
    ConsumerRuns(w, e, g);
    if GeneratorIndirectly(w, e, g).Some? {
      IndirectStreamEvents(w, e, g);
    }
  }

  lemma OthersConsume(w: World, e: Event, past: History, g: Handle)
    requires Inv(w) && Callable(w, e) && OneConsumer(w, e) && Single(w)
    requires !(e == AwaitGenerator(g) && HandsOn(w, e)) && g in w.frames && w.frames[g].kind.Gen?
    requires Played(w, past, g) && StreamRecorded(w, past, g)
    ensures GR.Run(past.streams[g] + GeneratorEvents(w, e, g)).consumer.Away? <==>
            (GR.Run(past.streams[g]).consumer.Away? || (Next(w, e).Some? && Consumes(w, Next(w, e).value, g)))
  {
    StaysPossible(w, e, past, g);
    ConsumerIs(w, e, past, g, GR.Run(past.streams[g] + GeneratorEvents(w, e, g)));
  }

  /** Unless the event makes a coroutine wait for `g`, nobody new stands there, and only who is resumed leaves. */
  lemma StandsElsewhere(w: World, e: Event, w': World, f: Handle, g: Handle)
    requires Inv(w) && Callable(w, e) && OneConsumer(w, e) && Moved(w, e, w') && g in w'.frames && g in w.frames
    requires !(e == AwaitGenerator(g) && HandsOn(w, e))
    ensures Consumes(w', f, g) <==> Consumes(w, f, g) && Next(w, e) != Some(f)
  {
    if w.stack != [] {
      TopStands(w, e);
    }
    if Consumes(w', f, g) {
      if f in w.frames {
        ComesTo(w, e, w', f, g);
      } else {
        NewbornConsumesNothing(w, e, w', f, g);
      }
    }
    if Consumes(w, f, g) && Next(w, e) != Some(f) {
      StaysAt(w, e, w', f, g);
    }
  }

  lemma ConsumersElsewhere(w: World, w': World, next: Option<Handle>, g: Handle)
    requires Single(w) && forall f: Handle :: Consumes(w', f, g) <==> Consumes(w, f, g) && next != Some(f)
    ensures (forall f :: !Consumes(w', f, g)) <==>
            (forall f :: !Consumes(w, f, g)) || (next.Some? && Consumes(w, next.value, g))
  {
    if f :| Consumes(w, f, g) && forall h :: !Consumes(w', h, g) {
      assert !Consumes(w', f, g);
    }
  }

  lemma ConsumerAfter(w: World, e: Event, w': World, past: History, g: Handle)
    requires Inv(w) && Callable(w, e) && OneConsumer(w, e) && Single(w) && Moved(w, e, w')
    requires g in w.frames && g in w'.frames && w.frames[g].kind.Gen?
    requires Played(w, past, g) && StreamRecorded(w, past, g)
    ensures GR.Run(past.streams[g] + GeneratorEvents(w, e, g)).consumer.Away? <==> forall f :: !Consumes(w', f, g)
  {
    if e == AwaitGenerator(g) && HandsOn(w, e) {
      AwaitedIsAwaited(w, w', past, g);
    } else {
      OthersConsume(w, e, past, g);
      forall f: Handle
        ensures Consumes(w', f, g) <==> Consumes(w, f, g) && Next(w, e) != Some(f)
      {
        StandsElsewhere(w, e, w', f, g);
      }
      ConsumersElsewhere(w, w', Next(w, e), g);
    }
  }

  lemma ResumedProducer(w: World, e: Event, w': World, past: History, g: Handle)
    requires g in past.streams && g in w.frames && g in w'.frames && Moved(w, e, w')
    requires GeneratorIndirectly(w, e, g) == Some(GR.RunProducer)
    ensures GR.Step(Between(w, e, past, g), GR.RunProducer).producer.Busy? && w'.frames[g].place.OnStack?
  {
    IndirectKinds(w, e, g);
  }

  lemma EndedProducer(w: World, e: Event, w': World, past: History, g: Handle)
    requires g in w.frames && g in w'.frames && w.frames[g].kind.Gen? && w'.frames[g].kind.Gen?
    requires Moved(w, e, w') && GenFollows(w, e, w', g) && g in past.streams
    requires (e.CoYield? || e.FinishGenerator?) && w.stack != [] && g == Top(w)
    ensures !Between(w, e, past, g).producer.Rescheduled?
    ensures w'.frames[g].place.AtYield? ==> w'.frames[g].kind.suspended
    ensures GeneratorIndirectly(w, e, g) == None
  {
    BetweenIs(w, e, past, g);
  }

  lemma YieldPlace(w: World, e: Event, w': World, g: Handle)
    requires Moved(w, e, w') && g in w.frames && g in w'.frames
    requires GeneratorIndirectly(w, e, g) != Some(GR.RunProducer) && !e.Start?
    requires !((e.CoYield? || e.FinishGenerator?) && w.stack != [] && g == Top(w))
    requires w.stack != [] && g == Top(w) ==> w.frames[g].place.OnStack?
    requires e == Callback(g) ==> w.frames[g].place.AtExternal?
    ensures w'.frames[g].place.AtYield? <==> w.frames[g].place.AtYield?
  {
  }

  lemma OtherProducer(w: World, e: Event, w': World, past: History, g: Handle)
    requires g in w.frames && g in w'.frames && w.frames[g].kind.Gen? && w'.frames[g].kind.Gen?
    requires CoreOK(w.frames[g]) && StreamRecorded(w, past, g) && Played(w, past, g) && GenFollows(w, e, w', g)
    requires GeneratorIndirectly(w, e, g) != Some(GR.RunProducer)
    requires !((e.CoYield? || e.FinishGenerator?) && w.stack != [] && g == Top(w))
    requires w'.frames[g].place.AtYield? <==> w.frames[g].place.AtYield?
    requires e == AwaitGenerator(g) && !HandsOn(w, e) ==> AwaitReady(w.frames[g].AsGen())
    ensures Between(w, e, past, g).producer.Rescheduled?
       <==> w'.frames[g].place.AtYield? && !w'.frames[g].kind.suspended
  {
    BetweenIs(w, e, past, g);
    if GeneratorIndirectly(w, e, g).Some? {
      IndirectStreamEvents(w, e, g);
    }
  }

  lemma SameProducer(w: World, e: Event, past: History, g: Handle)
    requires g in past.streams && GeneratorIndirectly(w, e, g) != Some(GR.RunProducer)
    ensures var i := GeneratorIndirectly(w, e, g);
            i.Some? ==> GR.Step(Between(w, e, past, g), i.value).producer == Between(w, e, past, g).producer
  {
    if GeneratorIndirectly(w, e, g).Some? {
      IndirectStreamEvents(w, e, g);
    }
  }

  lemma StartedElsewhere(w: World, e: Event, w': World, g: Handle)
    requires Moved(w, e, w') && Callable(w, e) && g in w.frames && g in w'.frames
    requires GeneratorIndirectly(w, e, g) != Some(GR.RunProducer)
    requires !((e.CoYield? || e.FinishGenerator?) && w.stack != [] && g == Top(w))
    requires w.stack != [] && g == Top(w) ==> w.frames[g].place.OnStack?
    ensures w'.frames[g].place.AtYield? <==> w.frames[g].place.AtYield?
  {
    if !e.Start? {
      YieldPlace(w, e, w', g);
    }
  }

  lemma NotHandedOn(w: World, e: Event, g: Handle)
    requires e == AwaitGenerator(g) && !HandsOn(w, e) && g in w.frames && w.frames[g].kind.Gen?
    ensures AwaitReady(w.frames[g].AsGen())
  {
  }

  lemma ProducerIs(w: World, e: Event, w': World, past: History, g: Handle, s: GR.Stream<Value>)
    requires g in w.frames && g in w'.frames && w.frames[g].kind.Gen? && w'.frames[g].kind.Gen?
    requires Callable(w, e) && Moved(w, e, w') && GenFollows(w, e, w', g)
    requires CoreOK(w.frames[g]) && StreamRecorded(w, past, g) && Played(w, past, g)
    requires w.stack != [] && g == Top(w) ==> w.frames[g].place.OnStack?
    requires var i := GeneratorIndirectly(w, e, g);
             s == if i.None? then Between(w, e, past, g) else GR.Step(Between(w, e, past, g), i.value)
    ensures s.producer.Rescheduled? <==> w'.frames[g].place.AtYield? && !w'.frames[g].kind.suspended
  {
    if GeneratorIndirectly(w, e, g) == Some(GR.RunProducer) {
      ResumedProducer(w, e, w', past, g);
    } else {
      SameProducer(w, e, past, g);
      if (e.CoYield? || e.FinishGenerator?) && w.stack != [] && g == Top(w) {
        EndedProducer(w, e, w', past, g);
      } else {
        StartedElsewhere(w, e, w', g);
        if e == AwaitGenerator(g) && !HandsOn(w, e) {
          NotHandedOn(w, e, g);
        }
        OtherProducer(w, e, w', past, g);
      }
    }
  }

  /** A generator stands at a co_yield, sent on but not resumed yet, exactly while its record says so. */
  lemma ProducerAfter(w: World, e: Event, w': World, past: History, g: Handle)
    requires Inv(w) && Callable(w, e) && OneConsumer(w, e) && Single(w) && Moved(w, e, w')
    requires g in w.frames && g in w'.frames && w.frames[g].kind.Gen? && w'.frames[g].kind.Gen?
    requires GenFollows(w, e, w', g) && Played(w, past, g) && StreamRecorded(w, past, g)
    ensures GR.Run(past.streams[g] + GeneratorEvents(w, e, g)).producer.Rescheduled?
       <==> w'.frames[g].place.AtYield? && !w'.frames[g].kind.suspended
  {
    StaysPossible(w, e, past, g);
    assert CoreOK(w.frames[g]);
    if w.stack != [] {
      TopStands(w, e);
    }
    ProducerIs(w, e, w', past, g, GR.Run(past.streams[g] + GeneratorEvents(w, e, g)));
  }

  // ---- whole runs ------------------------------------------------------------------------------------

  lemma StaysPlayed(w: World, e: Event, w': World, past: History, g: Handle)
    requires Inv(w) && Callable(w, e) && OneConsumer(w, e) && Single(w) && Moved(w, e, w')
    requires g in w.frames && g in w'.frames && w.frames[g].kind.Gen? && w'.frames[g].kind.Gen?
    requires GenFollows(w, e, w', g) && Played(w, past, g) && StreamRecorded(w, past, g)
    ensures Played(w', Recorded(w, e, past, w'), g)
  {
    StaysPossible(w, e, past, g);
    ConsumerAfter(w, e, w', past, g);
    ProducerAfter(w, e, w', past, g);
    assert Recorded(w, e, past, w').streams[g] == past.streams[g] + GeneratorEvents(w, e, g);
  }

  lemma BornPlayed(w: World, e: Event, w': World, past: History)
    requires Inv(w) && Moved(w, e, w') && e.Start? && e.n !in w.frames && Inv(w')
    ensures Played(w', Recorded(w, e, past, w'), e.n)
  {
    forall f
      ensures !Consumes(w', f, e.n)
    {
      if Consumes(w', f, e.n) {
        NobodyStandsAtNewborn(w, e, w', f);
      }
    }
  }

  lemma NobodyStandsAtNewborn(w: World, e: Event, w': World, f: Handle)
    requires PlacesOK(w) && Moved(w, e, w') && e.Start? && e.n !in w.frames
    ensures !Consumes(w', f, e.n)
  {
    if f in w.frames {
      assert PlaceOK(w, f);
      if Consumes(w', f, e.n) {
        ComesTo(w, e, w', f, e.n);
      }
    }
  }

  lemma StaysSingle(w: World, e: Event, w': World)
    requires Single(w) && OneConsumer(w, e) && Moved(w, e, w')
    ensures Single(w')
  {
    forall f, h, g | Consumes(w', f, g) && Consumes(w', h, g)
      ensures f == h
    {
      if f !in w.frames {
        NewbornConsumesNothing(w, e, w', f, g);
      } else if h !in w.frames {
        NewbornConsumesNothing(w, e, w', h, g);
      } else {
        ComesTo(w, e, w', f, g);
        ComesTo(w, e, w', h, g);
      }
    }
  }

  ghost predicate AllPlayed(w: World, past: History) {
    Single(w) && forall g :: g in w.frames ==> Played(w, past, g)
  }

  lemma StepPlayed(w: World, e: Event, w': World, past: History)
    requires Inv(w) && Inv(w') && Enabled(w, e) && OneConsumer(w, e) && Composed(w, e, w')
    requires AllRecorded(w, past) && AllPlayed(w, past)
    ensures AllPlayed(w', Recorded(w, e, past, w'))
  {
    StaysSingle(w, e, w');
    forall g | g in w'.frames
      ensures Played(w', Recorded(w, e, past, w'), g)
    {
      if g !in w.frames {
        BornPlayed(w, e, w', past);
      } else if w'.frames[g].kind.Gen? {
        assert StreamRecorded(w, past, g) && Played(w, past, g);
        StaysPlayed(w, e, w', past, g);
      }
    }
  }

  /** In every run of the runtime in which a generator has one consumer at a time, who does not die before
      it: every generator has gone through a run in the sense of GeneratorRuns, with the values of its
      co_yields, and is where that run leads to. */
  lemma {:induction false} EveryGeneratorIsPlayed(
    chans: map<nat, Chan<Value>>, events: seq<Event>, w: World, past: History)
    requires Fresh(chans) && ReachesSingly(Empty(chans), events, w, past)
    ensures Inv(w) && AllRecorded(w, past) && AllPlayed(w, past)
    decreases |events|
  {
    if events == [] {
      EveryRunIsRecorded(chans, [], w, past);
    } else {
      var prefix, last := events[..|events| - 1], events[|events| - 1];
      var before, earlier :|
        && ReachesSingly(Empty(chans), prefix, before, earlier) && Enabled(before, last) && OneConsumer(before, last)
        && w == Step(before, last) && past == Recorded(before, last, earlier, w);
      EveryGeneratorIsPlayed(chans, prefix, before, earlier);
      StepKeeps(before, last);
      StepComposes(before, last);
      StepRecorded(before, last, w, earlier);
      StepPlayed(before, last, w, earlier);
    }
  }

  /** So the consumer of a generator, when it runs again, receives what GeneratorRuns says: the oldest value
      that has been yielded and not received; once the generator is over, and all has been received, the
      exception that it has thrown, or the end. */
  lemma ConsumerReceives(
    chans: map<nat, Chan<Value>>, events: seq<Event>, w: World, past: History, h: Handle, g: Handle)
    requires Fresh(chans) && ReachesSingly(Empty(chans), events, w, past)
    requires NextHandle(w.queue, DoneSet(w)) == Some(h) && Consumes(w, h, g)
    ensures g in w.frames && w.frames[g].kind.Gen? && g in past.streams
    ensures var s := GR.Run(past.streams[g]);
            var received := GR.Received(s.answers);
            match Reply(w.frames[g].AsGen())
            case Got(v) => s.yielded == received + [v]
            case Raised(x) => s.producer.Over? && s.yielded == received && s.failure == Some(x)
            case Ended => s.producer.Over? && s.yielded == received && s.failure == None
  {
    EveryGeneratorIsPlayed(chans, events, w, past);
    NextIsSuspended(w, h);
    assert PlaceOK(w, h);
    assert StreamRecorded(w, past, g) && Played(w, past, g);
    QueuedIsWoken(w, h, g);
    HandshakeIs(past.streams[g]);
    var s := GR.Run(past.streams[g]);
    assert GR.Received(s.answers) + [] == GR.Received(s.answers);
  }
}
