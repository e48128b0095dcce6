/** All runs of one channel: any number of readers and writers, any interleaving of their turns, and
    cancellations at any moment. */
module ChannelRuns {
  import opened Wrappers
  import opened Schedulers
  import opened Channels
  import SR = SchedulerRuns

  datatype Event<T> =
    | Put(h: Handle, value: T)          // a coroutine calls put() and runs until it ends or suspends
    | Get(h: Handle)                    // the same for get() or a round of getAll()
    | PutResumed(h: Handle, value: T)   // the scheduler resumes a woken writer
    | GetResumed(h: Handle)             // the scheduler resumes a woken reader
    | CancelReader(h: Handle)           // a waiting reader is destroyed
    | CancelWriter(h: Handle)
    | CancelWokenReader(h: Handle)      // a reader is destroyed after having been woken, before it ran
    | CancelWokenWriter(h: Handle)

  datatype System<T> = System(
    chan: Chan<T>,
    wokenReaders: multiset<Handle>,  // woken, but not resumed yet
    wokenWriters: multiset<Handle>,
    accepted: seq<T>,                // every item put into the channel
    taken: seq<T>,                   // every item taken out
    readLog: seq<SR.Event>,          // what happened to the ring of readers
    writeLog: seq<SR.Event>
  )

  function Start<T>(capacity: nat, maxWaiters: nat): System<T> {
    System(Chan(capacity, [], maxWaiters, [], []), multiset{}, multiset{}, [], [], [], [])
  }

  function Handles(entries: seq<Entry>): multiset<Handle> {
    if entries != [] && entries[0].Some? then multiset{entries[0].value} else multiset{}
  }

  function Accepted<T>(s: System<T>, item: T): System<T> {
    s.(chan := Accept(s.chan, item),
       wokenReaders := s.wokenReaders + Handles(Woken(s.chan.readers)),
       accepted := s.accepted + [item],
       readLog := s.readLog + [SR.Next])
  }

  function Removed<T>(s: System<T>): System<T>
    requires s.chan.items != []
  {
    s.(chan := Remove(s.chan),
       wokenWriters := s.wokenWriters + Handles(Woken(s.chan.writers)),
       taken := s.taken + [s.chan.items[0]],
       writeLog := s.writeLog + [SR.Next])
  }

  predicate HasSpace<T>(c: Chan<T>) { |c.items| < c.capacity }

  function Step<T>(s: System<T>, e: Event<T>): System<T> {
    var c := s.chan;
    match e
    case Put(h, v) =>
      if HasSpace(c) then Accepted(s, v)
      else if |c.writers| < c.maxWaiters
      then s.(chan := c.(writers := c.writers + [Some(h)]), writeLog := s.writeLog + [SR.Enqueue(h)])
      else s
    case Get(h) =>
      if c.items != [] then Removed(s)
      else if |c.readers| < c.maxWaiters
      then s.(chan := c.(readers := c.readers + [Some(h)]), readLog := s.readLog + [SR.Enqueue(h)])
      else s
    case PutResumed(h, v) =>
      var s' := s.(wokenWriters := s.wokenWriters - multiset{h});
      if HasSpace(c) then Accepted(s', v) else s'
    case GetResumed(h) =>
      var s' := s.(wokenReaders := s.wokenReaders - multiset{h});
      if c.items != [] then Removed(s') else s'
    case CancelReader(h) =>
      s.(chan := c.(readers := Cancelled(c.readers, h)), readLog := s.readLog + [SR.Cancel(h)])
    case CancelWriter(h) =>
      s.(chan := c.(writers := Cancelled(c.writers, h)), writeLog := s.writeLog + [SR.Cancel(h)])
    case CancelWokenReader(h) => s.(wokenReaders := s.wokenReaders - multiset{h})
    case CancelWokenWriter(h) => s.(wokenWriters := s.wokenWriters - multiset{h})
  }

  predicate Enabled<T>(s: System<T>, e: Event<T>) {
    match e
    case PutResumed(h, _) => h in s.wokenWriters
    case GetResumed(h) => h in s.wokenReaders
    case CancelWokenReader(h) => h in s.wokenReaders
    case CancelWokenWriter(h) => h in s.wokenWriters
    case _ => true
  }

  function Run<T>(start: System<T>, events: seq<Event<T>>): System<T> {
    if events == [] then start else Step(Run(start, events[..|events| - 1]), events[|events| - 1])
  }

  /** Every event of the run is enabled when it happens, and satisfies `discipline`. */
  ghost predicate Possible<T(!new)>(
    start: System<T>, events: seq<Event<T>>, discipline: (System<T>, Event<T>) -> bool)
  {
    events == []
    || (var before, e := events[..|events| - 1], events[|events| - 1];
        && Possible(start, before, discipline)
        && Enabled(Run(start, before), e) && discipline(Run(start, before), e))
  }

  ghost predicate Anything<T(!new)>(s: System<T>, e: Event<T>) { true }

  // ---- conservation and order ------------------------------------------------------------------

  /** Items come out in the order in which they went in, none is lost and none is invented; the
      channel and its waiter rings stay within their bounds. */
  predicate ItemsConserved<T(==)>(s: System<T>) {
    && s.accepted == s.taken + s.chan.items
    && |s.chan.items| <= s.chan.capacity
    && |s.chan.readers| <= s.chan.maxWaiters && |s.chan.writers| <= s.chan.maxWaiters
  }

  /** A ring of waiters has gone through exactly the logged suspensions, cancellations and wake-ups. */
  predicate Logged(log: seq<SR.Event>, w: Waiters) {
    SR.Run(log) == SR.Deque(w, {})
  }

  predicate Conserves<T(==)>(s: System<T>) {
    ItemsConserved(s) && Logged(s.readLog, s.chan.readers) && Logged(s.writeLog, s.chan.writers)
  }

  lemma LoggedStep(log: seq<SR.Event>, w: Waiters, h: Handle)
    requires Logged(log, w)
    ensures Logged(log + [SR.Next], AfterWaking(w))
    ensures Logged(log + [SR.Enqueue(h)], w + [Some(h)])
    ensures Logged(log + [SR.Cancel(h)], Cancelled(w, h))
  {
    assert (log + [SR.Next])[..|log|] == log;
    assert (log + [SR.Enqueue(h)])[..|log|] == log;
    assert (log + [SR.Cancel(h)])[..|log|] == log;
  }

  lemma AcceptedConserves<T>(s: System<T>, item: T)
    requires Conserves(s) && HasSpace(s.chan)
    ensures Conserves(Accepted(s, item))
  {
    LoggedStep(s.readLog, s.chan.readers, 0);
    assert s.taken + s.chan.items + [item] == s.taken + (s.chan.items + [item]);
  }

  lemma RemovedConserves<T>(s: System<T>)
    requires Conserves(s) && s.chan.items != []
    ensures Conserves(Removed(s))
  {
    LoggedStep(s.writeLog, s.chan.writers, 0);
    assert s.taken + s.chan.items == s.taken + [s.chan.items[0]] + s.chan.items[1..];
  }

  lemma ConservesKept<T>(s: System<T>, e: Event<T>)
    requires Conserves(s)
    ensures Conserves(Step(s, e))
    ensures Step(s, e).chan.capacity == s.chan.capacity && Step(s, e).chan.maxWaiters == s.chan.maxWaiters
  {
    var c := s.chan;
    match e
    case Put(h, v) =>
      if HasSpace(c) { AcceptedConserves(s, v); } else { LoggedStep(s.writeLog, c.writers, h); }
    case Get(h) =>
      if c.items != [] { RemovedConserves(s); } else { LoggedStep(s.readLog, c.readers, h); }
    case PutResumed(h, v) =>
      if HasSpace(c) { AcceptedConserves(s.(wokenWriters := s.wokenWriters - multiset{h}), v); }
    case GetResumed(h) =>
      if c.items != [] { RemovedConserves(s.(wokenReaders := s.wokenReaders - multiset{h})); }
    case CancelReader(h) => LoggedStep(s.readLog, c.readers, h);
    case CancelWriter(h) => LoggedStep(s.writeLog, c.writers, h);
    case _ =>
  }

  lemma {:induction false} EveryRunConserves<T(!new)>(capacity: nat, maxWaiters: nat, events: seq<Event<T>>)
    requires Possible(Start(capacity, maxWaiters), events, Anything)
    ensures Conserves(Run(Start(capacity, maxWaiters), events))
    ensures var c := Run<T>(Start(capacity, maxWaiters), events).chan;
            c.capacity == capacity && c.maxWaiters == maxWaiters
  {
    if events != [] {
      var before, e := events[..|events| - 1], events[|events| - 1];
      EveryRunConserves(capacity, maxWaiters, before);
      ConservesKept(Run(Start(capacity, maxWaiters), before), e);
    }
  }

  // ---- fair waking -----------------------------------------------------------------------------

  /** The waiter that a put wakes is the one that suspended first among those that have neither been
      cancelled while waiting nor been woken before, and there is none exactly if nobody is woken. */
  lemma WakesInSuspensionOrder<T>(s: System<T>)
    requires Conserves(s)
    ensures FirstWaiter(s.chan.readers)
            == match SR.Oldest(s.readLog, SR.Served(s.readLog), 0)
               case None => None
               case Some(i) => Some(s.readLog[i].h)
    ensures FirstWaiter(s.chan.writers)
            == match SR.Oldest(s.writeLog, SR.Served(s.writeLog), 0)
               case None => None
               case Some(i) => Some(s.writeLog[i].h)
  {
    SR.DequeRefinesSurvivors(s.readLog);
    SR.DequeRefinesSurvivors(s.writeLog);
  }

  function AllWoken<T>(s: System<T>): nat { |s.wokenReaders| + |s.wokenWriters| }

  function Moved<T>(s: System<T>): nat { |s.accepted| + |s.taken| }

  lemma AcceptingWakes<T>(s: System<T>, item: T)
    ensures AllWoken(s) <= AllWoken(Accepted(s, item)) <= AllWoken(s) + 1 && Moved(Accepted(s, item)) == Moved(s) + 1
  {
  }

  lemma RemovingWakes<T>(s: System<T>)
    requires s.chan.items != []
    ensures AllWoken(s) <= AllWoken(Removed(s)) <= AllWoken(s) + 1 && Moved(Removed(s)) == Moved(s) + 1
  {
  }

  /** The turn of a coroutine that had been woken, or its end. */
  predicate Leaves<T>(e: Event<T>) {
    e.PutResumed? || e.GetResumed? || e.CancelWokenReader? || e.CancelWokenWriter?
  }

  lemma WakesAtMostOneLeaving<T>(s: System<T>, e: Event<T>)
    requires Enabled(s, e) && Leaves(e)
    ensures var s' := Step(s, e);
            0 <= AllWoken(s') + 1 - AllWoken(s) <= Moved(s') - Moved(s) <= 1
  {
    match e
    case PutResumed(h, v) =>
      TakenOut(s.wokenWriters, h);
      AcceptingWakes(s.(wokenWriters := s.wokenWriters - multiset{h}), v);
    case GetResumed(h) =>
      TakenOut(s.wokenReaders, h);
      if s.chan.items != [] {
        RemovingWakes(s.(wokenReaders := s.wokenReaders - multiset{h}));
      }
    case CancelWokenReader(h) => TakenOut(s.wokenReaders, h);
    case CancelWokenWriter(h) => TakenOut(s.wokenWriters, h);
  }

  /** Each turn moves at most one item, and wakes at most as many coroutines as it moves items. */
  lemma WakesAtMostOne<T>(s: System<T>, e: Event<T>)
    requires Enabled(s, e)
    ensures var s' := Step(s, e);
            0 <= AllWoken(s') + (if Leaves(e) then 1 else 0) - AllWoken(s) <= Moved(s') - Moved(s) <= 1
  {
    if Leaves(e) {
      WakesAtMostOneLeaving(s, e);
    } else {
      match e
      case Put(h, v) => AcceptingWakes(s, v);
      case Get(h) => if s.chan.items != [] { RemovingWakes(s); }
      case _ =>
    }
  }

  lemma TakenOut(woken: multiset<Handle>, h: Handle)
    requires h in woken
    ensures |woken - multiset{h}| == |woken| - 1
  {
    assert woken == (woken - multiset{h}) + multiset{h};
  }

  // ---- no lost wake-up -------------------------------------------------------------------------

  /** Somebody waits only while everything it could take has been promised to woken coroutines. */
  predicate NobodyForgotten<T>(s: System<T>) {
    && (Live(s.chan.readers, {}) != [] ==> |s.chan.items| <= |s.wokenReaders|)
    && (Live(s.chan.writers, {}) != [] ==> s.chan.capacity - |s.chan.items| <= |s.wokenWriters|)
  }

  ghost predicate WokenSurvive<T(!new)>(s: System<T>, e: Event<T>) {
    !e.CancelWokenReader? && !e.CancelWokenWriter?
  }

  lemma WaitersAfter(w: Waiters, h: Handle)
    ensures Live(w + [Some(h)], {}) == Live(w, {}) + [h]
    ensures Live(Cancelled(w, h), {}) == Without(Live(w, {}), h)
    ensures Live(w, {}) == [] ==> Woken(w) == [] && AfterWaking(w) == []
    ensures Live(w, {}) != [] ==>
              Woken(w) == [Some(Live(w, {})[0])] && Live(AfterWaking(w), {}) == Live(w, {})[1..]
  {
    EnqueueAppends(w, h, {});
    CancelRemoves(w, h, {});
    NextTakesHead(w, {});
  }

  /** An accepted item uses up one place and wakes one waiting reader, if there is one. */
  lemma AcceptedForgetsNobody<T>(s: System<T>, item: T)
    requires HasSpace(s.chan)
    requires Live(s.chan.readers, {}) != [] ==> |s.chan.items| <= |s.wokenReaders|
    requires Live(s.chan.writers, {}) != [] ==> s.chan.capacity - |s.chan.items| <= |s.wokenWriters| + 1
    ensures NobodyForgotten(Accepted(s, item))
  {
    WaitersAfter(s.chan.readers, 0);
  }

  lemma RemovedForgetsNobody<T>(s: System<T>)
    requires s.chan.items != []
    requires Live(s.chan.readers, {}) != [] ==> |s.chan.items| <= |s.wokenReaders| + 1
    requires Live(s.chan.writers, {}) != [] ==> s.chan.capacity - |s.chan.items| <= |s.wokenWriters|
    ensures NobodyForgotten(Removed(s))
  {
    WaitersAfter(s.chan.writers, 0);
  }

  lemma NobodyForgottenKept<T>(s: System<T>, e: Event<T>)
    requires NobodyForgotten(s) && Enabled(s, e) && !e.CancelWokenReader? && !e.CancelWokenWriter?
    ensures NobodyForgotten(Step(s, e))
  {
    var c := s.chan;
    match e
    case Put(h, v) =>
      if HasSpace(c) { AcceptedForgetsNobody(s, v); }
    case Get(h) =>
      if c.items != [] { RemovedForgetsNobody(s); }
    case PutResumed(h, v) =>
      if HasSpace(c) { AcceptedForgetsNobody(s.(wokenWriters := s.wokenWriters - multiset{h}), v); }
    case GetResumed(h) =>
      if c.items != [] { RemovedForgetsNobody(s.(wokenReaders := s.wokenReaders - multiset{h})); }
    case CancelReader(h) =>
      WaitersAfter(c.readers, h);
    case CancelWriter(h) =>
      WaitersAfter(c.writers, h);
  }

  lemma {:induction false} EveryRunForgetsNobody<T(!new)>(capacity: nat, maxWaiters: nat, events: seq<Event<T>>)
    requires Possible(Start(capacity, maxWaiters), events, WokenSurvive)
    ensures NobodyForgotten(Run(Start(capacity, maxWaiters), events))
  {
    if events != [] {
      var before, e := events[..|events| - 1], events[|events| - 1];
      EveryRunForgetsNobody(capacity, maxWaiters, before);
      NobodyForgottenKept(Run(Start(capacity, maxWaiters), before), e);
    }
  }

  /** Once the scheduler has run everything, no reader waits on a channel with items, and no writer
      on a channel with space. */
  lemma NoLostWakeup<T(!new)>(capacity: nat, maxWaiters: nat, events: seq<Event<T>>)
    requires Possible(Start(capacity, maxWaiters), events, WokenSurvive)
    requires var s := Run<T>(Start(capacity, maxWaiters), events);
             s.wokenReaders == multiset{} && s.wokenWriters == multiset{}
    ensures var c := Run<T>(Start(capacity, maxWaiters), events).chan;
            && (c.items != [] ==> Live(c.readers, {}) == [])
            && (|c.items| < c.capacity ==> Live(c.writers, {}) == [])
  {
    EveryRunForgetsNobody(capacity, maxWaiters, events);
  }

  /** Destroying a reader that has been woken but has not run forgets another one if and only if
      somebody waits and no item is left without a woken reader but the one given up; and dually for
      writers and free slots. */
  lemma CancelWokenForgetsExactly<T>(s: System<T>, h: Handle)
    requires NobodyForgotten(s)
    ensures h in s.wokenReaders ==>
              (NobodyForgotten(Step(s, CancelWokenReader(h)))
               <==> Live(s.chan.readers, {}) == [] || |s.chan.items| < |s.wokenReaders|)
    ensures h in s.wokenWriters ==>
              (NobodyForgotten(Step(s, CancelWokenWriter(h)))
               <==> Live(s.chan.writers, {}) == [] || s.chan.capacity - |s.chan.items| < |s.wokenWriters|)
  {
  }

  lemma TwoReadersWait(s: System<int>)
    requires s == Start(1, 2)
    ensures var s' := Step(Step(s, Get(1)), Get(2));
            && s'.chan == Chan(1, [], 2, [Some(1), Some(2)], [])
            && s'.wokenReaders == multiset{} && s'.wokenWriters == multiset{}
  {
    assert Step(s, Get(1)).chan.readers == [Some(1)];
  }

  lemma FirstIsWokenAndDestroyed(s: System<int>)
    requires s.chan == Chan(1, [], 2, [Some(1), Some(2)], [])
    requires s.wokenReaders == multiset{} && s.wokenWriters == multiset{}
    ensures var s' := Step(s, Put(3, 7));
            && Enabled(s', CancelWokenReader(1))
            && s'.chan == Chan(1, [7], 2, [Some(2)], [])
            && Step(s', CancelWokenReader(1)).wokenReaders == multiset{} && s'.wokenWriters == multiset{}
  {
    assert Skipped(s.chan.readers, {}) == 0;
  }

  /** Two readers wait, an item arrives and wakes the first, which is destroyed before it runs: the
      second one waits on a channel with an item, and nothing is scheduled. */
  lemma CancelWokenLosesWakeup() returns (events: seq<Event<int>>)
    ensures |events| == 4 && events[2] == Put(3, 7) && events[3] == CancelWokenReader(1)
    ensures Possible(Start(1, 2), events, Anything)
    ensures var s := Run<int>(Start(1, 2), events);
            && s.chan.items == [7] && Live(s.chan.readers, {}) == [2]
            && s.wokenReaders == multiset{} && s.wokenWriters == multiset{}
  {
    var start: System<int> := Start(1, 2);
    TwoReadersWait(start);
    var e1, s1 := RunOne(start, [], Get(1), Anything);
    var e2, s2 := RunOne(start, e1, Get(2), Anything);
    FirstIsWokenAndDestroyed(s2);
    var e3, s3 := RunOne(start, e2, Put(3, 7), Anything);
    var e4, s4 := RunOne(start, e3, CancelWokenReader(1), Anything);
    events := e4;
    OneLeft(s4.chan.readers);
  }

  lemma OneLeft(w: Waiters)
    requires w == [Some(2)]
    ensures Live(w, {}) == [2]
  {
    assert w[1..] == [];
  }

  lemma RunOne<T(!new)>(
    start: System<T>, before: seq<Event<T>>, e: Event<T>, discipline: (System<T>, Event<T>) -> bool)
    returns (events: seq<Event<T>>, after: System<T>)
    requires Possible(start, before, discipline)
    requires Enabled(Run(start, before), e) && discipline(Run(start, before), e)
    ensures events == before + [e] && Possible(start, events, discipline)
    ensures after == Step(Run(start, before), e) == Run(start, events)
  {
    events := before + [e];
    assert events[..|before|] == before;
    after := Step(Run(start, before), e);
  }

  // ---- a woken waiter succeeds -----------------------------------------------------------------

  /** A fresh get or put leaves alone what is owed to coroutines that have been woken. */
  ghost predicate NoBypass<T(!new)>(s: System<T>, e: Event<T>) {
    match e
    case Get(_) => s.chan.items == [] || |s.wokenReaders| < |s.chan.items|
    case Put(_, _) => !HasSpace(s.chan) || |s.wokenWriters| < s.chan.capacity - |s.chan.items|
    case _ => true
  }

  predicate OwedIsThere<T>(s: System<T>) {
    && |s.wokenReaders| <= |s.chan.items|
    && |s.wokenWriters| <= s.chan.capacity - |s.chan.items|
  }

  /** BOOST_VERIFY fails in the turn. */
  predicate Fails<T>(s: System<T>, e: Event<T>) {
    match e
    case PutResumed(_, _) => !HasSpace(s.chan)
    case GetResumed(_) => s.chan.items == []
    case _ => false
  }

  lemma AcceptedOwes<T>(s: System<T>, item: T)
    requires |s.wokenReaders| <= |s.chan.items| && |s.wokenWriters| < s.chan.capacity - |s.chan.items|
    ensures OwedIsThere(Accepted(s, item))
  {
  }

  lemma RemovedOwes<T>(s: System<T>)
    requires |s.wokenReaders| < |s.chan.items| && |s.wokenWriters| <= s.chan.capacity - |s.chan.items|
    ensures OwedIsThere(Removed(s))
  {
  }

  lemma OwedIsThereKept<T(!new)>(s: System<T>, e: Event<T>)
    requires OwedIsThere(s) && Enabled(s, e) && NoBypass(s, e)
    ensures OwedIsThere(Step(s, e)) && !Fails(s, e)
  {
    match e
    case Put(h, v) => if HasSpace(s.chan) { AcceptedOwes(s, v); }
    case Get(h) => if s.chan.items != [] { RemovedOwes(s); }
    case PutResumed(h, v) =>
      TakenOut(s.wokenWriters, h);
      AcceptedOwes(s.(wokenWriters := s.wokenWriters - multiset{h}), v);
    case GetResumed(h) =>
      TakenOut(s.wokenReaders, h);
      RemovedOwes(s.(wokenReaders := s.wokenReaders - multiset{h}));
    case CancelWokenReader(h) => TakenOut(s.wokenReaders, h);
    case CancelWokenWriter(h) => TakenOut(s.wokenWriters, h);
    case _ =>
  }

  lemma {:induction false} WokenWaiterSucceeds<T(!new)>(
    capacity: nat, maxWaiters: nat, events: seq<Event<T>>, e: Event<T>)
    requires Possible(Start(capacity, maxWaiters), events, NoBypass)
    ensures OwedIsThere(Run(Start(capacity, maxWaiters), events))
    ensures Enabled(Run(Start(capacity, maxWaiters), events), e)
            ==> !Fails(Run(Start(capacity, maxWaiters), events), e)
  {
    var s := Run<T>(Start(capacity, maxWaiters), events);
    if events != [] {
      var before, last := events[..|events| - 1], events[|events| - 1];
      WokenWaiterSucceeds(capacity, maxWaiters, before, last);
      OwedIsThereKept(Run(Start(capacity, maxWaiters), before), last);
    }
    match e
    case PutResumed(h, _) => assert h in s.wokenWriters ==> multiset{h} <= s.wokenWriters;
    case GetResumed(h) => assert h in s.wokenReaders ==> multiset{h} <= s.wokenReaders;
    case _ =>
  }

  /** A fresh call keeps what is owed to woken coroutines if and only if it bypasses none. */
  lemma BypassedExactly<T(!new)>(s: System<T>, e: Event<T>)
    requires OwedIsThere(s) && (e.Get? || e.Put?)
    ensures OwedIsThere(Step(s, e)) <==> NoBypass(s, e)
  {
    if NoBypass(s, e) {
      OwedIsThereKept(s, e);
    }
  }

  /** Only woken coroutines run, in some order, until one of their checks fails. */
  predicate OnlyResumptions<T>(events: seq<Event<T>>) {
    forall k :: 0 <= k < |events| ==> events[k].GetResumed? || events[k].PutResumed?
  }

  ghost predicate Succeeds<T(!new)>(s: System<T>, events: seq<Event<T>>)
    decreases |events|
  {
    events == [] || !Enabled(s, events[0]) || (!Fails(s, events[0]) && Succeeds(Step(s, events[0]), events[1..]))
  }

  lemma {:induction false} OwedResumptionsSucceed<T(!new)>(s: System<T>, events: seq<Event<T>>)
    requires OwedIsThere(s) && OnlyResumptions(events)
    ensures Succeeds(s, events)
    decreases |events|
  {
    if events != [] && Enabled(s, events[0]) {
      OwedIsThereKept(s, events[0]);
      OwedResumptionsSucceed(Step(s, events[0]), events[1..]);
    }
  }

  lemma SomeHandle(woken: multiset<Handle>) returns (h: Handle)
    requires |woken| > 0
    ensures h in woken
  {
    h :| h in woken;
  }

  lemma FirstOf<T(!new)>(s: System<T>, e: Event<T>, rest: seq<Event<T>>)
    requires OnlyResumptions(rest) && (e.GetResumed? || e.PutResumed?) && Enabled(s, e)
    ensures OnlyResumptions([e] + rest)
    ensures Succeeds(s, [e] + rest) ==> !Fails(s, e) && Succeeds(Step(s, e), rest)
  {
    assert ([e] + rest)[1..] == rest;
  }

  /** With more woken readers than items, one of them finds nothing. */
  lemma {:induction false} TooManyReaders<T(!new)>(s: System<T>) returns (events: seq<Event<T>>)
    requires |s.wokenReaders| > |s.chan.items|
    ensures OnlyResumptions(events) && !Succeeds(s, events)
    decreases |s.chan.items|
  {
    var h := SomeHandle(s.wokenReaders);
    var rest: seq<Event<T>> := [];
    if s.chan.items != [] {
      TakenOut(s.wokenReaders, h);
      rest := TooManyReaders(Step(s, GetResumed(h)));
    }
    FirstOf(s, GetResumed(h), rest);
    events := [GetResumed(h)] + rest;
  }

  /** With more woken writers than free slots, one of them finds no space, whatever they write. */
  lemma {:induction false} TooManyWriters<T(!new)>(s: System<T>, v: T) returns (events: seq<Event<T>>)
    requires |s.wokenWriters| > s.chan.capacity - |s.chan.items| >= 0
    ensures OnlyResumptions(events) && !Succeeds(s, events)
    decreases s.chan.capacity - |s.chan.items|
  {
    var h := SomeHandle(s.wokenWriters);
    var rest: seq<Event<T>> := [];
    if HasSpace(s.chan) {
      TakenOut(s.wokenWriters, h);
      rest := TooManyWriters(Step(s, PutResumed(h, v)), v);
    }
    FirstOf(s, PutResumed(h, v), rest);
    events := [PutResumed(h, v)] + rest;
  }

  /** The woken coroutines can all be served, in whatever order they run, if and only if what is owed to
      them is there. */
  lemma ResumptionsSucceedExactly<T(!new)>(s: System<T>, v: T)
    requires |s.chan.items| <= s.chan.capacity
    ensures OwedIsThere(s) <==> forall events :: OnlyResumptions(events) ==> Succeeds(s, events)
  {
    if OwedIsThere(s) {
      forall events | OnlyResumptions(events)
        ensures Succeeds(s, events)
      {
        OwedResumptionsSucceed(s, events);
      }
    } else if |s.wokenReaders| > |s.chan.items| {
      var events := TooManyReaders(s);
    } else {
      var events := TooManyWriters(s, v);
    }
  }

  /** At most one reader and one writer are between their call and their return. */
  ghost predicate OneOfEach<T(!new)>(s: System<T>, e: Event<T>) {
    match e
    case Get(_) => Live(s.chan.readers, {}) == [] && s.wokenReaders == multiset{}
    case Put(_, _) => Live(s.chan.writers, {}) == [] && s.wokenWriters == multiset{}
    case _ => true
  }

  /** With one producer and one consumer in flight nothing is ever bypassed. */
  lemma {:induction false} OneOfEachNeverBypasses<T(!new)>(capacity: nat, maxWaiters: nat, events: seq<Event<T>>)
    requires Possible(Start(capacity, maxWaiters), events, OneOfEach)
    ensures Possible(Start(capacity, maxWaiters), events, NoBypass)
  {
    if events != [] {
      OneOfEachNeverBypasses(capacity, maxWaiters, events[..|events| - 1]);
    }
  }

  /** A reader that arrives between a wake-up and its resumption makes the woken one fail. */
  lemma BypassFails()
    ensures var events: seq<Event<int>> := [Get(1), Put(2, 7), Get(3)];
            var s := Run<int>(Start(1, 2), events);
            && Possible(Start(1, 2), events, WokenSurvive)
            && Enabled(s, GetResumed(1)) && Fails(s, GetResumed(1))
  {
    var start: System<int> := Start(1, 2);
    var e1, s1 := RunOne(start, [], Get(1), WokenSurvive);
    assert s1.chan.readers == [Some(1)];
    assert Skipped(s1.chan.readers, {}) == 0;
    var e2, s2 := RunOne(start, e1, Put(2, 7), WokenSurvive);
    assert s2.chan.items == [7] && s2.wokenReaders == multiset{1};
    var e3, s3 := RunOne(start, e2, Get(3), WokenSurvive);
    assert e3 == [Get(1), Put(2, 7), Get(3)];
  }
}
