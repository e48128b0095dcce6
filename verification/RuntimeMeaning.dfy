/** What the events of the runtime mean for its parts: which requests the scheduler gets, and what
    happens to each promise and each generator, in program order. */
module RuntimeMeaning {
  import opened Wrappers
  import opened Schedulers
  import opened Cores
  import opened Generators
  import opened Channels
  import opened Runtime
  import opened RuntimeOwnership
  import PR = PromiseRuns
  import GR = GeneratorRuns
  import SR = SchedulerRuns

  // ---- who is destroyed ------------------------------------------------------------------------

  /** The promises that an event destroys by itself; what lives in them goes with them. */
  function Roots(e: Event): set<Handle> {
    match e
    case Drop(p) => {p}
    case Overwrite(p) => {p}
    case Finish(_, locals) => locals
    case FinishGenerator(_, locals) => locals
    case _ => {}
  }

  ghost predicate LivesInOne(w: World, f: Handle, roots: set<Handle>) {
    exists p :: p in roots && LivesIn(w, f, p)
  }

  ghost function Residents(w: World, roots: set<Handle>): set<Handle> {
    set f | f in w.frames && LivesInOne(w, f, roots)
  }

  ghost function Gone(w: World, e: Event): set<Handle> { Residents(w, Roots(e)) }

  /** A select set that is destroyed has `p` among its members. */
  ghost predicate LetGoOf(w: World, e: Event, p: Handle) {
    exists g :: g in Gone(w, e) && g in w.frames && w.frames[g].place.AtSelect? && p in w.frames[g].place.ps
  }

  // ---- who runs --------------------------------------------------------------------------------

  /** The event ends with getNext(): of a coroutine that suspends, or of the loop. */
  predicate HandsOn(w: World, e: Event) {
    match e
    case Await(p) => p in w.frames && w.frames[p].core.phase.Init?
    case AwaitGenerator(g) => g in w.frames && w.frames[g].kind.Gen? && !AwaitReady(w.frames[g].AsGen())
    case Select(ps) => forall p :: p in ps && p in w.frames ==> !w.frames[p].core.Ready()
    case WaitExternally(handoff) => handoff
    case Loop => true
    case _ => false
  }

  /** The generator is parked at a co_yield and is sent on. */
  predicate SentOn(w: World, e: Event) {
    e.AwaitGenerator? && HandsOn(w, e) && w.frames[e.g].kind.suspended
  }

  /** The coroutine that is resumed: the first one that is queued. */
  function Next(w: World, e: Event): Option<Handle> {
    if HandsOn(w, e) then NextHandle(w.queue + (if SentOn(w, e) then [Some(e.g)] else []), {}) else None
  }

  /** A call of put() or get() that has to wait. */
  predicate HasToWait(w: World, e: Event) {
    match e
    case Put(c, _) =>
      c in w.chans && |w.chans[c].items| >= w.chans[c].capacity && |w.chans[c].writers| < w.chans[c].maxWaiters
    case Get(c) => c in w.chans && w.chans[c].items == [] && |w.chans[c].readers| < w.chans[c].maxWaiters
    case _ => false
  }

  /** The running coroutine stops running. */
  predicate Leaves(w: World, e: Event) {
    || (HandsOn(w, e) && !e.Loop?) || HasToWait(w, e)
    || e.WaitExternally? || e.Yield? || e.CoYield? || e.Finish? || e.FinishGenerator?
  }

  /** Where it stands then. */
  function Stand(w: World, e: Event): Place {
    match e
    case Await(p) => AtPromise(p)
    case AwaitGenerator(g) => AtGenerator(g)
    case Select(ps) => AtSelect(ps, set p | p in ps && p in w.frames && !w.frames[p].core.phase.Finished?)
    case Yield => AtExternal(false)
    case WaitExternally(_) => AtExternal(true)
    case Put(c, _) => AtChannel(c, Writer)
    case Get(c) => AtChannel(c, Reader)
    case CoYield(_) => AtYield
    case _ => AtEnd
  }

  /** Who is on top of the stack then: a coroutine that has been called, or the one that is resumed. */
  function Arrives(w: World, e: Event): Option<Handle> {
    if e.Start? then Some(e.n) else Next(w, e)
  }

  function PlaceAfter(w: World, e: Event, f: Handle): Place
    requires f in w.frames
  {
    if Arrives(w, e) == Some(f) then OnStack
    else if Leaves(w, e) && w.stack != [] && f == Top(w) then Stand(w, e)
    else if e == Callback(f) then AtExternal(false)
    else w.frames[f].place
  }

  function OwnerAfter(w: World, e: Event, f: Handle): Option<Handle>
    requires f in w.frames
  {
    match e
    case Start(n, _, args) => if f in args then Some(n) else w.frames[f].owner
    case Move(p, to) => if f == p then to else w.frames[f].owner
    case _ => w.frames[f].owner
  }

  function StackAfter(w: World, e: Event): seq<Handle> {
    (if Leaves(w, e) && w.stack != [] then w.stack[..|w.stack| - 1] else w.stack)
    + if Arrives(w, e).Some? then [Arrives(w, e).value] else []
  }

  // ---- what the scheduler is asked -------------------------------------------------------------

  /** The first waiter of a ring that is still there. */
  function Wake(ring: Waiters): seq<SR.Event> {
    if FirstWaiter(ring).Some? then [SR.Enqueue(FirstWaiter(ring).value)] else []
  }

  /** Whoever waits for the running coroutine's promise. */
  ghost function WakeWaiter(w: World, e: Event): seq<SR.Event> {
    if w.stack == [] || Top(w) !in w.frames then []
    else
      var waiting := w.frames[Top(w)].core.waiting;
      if waiting.None? || (EndsLast(e) && LetGoOf(w, e, Top(w))) then [] else [SR.Enqueue(waiting.value)]
  }

  /** A coroutine that an exception leaves is unwound before the exception is stored. */
  predicate EndsLast(e: Event) {
    (e.Finish? && e.o.Thrown?) || (e.FinishGenerator? && e.error.Some?)
  }

  ghost function Asks(w: World, e: Event): seq<SR.Event> {
    match e
    case AwaitGenerator(g) => if SentOn(w, e) then [SR.Enqueue(g)] else []
    case Yield => if w.stack == [] then [] else [SR.Enqueue(Top(w))]
    case Put(c, _) => if c in w.chans && |w.chans[c].items| < w.chans[c].capacity then Wake(w.chans[c].readers) else []
    case PutResumed(c, _) =>
      if c in w.chans && |w.chans[c].items| < w.chans[c].capacity then Wake(w.chans[c].readers) else []
    case Get(c) => if c in w.chans && w.chans[c].items != [] then Wake(w.chans[c].writers) else []
    case GetResumed(c) => if c in w.chans && w.chans[c].items != [] then Wake(w.chans[c].writers) else []
    case CoYield(_) => WakeWaiter(w, e)
    case Finish(_, _) => WakeWaiter(w, e)
    case FinishGenerator(_, _) => WakeWaiter(w, e)
    case Callback(h) => [SR.Enqueue(h)]
    case _ => []
  }

  ghost function Cancels(gone: set<Handle>): (events: seq<SR.Event>)
    ensures forall e :: e in events <==> e.Cancel? && e.h in gone
  {
    if gone == {} then []
    else
      var h :| h in gone;
      Cancels(gone - {h}) + [SR.Cancel(h)]
  }

  /** getNext(), and the clean-up of a select set. */
  function Turns(w: World, e: Event): seq<SR.Event> {
    if !HandsOn(w, e) then []
    else
      [SR.Next] + (match Next(w, e)
                   case Some(h) => if h in w.frames && w.frames[h].place.AtSelect? then [SR.Cancel(h)] else []
                   case None => [])
  }

  ghost function Scheduling(w: World, e: Event): seq<SR.Event> {
    if EndsLast(e) then Cancels(Gone(w, e)) + Asks(w, e)
    else Asks(w, e) + Cancels(Gone(w, e)) + Turns(w, e)
  }

  // ---- what happens to promises and generators ---------------------------------------------------

  /** What the running coroutine does to the promise `p`. */
  function Directly(w: World, e: Event, p: Handle): Option<PR.Event<Value>>
    requires p in w.frames
  {
    var running := if w.stack == [] then 0 else Top(w);
    match e
    case Await(q) =>
      if q != p then None else if w.frames[p].core.Ready() then Some(PR.Fetch) else Some(PR.Register(running))
    case Select(ps) =>
      if p !in ps then None
      else if HandsOn(w, e) then Some(PR.Register(running))
      else if w.frames[p].core.Ready() then None else Some(PR.Deregister)
    case Unwrap(q) => if q == p then Some(PR.Unwrap) else None
    case DropSet(ps) => if p in ps then Some(PR.Deregister) else None
    case Finish(o, _) => if w.stack != [] && p == Top(w) then Some(PR.Finish(o)) else None
    case _ => None
  }

  /** What the next coroutine does to it when it is resumed, or a select set when it is destroyed. */
  ghost function Indirectly(w: World, e: Event, p: Handle): Option<PR.Event<Value>>
    requires p in w.frames
  {
    match Next(w, e)
    case Some(h) =>
      if h !in w.frames then None
      else
        (match w.frames[h].place
         case AtPromise(q) => if q == p then Some(PR.Fetch) else None
         case AtSelect(ps, _) => if p in ps && !w.frames[p].core.Ready() then Some(PR.Deregister) else None
         case _ => None)
    case None => if LetGoOf(w, e, p) then Some(PR.Deregister) else None
  }

  function Listed<T>(e: Option<T>): seq<T> { if e.Some? then [e.value] else [] }

  ghost function PromiseEvents(w: World, e: Event, p: Handle): seq<PR.Event<Value>>
    requires p in w.frames
  {
    if EndsLast(e) then Listed(Indirectly(w, e, p)) + Listed(Directly(w, e, p))
    else Listed(Directly(w, e, p)) + Listed(Indirectly(w, e, p))
  }

  /** The same for the generator `g`. */
  function GeneratorDirectly(w: World, e: Event, g: Handle): Option<GR.Event<Value>> {
    var running := if w.stack == [] then 0 else Top(w);
    match e
    case AwaitGenerator(q) => if q == g then Some(GR.Await(running)) else None
    case CoYield(v) => if w.stack != [] && g == Top(w) then Some(GR.Yield(v)) else None
    case FinishGenerator(error, _) =>
      if w.stack == [] || g != Top(w) then None
      else if error.Some? then Some(GR.Throw(error.value)) else Some(GR.Return)
    case _ => None
  }

  function GeneratorIndirectly(w: World, e: Event, g: Handle): Option<GR.Event<Value>> {
    match Next(w, e)
    case Some(h) =>
      if h !in w.frames then None
      else if h == g && w.frames[h].place.AtYield? then Some(GR.RunProducer)
      else if w.frames[h].place == AtGenerator(g) then Some(GR.RunConsumer)
      else None
    case None => None
  }

  function GeneratorEvents(w: World, e: Event, g: Handle): seq<GR.Event<Value>> {
    Listed(GeneratorDirectly(w, e, g)) + Listed(GeneratorIndirectly(w, e, g))
  }
}
