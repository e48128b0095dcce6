/** The coroutine runtime as one transition system: frames with their promise cores, the scheduler's
    deque, channels, and the stack of coroutines that are nested in each other. */
module Runtime {
  import opened Wrappers
  import opened Schedulers
  import opened Cores
  import opened Generators
  import opened Channels
  import Selects

  /** What coroutines return and channels carry; values are only moved around. */
  type Value = int

  datatype Side = Reader | Writer

  /** Where a coroutine stands: what its current awaiter object refers to. */
  datatype Place =
    | OnStack                                         // running, or below a running coroutine
    | AtPromise(p: Handle)                            // co_await of a Promise
    | AtGenerator(g: Handle)                          // co_await of a MultiPromise
    | AtSelect(ps: seq<Handle>, joined: set<Handle>)  // co_await of a SelectSet; `joined` were still running
    | AtYield                                         // a generator at a co_yield
    | AtChannel(c: nat, side: Side)
    | AtExternal(pending: bool)                       // waiting for a callback, or enqueued by one
    | AtEnd                                           // at the final suspension point

  datatype Kind = Plain | Gen(suspended: bool, terminated: bool)

  /** A coroutine frame with the promise core inside it. `owner` is the frame among whose locals the
      promise object lives; a promise held by the main program has no owner. */
  datatype Frame = Frame(core: Core<Value>, kind: Kind, owner: Option<Handle>, place: Place)
  {
    predicate Suspended() { !place.OnStack? && !place.AtEnd? }

    function AsGen(): GenCore<Value>
      requires kind.Gen?
    {
      GenCore(core, kind.suspended, kind.terminated)
    }

    function WithGen(g: GenCore<Value>): Frame {
      this.(core := g.base, kind := Gen(g.suspended, g.terminated))
    }
  }

  datatype World = World(
    frames: map<Handle, Frame>,
    queue: seq<Entry>,
    chans: map<nat, Chan<Value>>,
    stack: seq<Handle>
  )

  // ---- small pieces of steps ------------------------------------------------------------------

  function Top(w: World): Handle
    requires w.stack != []
  {
    w.stack[|w.stack| - 1]
  }

  function Ring(c: Chan<Value>, side: Side): Waiters {
    if side.Reader? then c.readers else c.writers
  }

  function WithRing(c: Chan<Value>, side: Side, ring: Waiters): Chan<Value> {
    if side.Reader? then c.(readers := ring) else c.(writers := ring)
  }

  function SetCore(w: World, p: Handle, core: Core<Value>): World
    requires p in w.frames
  {
    w.(frames := w.frames[p := w.frames[p].(core := core)])
  }

  function SetGen(w: World, g: Handle, gen: GenCore<Value>): World
    requires g in w.frames
  {
    w.(frames := w.frames[g := w.frames[g].WithGen(gen)])
  }

  function Enqueued(w: World, es: seq<Entry>): World {
    w.(queue := w.queue + es)
  }

  /** The top coroutine suspends or ends, and control goes back to what is below it. */
  function Leave(w: World, place: Place): World
    requires w.stack != [] && Top(w) in w.frames
  {
    w.(frames := w.frames[Top(w) := w.frames[Top(w)].(place := place)], stack := w.stack[..|w.stack| - 1])
  }

  /** checkPromises(): members that are not ready lose their waiting handle. */
  function Release(w: World, ps: seq<Handle>): World {
    w.(frames := map f | f in w.frames ::
         if f in ps then w.frames[f].(core := Selects.LetGo(w.frames[f].core)) else w.frames[f])
  }

  /** SelectSet::await_suspend registers with the members that are not stale. */
  function Join(w: World, ps: seq<Handle>, h: Handle): World {
    w.(frames := map f | f in w.frames ::
         if f in ps then w.frames[f].(core := Selects.Joined(w.frames[f].core, h)) else w.frames[f])
  }

  function DoneSet(w: World): set<Handle> {
    set f | f in w.frames && w.frames[f].place.AtEnd?
  }

  /** The await_resume() of the awaiter that `h` stands at. */
  function Resumption(w: World, h: Handle): World
    requires h in w.frames
  {
    match w.frames[h].place
    case AtPromise(p) => if p in w.frames then SetCore(w, p, AfterFetch(w.frames[p].core)) else w
    case AtGenerator(g) =>
      if g in w.frames && w.frames[g].kind.Gen? then SetGen(w, g, AfterReply(w.frames[g].AsGen())) else w
    case AtSelect(ps, _) => Release(w, ps).(queue := Cancelled(w.queue, h))
    case _ => w
  }

  /** A suspended coroutine runs again. */
  function Resume(w: World, h: Handle): World
    requires h in w.frames
  {
    var r := Resumption(w, h);
    r.(frames := r.frames[h := r.frames[h].(place := OnStack)], stack := r.stack + [h])
  }

  /** getNextInner(), and the resumption of what it returned. */
  function RunNext(w: World): World {
    var rest := w.(queue := AfterNext(w.queue, DoneSet(w)));
    match NextHandle(w.queue, DoneSet(w))
    case Some(h) => if h in w.frames then Resume(rest, h) else rest
    case None => rest
  }

  // ---- destruction ----------------------------------------------------------------------------

  function Kids(w: World, x: Handle): set<Handle> {
    set f | f in w.frames && w.frames[f].owner == Some(x)
  }

  /** Destroying one frame: its handle is cancelled, its awaiter is destroyed, its memory is freed.
      destroyCoroutine() skips the cancellation of finished cores (`lazily`), cancelGenerator() does not. */
  function Unhook(w: World, x: Handle, lazily: bool): World
    requires x in w.frames
  {
    var dying := w.frames[x];
    World(
      map f | f in w.frames && f != x ::
        if dying.place.AtSelect? && f in dying.place.ps
        then w.frames[f].(core := Deregistered(w.frames[f].core)) else w.frames[f],
      if lazily && dying.core.phase.Finished? then w.queue else Cancelled(w.queue, x),
      if dying.place.AtChannel? && dying.place.c in w.chans
      then (var c := w.chans[dying.place.c];
            w.chans[dying.place.c := WithRing(c, dying.place.side, Cancelled(Ring(c, dying.place.side), x))])
      else w.chans,
      w.stack)
  }

  /** The destructor of a Promise calls destroyCoroutine(), that of a MultiPromise cancelGenerator(). */
  predicate DestroysLazily(f: Frame) { f.kind.Plain? }

  lemma SubsetSize<T>(a: set<T>, b: set<T>)
    requires a <= b
    ensures |a| <= |b|
    ensures a != b ==> |a| < |b|
  {
    assert b == a + (b - a);
  }

  /** Destroying a frame destroys the promises among its locals, and so on. */
  ghost function Destroy(w: World, x: Handle, lazily: bool): (w': World)
    requires x in w.frames
    ensures w'.frames.Keys <= w.frames.Keys - {x} && w'.stack == w.stack
    ensures forall f :: f in w'.frames ==> w'.frames[f].kind == w.frames[f].kind
    decreases |w.frames|, 0
  {
    var rest := Unhook(w, x, lazily);
    assert rest.frames.Keys == w.frames.Keys - {x};
    DestroyAll(rest, Kids(w, x))
  }

  /** The promises `s` are destroyed one after the other. */
  ghost function DestroyAll(w: World, s: set<Handle>): (w': World)
    ensures w'.frames.Keys <= w.frames.Keys - s && w'.stack == w.stack
    ensures forall f :: f in w'.frames ==> w'.frames[f].kind == w.frames[f].kind
    decreases |w.frames|, |s| + 1
  {
    if s == {} then w
    else
      var k :| k in s;
      var next := if k in w.frames then Destroy(w, k, DestroysLazily(w.frames[k])) else w;
      SubsetSize(next.frames.Keys, w.frames.Keys);
      DestroyAll(next, s - {k})
  }

  // ---- events ---------------------------------------------------------------------------------

  datatype Event =
    | Start(n: Handle, generator: bool, args: set<Handle>)  // a coroutine is called, with promises as arguments
    | Await(p: Handle)
    | AwaitGenerator(g: Handle)
    | Select(ps: seq<Handle>)
    | Unwrap(p: Handle)
    | Yield                                    // co_await yield()
    | WaitExternally(handoff: bool)            // any other awaiter: I/O, timers
    | Put(c: nat, item: Value)
    | Get(c: nat)
    | PutResumed(c: nat, item: Value)          // the rest of put() after its suspension
    | GetResumed(c: nat)
    | CoYield(v: Value)
    | Finish(o: Outcome<Value>, locals: set<Handle>)  // co_return or an exception, in a coroutine
    | FinishGenerator(error: Option<Exception>, locals: set<Handle>)
    | Drop(p: Handle)                          // a promise object is destroyed
    | Overwrite(p: Handle)                     // a promise object is the target of a move-assignment
    | Move(p: Handle, to: Option<Handle>)      // ... is moved into another frame, or to the main program
    | DropSet(ps: seq<Handle>)                 // a select set that has not been awaited is destroyed
    | Callback(h: Handle)                      // anything outside enqueues a coroutine that waits for it
    | Loop                                     // the loop of runAll

  /** The caller's promises `args` become parameters of the new coroutine `n`, which starts at once. */
  function Started(w: World, n: Handle, generator: bool, args: set<Handle>): World {
    var owner := if w.stack == [] then None else Some(Top(w));
    var frame := Frame(NewCore(), if generator then Gen(false, false) else Plain, owner, OnStack);
    var moved := map f | f in w.frames :: if f in args then w.frames[f].(owner := Some(n)) else w.frames[f];
    w.(frames := moved[n := frame], stack := w.stack + [n])
  }

  function MovedTo(w: World, p: Handle, to: Option<Handle>): World
    requires p in w.frames
  {
    w.(frames := w.frames[p := w.frames[p].(owner := to)])
  }

  /** ~SelectSet(): its members lose their waiting handles, whoever has registered them. */
  function SetDropped(w: World, ps: seq<Handle>): World {
    w.(frames := map f | f in w.frames ::
         if f in ps then w.frames[f].(core := Deregistered(w.frames[f].core)) else w.frames[f])
  }

  function AwaitedGenerator(w: World, g: Handle): World
    requires Running(w) && g in w.frames && w.frames[g].kind.Gen?
  {
    var gen := w.frames[g].AsGen();
    Enqueued(Leave(SetGen(w, g, Awaited(gen, Top(w))), AtGenerator(g)), if gen.suspended then [Some(g)] else [])
  }

  function Selected(w: World, ps: seq<Handle>): World
    requires Running(w)
  {
    var joined := set p | p in ps && p in w.frames && !w.frames[p].core.phase.Finished?;
    Leave(Join(w, ps, Top(w)), AtSelect(ps, joined))
  }

  function PutItem(w: World, c: nat, item: Value): World
    requires c in w.chans
  {
    Enqueued(w.(chans := w.chans[c := Accept(w.chans[c], item)]), Woken(w.chans[c].readers))
  }

  function GetItem(w: World, c: nat): World
    requires c in w.chans && w.chans[c].items != []
  {
    Enqueued(w.(chans := w.chans[c := Remove(w.chans[c])]), Woken(w.chans[c].writers))
  }

  function WaitOnChannel(w: World, c: nat, side: Side): World
    requires Running(w) && c in w.chans
  {
    var ch := w.chans[c];
    Leave(w.(chans := w.chans[c := WithRing(ch, side, Ring(ch, side) + [Some(Top(w))])]), AtChannel(c, side))
  }

  function Yields(w: World, v: Value): World
    requires Running(w) && w.frames[Top(w)].kind.Gen?
  {
    var gen := w.frames[Top(w)].AsGen();
    Enqueued(Leave(SetGen(w, Top(w), Yielded(gen, v)), AtYield), Wakes(gen.base))
  }

  /** The outcome is stored, the waiter enqueued. */
  function Ends(w: World, o: Outcome<Value>): World
    requires Running(w)
  {
    var core := w.frames[Top(w)].core;
    Enqueued(Leave(SetCore(w, Top(w), Completed(core, o)), AtEnd), Wakes(core))
  }

  function EndsGenerator(w: World, error: Option<Exception>): World
    requires Running(w) && w.frames[Top(w)].kind.Gen?
  {
    var gen := w.frames[Top(w)].AsGen();
    var over := if error.Some? then Threw(gen, error.value) else Returned(gen);
    Enqueued(Leave(SetGen(w, Top(w), over), AtEnd), Wakes(gen.base))
  }

  /** A coroutine that returns stores its outcome before its locals are destroyed; an exception unwinds
      it first. What it owns besides its locals, its parameters, stays until its frame is destroyed. */
  ghost function Concluded(w: World, o: Outcome<Value>, locals: set<Handle>): World
    requires Running(w) && (o.Thrown? ==> Top(w) !in DoomedAll(w, locals))
  {
    if o.Thrown? then Ends(DestroyAll(w, locals), o) else DestroyAll(Ends(w, o), locals)
  }

  ghost function ConcludedGenerator(w: World, error: Option<Exception>, locals: set<Handle>): World
    requires Running(w) && w.frames[Top(w)].kind.Gen? && (error.Some? ==> Top(w) !in DoomedAll(w, locals))
  {
    if error.Some? then EndsGenerator(DestroyAll(w, locals), error) else DestroyAll(EndsGenerator(w, error), locals)
  }

  // ---- what the code demands of its users -------------------------------------------------------

  predicate Running(w: World) {
    w.stack != [] && Top(w) in w.frames
  }

  /** The promise object is a local of the running coroutine, or of the main program. */
  predicate Owns(w: World, p: Handle) {
    p in w.frames && w.frames[p].owner == if w.stack == [] then None else Some(Top(w))
  }

  /** A promise object that may be moved: a suspended select set keeps a pointer to it. */
  predicate Unlisted(w: World, p: Handle) {
    forall f :: f in w.frames && w.frames[f].place.AtSelect? ==> p !in w.frames[f].place.ps
  }

  /** A promise that may be awaited: not while another coroutine awaits it. */
  predicate Free(w: World, p: Handle) {
    p in w.frames && !w.frames[p].core.IsAwaited()
  }

  /** `f` holds a reference to the core of `p`. */
  predicate Borrows(w: World, f: Handle, p: Handle)
    requires f in w.frames
  {
    match w.frames[f].place
    case AtPromise(q) => q == p
    case AtGenerator(q) => q == p
    case AtSelect(ps, _) => p in ps
    case _ => false
  }

  /** Awaiters deregister only in a select set or on a channel. So a doomed frame must not be
      registered with a surviving promise by a plain co_await. */
  predicate NoneLeftBehind(w: World, doomed: set<Handle>) {
    forall f, p | f in doomed && f in w.frames && p in w.frames && p !in doomed ::
      w.frames[p].core.waiting == Some(f) ==> w.frames[f].place.AtSelect?
  }

  /** Nothing that survives refers to a doomed frame, and none of the doomed is running. */
  predicate Unreferenced(w: World, doomed: set<Handle>) {
    && (forall f :: f in w.stack ==> f !in doomed)
    && (forall f, p :: f in w.frames && f !in doomed && p in doomed ==> !Borrows(w, f, p))
  }

  /** The frames that die with `x`. */
  ghost function Doomed(w: World, x: Handle, lazily: bool): set<Handle>
    requires x in w.frames
  {
    w.frames.Keys - Destroy(w, x, lazily).frames.Keys
  }

  ghost function DoomedAll(w: World, s: set<Handle>): set<Handle> {
    w.frames.Keys - DestroyAll(w, s).frames.Keys
  }

  ghost predicate Droppable(w: World, doomed: set<Handle>) {
    Unreferenced(w, doomed) && NoneLeftBehind(w, doomed)
  }

  /** What every event demands but for the lifetimes of what is destroyed. */
  predicate Callable(w: World, e: Event) {
    match e
    case Start(n, _, args) =>
      n !in w.frames && (w.stack == [] || Running(w)) && forall p :: p in args ==> Owns(w, p) && Unlisted(w, p)
    case Await(p) => Running(w) && Free(w, p) && w.frames[p].kind.Plain?
    case AwaitGenerator(g) => Running(w) && Free(w, g) && w.frames[g].kind.Gen?
    case Select(ps) =>
      && Running(w)
      && (forall p :: p in ps ==> Free(w, p) && w.frames[p].kind.Plain?)
      && (forall i, j :: 0 <= i < j < |ps| ==> ps[i] != ps[j])
    case Unwrap(p) => p in w.frames && w.frames[p].kind.Plain?
    case Yield => Running(w)
    case WaitExternally(_) => Running(w)
    case Put(c, _) => Running(w) && c in w.chans
    case Get(c) => Running(w) && c in w.chans
    case PutResumed(c, _) => Running(w) && c in w.chans
    case GetResumed(c) => Running(w) && c in w.chans
    case CoYield(_) => Running(w) && w.frames[Top(w)].kind.Gen?
    case Finish(o, locals) => Running(w) && w.frames[Top(w)].kind.Plain? && locals <= Kids(w, Top(w))
    case FinishGenerator(error, locals) => Running(w) && w.frames[Top(w)].kind.Gen? && locals <= Kids(w, Top(w))
    case Drop(p) => p in w.frames
    case Overwrite(p) => p in w.frames
    case Move(p, to) => p in w.frames && (to.Some? ==> to.value in w.frames) && Unlisted(w, p)
    case DropSet(ps) => forall p :: p in ps ==> p in w.frames
    case Callback(h) => h in w.frames && w.frames[h].place == AtExternal(true)
    case Loop => w.stack == []
  }

  ghost predicate Enabled(w: World, e: Event) {
    && Callable(w, e)
    && match e
       case Finish(o, locals) =>
         var dying := if o.Thrown? then w else Ends(w, o);
         Droppable(dying, DoomedAll(dying, locals))
       case FinishGenerator(error, locals) =>
         var dying := if error.Some? then w else EndsGenerator(w, error);
         Droppable(dying, DoomedAll(dying, locals))
       case Drop(p) => Droppable(w, Doomed(w, p, DestroysLazily(w.frames[p])))
       case Overwrite(p) => Droppable(w, Doomed(w, p, true))
       case Move(p, to) => to.Some? ==> to.value !in Doomed(w, p, true)
       case DropSet(ps) => forall p :: p in ps ==> !w.frames[p].core.IsAwaited()
       case _ => true
  }

  // ---- one step -------------------------------------------------------------------------------

  ghost function Step(w: World, e: Event): World
    requires Enabled(w, e)
  {
    match e
    case Start(n, generator, args) => Started(w, n, generator, args)
    case Await(p) =>
      var core := w.frames[p].core;
      if core.Ready() then SetCore(w, p, AfterFetch(core))
      else (match Registered(core, Top(w))
            case Ok(waited) => RunNext(Leave(SetCore(w, p, waited), AtPromise(p)))
            case Err(_) => w)
    case AwaitGenerator(g) =>
      var gen := w.frames[g].AsGen();
      if AwaitReady(gen) then SetGen(w, g, AfterReply(gen)) else RunNext(AwaitedGenerator(w, g))
    case Select(ps) =>
      if exists p :: p in ps && w.frames[p].core.Ready() then Release(w, ps) else RunNext(Selected(w, ps))
    case Unwrap(p) => SetCore(w, p, AfterUnwrap(w.frames[p].core))
    case Yield => Enqueued(Leave(w, AtExternal(false)), [Some(Top(w))])
    case WaitExternally(handoff) =>
      if handoff then RunNext(Leave(w, AtExternal(true))) else Leave(w, AtExternal(true))
    case Put(c, item) =>
      var ch := w.chans[c];
      if |ch.items| < ch.capacity then PutItem(w, c, item)
      else if |ch.writers| < ch.maxWaiters then WaitOnChannel(w, c, Writer) else w
    case Get(c) =>
      var ch := w.chans[c];
      if ch.items != [] then GetItem(w, c)
      else if |ch.readers| < ch.maxWaiters then WaitOnChannel(w, c, Reader) else w
    case PutResumed(c, item) => if |w.chans[c].items| < w.chans[c].capacity then PutItem(w, c, item) else w
    case GetResumed(c) => if w.chans[c].items != [] then GetItem(w, c) else w
    case CoYield(v) => Yields(w, v)
    case Finish(o, locals) => Concluded(w, o, locals)
    case FinishGenerator(error, locals) => ConcludedGenerator(w, error, locals)
    case Drop(p) => Destroy(w, p, DestroysLazily(w.frames[p]))
    case Overwrite(p) => Destroy(w, p, true)
    case Move(p, to) => MovedTo(w, p, to)
    case DropSet(ps) => SetDropped(w, ps)
    case Callback(h) =>
      Enqueued(w.(frames := w.frames[h := w.frames[h].(place := AtExternal(false))]), [Some(h)])
    case Loop => RunNext(w)
  }

  function Empty(chans: map<nat, Chan<Value>>): World { World(map[], [], chans, []) }

  /** The worlds that a program can reach, event by event, from a world without coroutines. */
  ghost predicate Reaches(start: World, events: seq<Event>, w: World)
    decreases |events|
  {
    if events == [] then w == start
    else
      var prefix, last := events[..|events| - 1], events[|events| - 1];
      exists before :: Reaches(start, prefix, before) && Enabled(before, last) && w == Step(before, last)
  }
}
