/** The loading machinery of the bridge as a state machine over an explicit
    world: the shared asynchronous import chain, the synchronous
    `importScripts` path, `importJs` choosing between them, the eval listeners,
    and `loadApp`'s four bootstrap stages.

    What the network returns and what evaluating a script does are inputs: a
    `Server` says, per URL, whether the fetch fails, answers with a non-ok
    status or delivers a body, and whether evaluating it throws or what global
    object it leaves behind. The promise chain is a FIFO queue of pending
    tasks; `Step` settles the oldest one. */
module Loader {
  import opened Wrappers
  import opened JsValue
  import Text
  import Namespace
  import IndexJs
  import Registry
  import Config

  datatype Response = NetworkError(reason: string) | Response(ok: bool, body: string)

  /** Evaluating a script either throws or leaves a new global object behind. */
  datatype Evaluation = Throws(reason: string) | Defines(global: Value)

  datatype Script = Script(response: Response, evaluation: Evaluation)

  type Server = string -> Script

  /** The script arrives and evaluates without throwing. */
  predicate Served(sc: Script) {
    sc.response.Response? && sc.response.ok && sc.evaluation.Defines?
  }

  /** What `importScripts` throws for a script it cannot load and run: the
      load error, or the script's own exception. */
  function SyncFailure(sc: Script): Failure {
    if sc.response.Response? && sc.response.ok && sc.evaluation.Throws? then EvalThrew(sc.evaluation.reason)
    else ImportScriptsThrew
  }

  /** The text rewrite applied before evaluation: none, or the `index.js` one. */
  datatype Transform = Identity | KeepDirectives

  function ApplyTransform(t: Transform, body: string): Option<string> {
    match t
    case Identity => Some(body)
    case KeepDirectives => IndexJs.Transform(body)
  }

  /** The chain's link for `t` gets past evaluation: the script arrives, its
      rewrite succeeds and it runs without throwing. */
  predicate Loads(t: Task, sc: Script) {
    Served(sc) && ApplyTransform(t.transform, sc.response.body).Some?
  }

  /** What the chain's `catch` receives when `t`'s script does not load: the
      rejected fetch, the "Failed to Fetch" error, the rewrite's exception or
      the script's own, checked in that order. */
  function ChainFailure(t: Task, sc: Script): Failure {
    if sc.response.NetworkError? then FetchRejected(sc.response.reason)
    else if !sc.response.ok then Thrown(FailedToFetch(t.url))
    else if ApplyTransform(t.transform, sc.response.body).None? then TransformThrew
    else if sc.evaluation.Throws? then EvalThrew(sc.evaluation.reason)
    else TransformThrew
  }

  /** A callback handed to an import. `Caller` stands for a callback of code
      outside the model, which either returns or throws; the other three are
      `loadApp`'s continuations from one stage to the next. */
  datatype Callback =
    | Noop
    | Caller(name: string, throws: Option<string>)
    | AfterBase(base: string)
    | AfterCljsDeps(base: string)
    | AfterGoogDeps(base: string)

  /** How many further imports a callback can start synchronously. */
  function Rank(cb: Callback): nat {
    match cb
    case AfterBase(_) => 3
    case AfterCljsDeps(_) => 2
    case AfterGoogDeps(_) => 1
    case _ => 0
  }

  function MaxRank(a: Callback, b: Callback): nat {
    if Rank(a) < Rank(b) then Rank(b) else Rank(a)
  }

  datatype Task = Task(url: string, transform: Transform, onSuccess: Callback, onError: Callback)

  /** What a failing import reports through `console.error`. */
  datatype Failure =
    | FetchRejected(reason: string)
    | Thrown(message: string)
    | TransformThrew
    | EvalThrew(reason: string)
    | ImportScriptsThrew
    | GoogMissing
    | CallerThrew(reason: string)

  /** The only listener the bridge registers: `loadApp`'s final-eval waiter. */
  datatype Listener = WaitForFinalEval(mainJs: string, cljsNs: string, renderFn: string)

  /** Observable steps: a request issued, a script evaluated, listeners
      notified, a success or error callback invoked, a caller callback run, the
      render function handed to `loadApp`'s callback. */
  datatype Event =
    | Fetching(url: string)
    | Evaluated(url: string)
    | Notified(url: string)
    | Succeeded(url: string)
    | Errored(url: string, failure: Failure)
    | Called(name: string)
    | Loaded(root: Value)

  /** The settled state of the shared promise chain. */
  datatype Chain = Fulfilled | Rejected(failure: Failure)

  /** The bridge's process-wide state. `enqueued` and `settled` record every
      asynchronous task ever queued and ever settled. */
  datatype World = World(
    global: Value,
    listeners: Registry.Registry<Listener>,
    chain: Chain,
    pending: seq<Task>,
    enqueued: seq<Task>,
    settled: seq<Task>,
    trace: seq<Event>)

  /** How a call returns: normally, or by throwing. */
  datatype Flow = Normal(world: World) | Threw(world: World, failure: Failure)

  const FinalEvalKey: string := "waitForFinalEval"

  /** The message thrown for a non-ok response. */
  function FailedToFetch(url: string): string {
    "Failed to Fetch: " + url + " - Perhaps your project was cleaned and you haven't recompiled?"
  }

  /** `typeof importScripts === "function"`, read afresh on every call. */
  predicate ImportScriptsAvailable(g: Value) {
    TypeOf(Prop(g, "importScripts")) == "function"
  }

  /** `typeof goog === "undefined"`. */
  predicate GoogUndefined(g: Value) {
    TypeOf(Prop(g, "goog")) == "undefined"
  }

  /** `goog.global`, or `None` when reading it throws because `goog` is
      `undefined` or `null`. */
  function NamespaceRoot(g: Value): Option<Value> {
    var goog := Prop(g, "goog");
    if goog == Undefined || goog == Null then None else Some(Prop(goog, "global"))
  }

  /** `shimBaseGoog` throws when `goog` or `goog.global` cannot take properties. */
  predicate ShimThrows(g: Value) {
    match NamespaceRoot(g)
    case None => true
    case Some(v) => v == Undefined || v == Null
  }

  /** The world before anything has happened. */
  function Fresh(global: Value): World {
    World(global, [], Fulfilled, [], [], [], [])
  }

  /** `w'` extends `w`: the trace only grows, pending tasks stay queued in
      order with new ones behind them, everything newly queued is recorded,
      and nothing settles. */
  predicate Grows(w: World, w': World) {
    && w.trace <= w'.trace
    && w.pending <= w'.pending
    && w'.enqueued == w.enqueued + w'.pending[|w.pending|..]
    && w'.settled == w.settled
  }

  lemma GrowsTrans(w1: World, w2: World, w3: World)
    requires Grows(w1, w2) && Grows(w2, w3)
    ensures Grows(w1, w3)
  {
    assert w3.pending[|w1.pending|..] == w2.pending[|w1.pending|..] + w3.pending[|w2.pending|..];
  }

  /** What must already be in the history `t` for `e` to be recorded next:
      an evaluation needs a fetch of its URL whose script the server delivered
      and which evaluated; a notification needs that evaluation; a success
      needs that notification. */
  predicate BackedBy(t: seq<Event>, e: Event, server: Server) {
    match e
    case Evaluated(u) => Fetching(u) in t && Served(server(u))
    case Notified(u) => Evaluated(u) in t
    case Succeeded(u) => Notified(u) in t
    case _ => true
  }

  /** Every event of the trace is backed by the events before it. */
  predicate Sound(trace: seq<Event>, server: Server) {
    forall i :: 0 <= i < |trace| ==> BackedBy(trace[..i], trace[i], server)
  }

  lemma SoundAppend(t: seq<Event>, e: Event, server: Server)
    ensures Sound(t, server) && BackedBy(t, e, server) ==> Sound(t + [e], server)
  {
    if Sound(t, server) && BackedBy(t, e, server) {
      forall i | 0 <= i < |t + [e]|
        ensures BackedBy((t + [e])[..i], (t + [e])[i], server)
      {
        if i < |t| {
          assert (t + [e])[..i] == t[..i];
        } else {
          assert (t + [e])[..i] == t;
        }
      }
    }
  }

  /** An event of `t` stays in every extension of `t`. */
  lemma InExtension(t: seq<Event>, t': seq<Event>, e: Event)
    requires t <= t'
    ensures e in t ==> e in t'
  {
    if e in t {
      var i :| 0 <= i < |t| && t[i] == e;
      assert t'[i] == e;
    }
  }

  /** Only `Loaded` events were added, the registry is unchanged or has lost
      the final-eval waiter, and nothing else changed: what running listeners
      may do. */
  predicate ListenerEffect(w: World, w': World) {
    && w.trace <= w'.trace
    && (forall i :: |w.trace| <= i < |w'.trace| ==> w'.trace[i].Loaded?)
    && (w'.listeners == w.listeners || w'.listeners == Registry.Unregister(w.listeners, FinalEvalKey))
    && w'.global == w.global && w'.chain == w.chain
    && w'.pending == w.pending && w'.enqueued == w.enqueued && w'.settled == w.settled
  }

  lemma SoundListenerEffect(w: World, w': World, server: Server)
    requires ListenerEffect(w, w')
    ensures Sound(w.trace, server) ==> Sound(w'.trace, server)
  {
    if Sound(w.trace, server) {
      forall i | 0 <= i < |w'.trace|
        ensures BackedBy(w'.trace[..i], w'.trace[i], server)
      {
        if i < |w.trace| {
          assert w'.trace[..i] == w.trace[..i];
          assert w'.trace[i] == w.trace[i];
        } else {
          assert w'.trace[i].Loaded?;
        }
      }
    }
  }

  function Emit(w: World, e: Event): (w': World)
    ensures Grows(w, w') && w'.trace == w.trace + [e]
  {
    w.(trace := w.trace + [e])
  }

  /** Appends a task at the tail of the chain. */
  function Enqueue(w: World, t: Task): (w': World)
    ensures Grows(w, w') && w'.pending == w.pending + [t] && w'.trace == w.trace
  {
    w.(pending := w.pending + [t], enqueued := w.enqueued + [t])
  }

  /** `waitForFinalEval(url)`: acts only when `url` contains the namespace's
      file; then the namespace and its render function must exist, the render
      function goes to `loadApp`'s callback and the listener removes itself. A
      failed check throws and leaves the listener in place. */
  function RunListener(w: World, l: Listener, url: string): (r: Flow)
    ensures ListenerEffect(w, r.world)
    ensures !Text.Contains(url, l.mainJs) ==> r == Normal(w)
    ensures r.Threw? ==> r.world == w
    ensures r.Normal? && r.world != w ==>
              && Text.Contains(url, l.mainJs)
              && NamespaceRoot(w.global).Some?
              && Truthy(Namespace.ToObject(NamespaceRoot(w.global).value, l.cljsNs))
              && r.world.trace == w.trace + [Loaded(Prop(Namespace.ToObject(NamespaceRoot(w.global).value, l.cljsNs), l.renderFn))]
              && Truthy(Prop(Namespace.ToObject(NamespaceRoot(w.global).value, l.cljsNs), l.renderFn))
              && FinalEvalKey !in Registry.Keys(r.world.listeners)
  {
    if !Text.Contains(url, l.mainJs) then Normal(w)
    else match NamespaceRoot(w.global)
      case None => Threw(w, GoogMissing)
      case Some(root) =>
        var ns := Namespace.ToObject(root, l.cljsNs);
        if !Truthy(ns) then Threw(w, Thrown("ClojureScript Namespace " + l.cljsNs + " not found."))
        else
          var render := Prop(ns, l.renderFn);
          if !Truthy(render) then Threw(w, Thrown("Render function " + l.renderFn + " not found."))
          else Normal(Emit(w, Loaded(render)).(listeners := Registry.Unregister(w.listeners, FinalEvalKey)))
  }

  /** Calls the listeners of a snapshot in order; a throw stops the rest. */
  function FireFrom(w: World, ls: seq<Listener>, url: string): (r: Flow)
    ensures ListenerEffect(w, r.world)
    decreases |ls|
  {
    if |ls| == 0 then Normal(w)
    else match RunListener(w, ls[0], url)
      case Threw(w', f) => Threw(w', f)
      case Normal(w') =>
        var r := FireFrom(w', ls[1..], url);
        Registry.UnregisterTwice(w.listeners, FinalEvalKey);
        r
  }

  /** `fireEvalListenters(url)` over a snapshot of the registered listeners. */
  function Notify(w: World, url: string, server: Server): (r: Flow)
    ensures w.trace + [Notified(url)] <= r.world.trace
    ensures ListenerEffect(Emit(w, Notified(url)), r.world)
    ensures Sound(w.trace, server) && Evaluated(url) in w.trace ==> Sound(r.world.trace, server)
  {
    var w1 := Emit(w, Notified(url));
    var r := FireFrom(w1, Registry.Values(w.listeners), url);
    SoundAppend(w.trace, Notified(url), server);
    SoundListenerEffect(w1, r.world, server);
    r
  }

  /** Invokes a callback. */
  function Call(w: World, cb: Callback, server: Server): (r: Flow)
    ensures Grows(w, r.world)
    ensures Sound(w.trace, server) ==> Sound(r.world.trace, server)
    ensures cb.Noop? ==> r == Normal(w)
    ensures cb.Caller? ==> r.world == Emit(w, Called(cb.name)) && (r.Threw? <==> cb.throws.Some?)
    ensures cb.AfterBase? && ShimThrows(w.global) ==> r == Threw(w, GoogMissing)
    decreases Rank(cb), 0
  {
    match cb
    case Noop => Normal(w)
    case Caller(name, throws) =>
      var w1 := Emit(w, Called(name));
      SoundAppend(w.trace, Called(name), server);
      if throws.Some? then Threw(w1, CallerThrew(throws.value)) else Normal(w1)
    case AfterBase(base) =>
      if ShimThrows(w.global) then Threw(w, GoogMissing)
      else ImportJs(w, base + "/cljs_deps.js", Some(AfterCljsDeps(base)), None, server)
    case AfterCljsDeps(base) =>
      ImportJs(w, base + "/goog/deps.js", Some(AfterGoogDeps(base)), None, server)
    case AfterGoogDeps(base) =>
      Normal(ImportIndexJs(w, base))
  }

  /** After a successful evaluation: notify the listeners with the URL, then
      call `success`. */
  function Complete(w: World, url: string, success: Callback, server: Server): (r: Flow)
    ensures Grows(w, r.world)
    ensures w.trace + [Notified(url)] <= r.world.trace
    ensures Sound(w.trace, server) && Evaluated(url) in w.trace ==> Sound(r.world.trace, server)
    decreases Rank(success), 1
  {
    match Notify(w, url, server)
    case Threw(w1, f) => Threw(w1, f)
    case Normal(w1) =>
      var w2 := Emit(w1, Succeeded(url));
      GrowsTrans(w, w1, w2);
      InExtension(w.trace + [Notified(url)], w1.trace, Notified(url));
      SoundAppend(w1.trace, Succeeded(url), server);
      var r := Call(w2, success, server);
      GrowsTrans(w, w2, r.world);
      r
  }

  /** The `catch` of `syncImportScripts`: log, then call `error`; a throw
      from `error` escapes. */
  function SyncCatch(w: World, url: string, f: Failure, error: Callback, server: Server): (r: Flow)
    ensures Grows(w, r.world)
    ensures w.trace + [Errored(url, f)] <= r.world.trace
    ensures Sound(w.trace, server) ==> Sound(r.world.trace, server)
    decreases Rank(error), 1
  {
    var w1 := Emit(w, Errored(url, f));
    SoundAppend(w.trace, Errored(url, f), server);
    var r := Call(w1, error, server);
    GrowsTrans(w, w1, r.world);
    r
  }

  /** `syncImportScripts(url, success, error)`. */
  function SyncImport(w: World, url: string, success: Callback, error: Callback, server: Server): (r: Flow)
    ensures Grows(w, r.world)
    ensures w.trace + [Fetching(url)] <= r.world.trace
    ensures Served(server(url)) ==> w.trace + [Fetching(url), Evaluated(url), Notified(url)] <= r.world.trace
    ensures !Served(server(url)) ==> w.trace + [Fetching(url), Errored(url, SyncFailure(server(url)))] <= r.world.trace
    ensures Sound(w.trace, server) ==> Sound(r.world.trace, server)
    decreases MaxRank(success, error), 3
  {
    var w1 := Emit(w, Fetching(url));
    SoundAppend(w.trace, Fetching(url), server);
    var r := SyncLoaded(w1, url, server(url), success, error, server);
    GrowsTrans(w, w1, r.world);
    r
  }

  /** The body of `syncImportScripts` once `importScripts` has been called:
      a failed load or a throwing evaluation goes to the `catch`; otherwise
      the listeners and `success` run, and a throw from them goes to the
      `catch` too. */
  function SyncLoaded(w: World, url: string, sc: Script, success: Callback, error: Callback, server: Server): (r: Flow)
    ensures Grows(w, r.world)
    ensures Sound(w.trace, server) && Fetching(url) in w.trace && sc == server(url) ==> Sound(r.world.trace, server)
    ensures Served(sc) ==> w.trace + [Evaluated(url), Notified(url)] <= r.world.trace
    ensures !Served(sc) ==> w.trace + [Errored(url, SyncFailure(sc))] <= r.world.trace
    decreases MaxRank(success, error), 2
  {
    if !sc.response.Response? || !sc.response.ok then SyncCatch(w, url, ImportScriptsThrew, error, server)
    else if sc.evaluation.Throws? then SyncCatch(w, url, EvalThrew(sc.evaluation.reason), error, server)
    else
      var w2 := Emit(w.(global := sc.evaluation.global), Evaluated(url));
      SoundAppend(w.trace, Evaluated(url), server);
      var c := Complete(w2, url, success, server);
      GrowsTrans(w, w2, c.world);
      if c.Normal? then c
      else
        var r := SyncCatch(c.world, url, c.failure, error, server);
        GrowsTrans(w, c.world, r.world);
        r
  }

  /** `typeof cb == 'function' ? cb : noop`, with `None` for an argument
      that is not a function. */
  function OrNoop(cb: Option<Callback>): Callback {
    match cb
    case Some(f) => f
    case None => Noop
  }

  /** `importJs(src, success, error)`: a callback that is not a function is
      replaced by a no-op; the import is synchronous when `importScripts`
      exists and queued on the chain otherwise. */
  function ImportJs(w: World, src: string, success: Option<Callback>, error: Option<Callback>, server: Server): (r: Flow)
    ensures Grows(w, r.world)
    ensures !ImportScriptsAvailable(w.global) ==>
              r.Normal? && r.world.trace == w.trace
              && r.world.pending == w.pending + [Task(src, Identity, OrNoop(success), OrNoop(error))]
    ensures !ImportScriptsAvailable(w.global) ==>
              r == Normal(w.(pending := w.pending + [Task(src, Identity, OrNoop(success), OrNoop(error))],
                             enqueued := w.enqueued + [Task(src, Identity, OrNoop(success), OrNoop(error))]))
    ensures ImportScriptsAvailable(w.global) ==> w.trace + [Fetching(src)] <= r.world.trace
    ensures Sound(w.trace, server) ==> Sound(r.world.trace, server)
    decreases MaxRank(OrNoop(success), OrNoop(error)), 4
  {
    var s := OrNoop(success);
    var e := OrNoop(error);
    if ImportScriptsAvailable(w.global) then SyncImport(w, src, s, e, server)
    else Normal(Enqueue(w, Task(src, Identity, s, e)))
  }

  /** `importIndexJs(base)`: always through the chain, with the directive
      rewrite and no-op callbacks. */
  function ImportIndexJs(w: World, base: string): (w': World)
    ensures Grows(w, w') && w'.trace == w.trace
    ensures w'.pending == w.pending + [Task(base + "/index.js", KeepDirectives, Noop, Noop)]
  {
    Enqueue(w, Task(base + "/index.js", KeepDirectives, Noop, Noop))
  }

  /** The `catch` of an asynchronous import: log, call `error`, and leave the
      chain fulfilled unless `error` itself throws. */
  function Catch(w: World, t: Task, f: Failure, server: Server): (w': World)
    ensures Grows(w, w')
    ensures w.trace + [Errored(t.url, f)] <= w'.trace
    ensures Sound(w.trace, server) ==> Sound(w'.trace, server)
  {
    var w1 := Emit(w, Errored(t.url, f));
    SoundAppend(w.trace, Errored(t.url, f), server);
    var r := Call(w1, t.onError, server);
    GrowsTrans(w, w1, r.world);
    match r
    case Normal(w2) => w2.(chain := Fulfilled)
    case Threw(w2, f2) => w2.(chain := Rejected(f2))
  }

  /** Settles one task of the chain. A rejected chain skips the fetch and goes
      straight to this task's `catch`; otherwise its script is fetched. */
  function Settle(w: World, t: Task, server: Server): (w': World)
    ensures Grows(w, w')
    ensures Sound(w.trace, server) ==> Sound(w'.trace, server)
    ensures w.chain.Rejected? ==> w.trace + [Errored(t.url, w.chain.failure)] <= w'.trace
    ensures w.chain.Fulfilled? && Loads(t, server(t.url)) ==>
              w.trace + [Fetching(t.url), Evaluated(t.url), Notified(t.url)] <= w'.trace
    ensures w.chain.Fulfilled? && !Loads(t, server(t.url)) ==>
              w.trace + [Fetching(t.url), Errored(t.url, ChainFailure(t, server(t.url)))] <= w'.trace
  {
    match w.chain
    case Rejected(f) => Catch(w, t, f, server)
    case Fulfilled =>
      var w1 := Emit(w, Fetching(t.url));
      SoundAppend(w.trace, Fetching(t.url), server);
      var w' := Fetched(w1, t, server(t.url), server);
      GrowsTrans(w, w1, w');
      w'
  }

  /** After the fetch: check the status, transform, evaluate, notify the
      listeners and call `success`; any failure or throw along the way goes to
      that task's `catch`. */
  function Fetched(w: World, t: Task, sc: Script, server: Server): (w': World)
    ensures Grows(w, w')
    ensures Sound(w.trace, server) && Fetching(t.url) in w.trace && sc == server(t.url) ==> Sound(w'.trace, server)
    ensures Loads(t, sc) ==> w.trace + [Evaluated(t.url), Notified(t.url)] <= w'.trace
    ensures !Loads(t, sc) ==> w.trace + [Errored(t.url, ChainFailure(t, sc))] <= w'.trace
  {
    if sc.response.NetworkError? then Catch(w, t, FetchRejected(sc.response.reason), server)
    else if !sc.response.ok then Catch(w, t, Thrown(FailedToFetch(t.url)), server)
    else if ApplyTransform(t.transform, sc.response.body).None? then Catch(w, t, TransformThrew, server)
    else if sc.evaluation.Throws? then Catch(w, t, EvalThrew(sc.evaluation.reason), server)
    else
      var w2 := Emit(w.(global := sc.evaluation.global), Evaluated(t.url));
      SoundAppend(w.trace, Evaluated(t.url), server);
      var c := Complete(w2, t.url, t.onSuccess, server);
      GrowsTrans(w, w2, c.world);
      if c.Normal? then c.world.(chain := Fulfilled)
      else
        var w4 := Catch(c.world, t, c.failure, server);
        GrowsTrans(w, c.world, w4);
        w4
  }

  /** Every task ever queued has either settled or is still waiting, and the
      settled ones are the oldest, in queue order. */
  predicate InOrder(w: World) {
    w.settled + w.pending == w.enqueued
  }

  /** Takes the oldest pending task off the queue and records it as settled. */
  function Dequeue(w: World): World
    requires |w.pending| > 0
  {
    w.(pending := w.pending[1..], settled := w.settled + [w.pending[0]])
  }

  /** Settles the oldest pending task; everything it queues goes behind the
      tasks already waiting. */
  function Step(w: World, server: Server): (w': World)
    requires |w.pending| > 0
    ensures Grows(Dequeue(w), w')
    ensures w'.settled == w.settled + [w.pending[0]]
    ensures w.pending[1..] <= w'.pending && w.enqueued <= w'.enqueued && w.trace <= w'.trace
    ensures InOrder(w) ==> InOrder(w')
    ensures Sound(w.trace, server) ==> Sound(w'.trace, server)
  {
    var w' := Settle(Dequeue(w), w.pending[0], server);
    DequeueGrows(w, w');
    w'
  }

  lemma DequeueGrows(w: World, w': World)
    requires |w.pending| > 0 && Grows(Dequeue(w), w')
    ensures w'.settled == w.settled + [w.pending[0]]
    ensures w.pending[1..] <= w'.pending && w.enqueued <= w'.enqueued && w.trace <= w'.trace
    ensures InOrder(w) ==> InOrder(w')
  {
    assert w.pending == [w.pending[0]] + w.pending[1..];
    assert w'.pending == w.pending[1..] + w'.pending[|w.pending[1..]|..];
  }

  /** Extending a world keeps the queue in order. */
  lemma GrowsInOrder(w: World, w': World)
    requires Grows(w, w')
    ensures InOrder(w) ==> InOrder(w')
  {
    assert w'.pending == w.pending + w'.pending[|w.pending|..];
  }

  /** Settles up to `fuel` tasks, stopping when the queue is empty. */
  function Run(w: World, server: Server, fuel: nat): (w': World)
    ensures w.settled <= w'.settled && w.enqueued <= w'.enqueued && w.trace <= w'.trace
    ensures |w'.pending| == 0 || |w'.settled| == |w.settled| + fuel
    ensures InOrder(w) ==> InOrder(w')
    ensures Sound(w.trace, server) ==> Sound(w'.trace, server)
    decreases fuel
  {
    if fuel == 0 || |w.pending| == 0 then w else Run(Step(w, server), server, fuel - 1)
  }

  /** `loadApp(config, onLoadCb)`: register the final-eval listener under the
      fixed key, then, when `goog` is undefined, import `goog/base.js`; each
      later stage is started from the previous stage's success callback. */
  function LoadApp(w: World, c: Config.LoadConfig, server: Server): (r: Flow)
    ensures Grows(w, r.world)
    ensures Sound(w.trace, server) ==> Sound(r.world.trace, server)
    ensures var base := Config.ServerBaseUrl(c, ImportScriptsAvailable(w.global));
      var waiting := Registry.Register(w.listeners, FinalEvalKey, WaitForFinalEval(Namespace.ToPath(c.cljsNs), c.cljsNs, c.renderFn));
      && (!GoogUndefined(w.global) ==> r == Normal(w.(listeners := waiting)))
      && (GoogUndefined(w.global) && !ImportScriptsAvailable(w.global) ==>
            r == Normal(w.(listeners := waiting,
                           pending := w.pending + [Task(base + "/goog/base.js", Identity, AfterBase(base), Noop)],
                           enqueued := w.enqueued + [Task(base + "/goog/base.js", Identity, AfterBase(base), Noop)])))
      && (GoogUndefined(w.global) && ImportScriptsAvailable(w.global) ==>
            w.trace + [Fetching(base + "/goog/base.js")] <= r.world.trace)
  {
    var base := Config.ServerBaseUrl(c, ImportScriptsAvailable(w.global));
    var mainJs := Namespace.ToPath(c.cljsNs);
    var w1 := w.(listeners := Registry.Register(w.listeners, FinalEvalKey, WaitForFinalEval(mainJs, c.cljsNs, c.renderFn)));
    if GoogUndefined(w1.global) then ImportJs(w1, base + "/goog/base.js", Some(AfterBase(base)), None, server)
    else Normal(w1)
  }
}
