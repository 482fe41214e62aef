/** That `loadApp`'s bootstrap does get through its four stages. On a fresh
    page with a server that delivers every stage, `goog/base.js`,
    `cljs_deps.js`, `goog/deps.js` and `index.js` load in that order and
    nothing else happens, leaving the final-eval waiter registered for the
    app's own files. Without `importScripts` this takes four settled tasks;
    with it the first three stages load during `loadApp` itself and one
    settled task loads `index.js`, which always goes through the chain. */
module BootstrapProgress {
  import opened Wrappers
  import opened JsValue
  import opened Loader
  import LoaderProofs
  import Bootstrap
  import Config
  import Registry
  import Namespace
  import Text

  /** The events stage `k` leaves when it loads and no listener waits for it:
      fetched, evaluated, listeners notified, success reported. */
  function StageEvents(base: string, k: nat): seq<Event>
    requires k < 4
  {
    var u := Bootstrap.StageUrl(base, k);
    [Fetching(u), Evaluated(u), Notified(u), Succeeded(u)]
  }

  /** The server lets stage `k` load and hand over to the next one: it
      delivers the script, `index.js`'s rewrite finds its defines, `goog/base.js`
      leaves a `goog` the shim can extend, and the first two stages leave no
      `importScripts` behind, so the next stage goes through the chain too. */
  predicate Delivers(server: Server, base: string, k: nat)
    requires k < 4
  {
    var sc := server(Bootstrap.StageUrl(base, k));
    && Served(sc)
    && ApplyTransform(Bootstrap.StageTask(base, k).transform, sc.response.body).Some?
    && (k == 0 ==> !ShimThrows(sc.evaluation.global))
    && (k < 2 ==> !ImportScriptsAvailable(sc.evaluation.global))
  }

  /** The chain's next task after stage `k`: stage `k + 1`, or none after
      `index.js`. */
  function Next(base: string, k: nat): seq<Task>
    requires k < 4
  {
    if k < 3 then [Bootstrap.StageTask(base, k + 1)] else []
  }

  /** Stage `k`'s success callback on an empty queue: it queues the next
      stage and records nothing, provided the shim can run after
      `goog/base.js` and no `importScripts` turns the next import synchronous. */
  lemma HandOver(w: World, base: string, k: nat, server: Server)
    requires k < 4 && w.pending == []
    requires k == 0 ==> !ShimThrows(w.global)
    requires k < 2 ==> !ImportScriptsAvailable(w.global)
    ensures var r := Call(w, Bootstrap.StageTask(base, k).onSuccess, server);
      && r.Normal? && r.world.trace == w.trace && r.world.pending == Next(base, k)
      && r.world.chain == w.chain && r.world.listeners == w.listeners
  {
    if k == 0 {
      assert Call(w, AfterBase(base), server)
          == ImportJs(w, Bootstrap.StageUrl(base, 1), Some(Bootstrap.Continuation(base, 1)), None, server);
    } else if k == 1 {
      assert Call(w, AfterCljsDeps(base), server)
          == ImportJs(w, Bootstrap.StageUrl(base, 2), Some(Bootstrap.Continuation(base, 2)), None, server);
    } else if k == 2 {
      assert Call(w, AfterGoogDeps(base), server) == Normal(ImportIndexJs(w, base));
    }
  }

  /** With stage `k` alone on a fulfilled chain, one step loads it and queues
      the next stage. */
  lemma {:induction false} StageLoads(w: World, server: Server, base: string, k: nat, l: Listener)
    requires k < 4 && Delivers(server, base, k)
    requires w.chain == Fulfilled && w.pending == [Bootstrap.StageTask(base, k)]
    requires w.listeners == [Registry.Entry(FinalEvalKey, l)]
    requires !Text.Contains(Bootstrap.StageUrl(base, k), l.mainJs)
    ensures var w' := Step(w, server);
      && w'.trace == w.trace + StageEvents(base, k)
      && w'.pending == Next(base, k)
      && w'.chain == Fulfilled && w'.listeners == w.listeners
  {
    var t := Bootstrap.StageTask(base, k);
    var u := t.url;
    var sc := server(u);
    var d := Dequeue(w);
    assert Step(w, server) == Settle(d, t, server);
    LoaderProofs.SettleDelivered(d, t, server);
    var w2 := Emit(Emit(d, Fetching(u)).(global := sc.evaluation.global), Evaluated(u));
    var w3 := Emit(w2, Notified(u));
    LoaderProofs.NotifyIdle(w2, u, server);
    LoaderProofs.CompleteSteps(w2, u, t.onSuccess, server);
    var w4 := Emit(w3, Succeeded(u));
    assert w4.pending == [] && w4.trace == w.trace + StageEvents(base, k);
    HandOver(w4, base, k, server);
  }

  /** With no `goog`, no `importScripts`, an idle chain and no listeners,
      `loadApp` registers its waiter and queues `goog/base.js`, and records
      nothing. */
  lemma LoadAppQueuesBase(w: World, c: Config.LoadConfig, server: Server)
    requires GoogUndefined(w.global) && !ImportScriptsAvailable(w.global)
    requires w.chain == Fulfilled && w.pending == [] && w.listeners == []
    ensures var w' := LoadApp(w, c, server).world;
      && w'.trace == w.trace && w'.chain == Fulfilled
      && w'.pending == [Bootstrap.StageTask(Bootstrap.BaseOf(w.global, c), 0)]
      && w'.listeners == [Registry.Entry(FinalEvalKey, WaitForFinalEval(Namespace.ToPath(c.cljsNs), c.cljsNs, c.renderFn))]
  {
  }

  /** Stage `k` can load and hand over, and the waiter does not wait for its
      file. */
  predicate Loadable(server: Server, base: string, l: Listener, k: nat)
    requires k < 4
  {
    Delivers(server, base, k) && !Text.Contains(Bootstrap.StageUrl(base, k), l.mainJs)
  }

  /** `index.js` alone on a fulfilled chain loads in one settled task, and
      then the chain is idle. */
  lemma IndexLoads(w: World, server: Server, base: string, l: Listener)
    requires Loadable(server, base, l, 3)
    requires w.chain == Fulfilled && w.pending == [Bootstrap.StageTask(base, 3)]
    requires w.listeners == [Registry.Entry(FinalEvalKey, l)]
    ensures var w' := Run(w, server, 1);
      && w'.trace == w.trace + StageEvents(base, 3)
      && w'.pending == [] && w'.chain == Fulfilled && w'.listeners == w.listeners
  {
    StageLoads(w, server, base, 3, l);
    var w1 := Step(w, server);
    assert Run(w, server, 1) == Run(w1, server, 0) == w1;
  }

  /** `goog/deps.js` alone on a fulfilled chain, then `index.js`. */
  lemma GoogDepsOnward(w: World, server: Server, base: string, l: Listener)
    requires Loadable(server, base, l, 2) && Loadable(server, base, l, 3)
    requires w.chain == Fulfilled && w.pending == [Bootstrap.StageTask(base, 2)]
    requires w.listeners == [Registry.Entry(FinalEvalKey, l)]
    ensures var w' := Run(w, server, 2);
      && w'.trace == w.trace + StageEvents(base, 2) + StageEvents(base, 3)
      && w'.pending == [] && w'.chain == Fulfilled && w'.listeners == w.listeners
  {
    StageLoads(w, server, base, 2, l);
    var w1 := Step(w, server);
    IndexLoads(w1, server, base, l);
    assert Run(w, server, 2) == Run(w1, server, 1);
  }

  /** `cljs_deps.js` alone on a fulfilled chain, then the two later stages. */
  lemma CljsDepsOnward(w: World, server: Server, base: string, l: Listener)
    requires Loadable(server, base, l, 1) && Loadable(server, base, l, 2) && Loadable(server, base, l, 3)
    requires w.chain == Fulfilled && w.pending == [Bootstrap.StageTask(base, 1)]
    requires w.listeners == [Registry.Entry(FinalEvalKey, l)]
    ensures var w' := Run(w, server, 3);
      && w'.trace == w.trace + StageEvents(base, 1) + StageEvents(base, 2) + StageEvents(base, 3)
      && w'.pending == [] && w'.chain == Fulfilled && w'.listeners == w.listeners
  {
    StageLoads(w, server, base, 1, l);
    var w1 := Step(w, server);
    GoogDepsOnward(w1, server, base, l);
    assert Run(w, server, 3) == Run(w1, server, 2);
  }

  /** `goog/base.js` alone on a fulfilled chain, then the three later stages. */
  lemma BaseOnward(w: World, server: Server, base: string, l: Listener)
    requires Loadable(server, base, l, 0) && Loadable(server, base, l, 1)
    requires Loadable(server, base, l, 2) && Loadable(server, base, l, 3)
    requires w.chain == Fulfilled && w.pending == [Bootstrap.StageTask(base, 0)]
    requires w.listeners == [Registry.Entry(FinalEvalKey, l)]
    ensures var w' := Run(w, server, 4);
      && w'.trace == w.trace + StageEvents(base, 0) + StageEvents(base, 1) + StageEvents(base, 2) + StageEvents(base, 3)
      && w'.pending == [] && w'.chain == Fulfilled && w'.listeners == w.listeners
  {
    StageLoads(w, server, base, 0, l);
    var w1 := Step(w, server);
    CljsDepsOnward(w1, server, base, l);
    assert Run(w, server, 4) == Run(w1, server, 3);
  }

  /** From an idle page without `goog` or `importScripts`, `loadApp` and four
      settled tasks load the four stages when each of them is loadable. */
  lemma LoadAppLoadsEveryStage(w: World, c: Config.LoadConfig, server: Server, l: Listener)
    requires GoogUndefined(w.global) && !ImportScriptsAvailable(w.global)
    requires w.chain == Fulfilled && w.pending == [] && w.listeners == []
    requires l == WaitForFinalEval(Namespace.ToPath(c.cljsNs), c.cljsNs, c.renderFn)
    requires Loadable(server, Bootstrap.BaseOf(w.global, c), l, 0) && Loadable(server, Bootstrap.BaseOf(w.global, c), l, 1)
    requires Loadable(server, Bootstrap.BaseOf(w.global, c), l, 2) && Loadable(server, Bootstrap.BaseOf(w.global, c), l, 3)
    ensures var base := Bootstrap.BaseOf(w.global, c);
      var w' := Run(LoadApp(w, c, server).world, server, 4);
      && w'.trace == w.trace + StageEvents(base, 0) + StageEvents(base, 1) + StageEvents(base, 2) + StageEvents(base, 3)
      && w'.pending == [] && w'.chain == Fulfilled && w'.listeners == [Registry.Entry(FinalEvalKey, l)]
  {
    LoadAppQueuesBase(w, c, server);
    BaseOnward(LoadApp(w, c, server).world, server, Bootstrap.BaseOf(w.global, c), l);
  }

  /** The bootstrap runs to the end: after `loadApp` on a fresh page and four
      settled tasks, the trace is exactly the four stages loading one after
      the other (a fresh page's trace is empty), the queue is empty and the
      waiter is still registered. */
  lemma BootLoadsEveryStage(g: Value, c: Config.LoadConfig, server: Server)
    requires GoogUndefined(g) && !ImportScriptsAvailable(g)
    requires forall k :: 0 <= k < 4 ==> Delivers(server, Bootstrap.BaseOf(g, c), k)
    requires forall k :: 0 <= k < 4 ==> !Text.Contains(Bootstrap.StageUrl(Bootstrap.BaseOf(g, c), k), Namespace.ToPath(c.cljsNs))
    ensures var base := Bootstrap.BaseOf(g, c);
      var w := Bootstrap.Boot(g, c, server, 4);
      && w.trace == Fresh(g).trace + StageEvents(base, 0) + StageEvents(base, 1) + StageEvents(base, 2) + StageEvents(base, 3)
      && w.pending == [] && w.chain == Fulfilled
      && w.listeners == [Registry.Entry(FinalEvalKey, WaitForFinalEval(Namespace.ToPath(c.cljsNs), c.cljsNs, c.renderFn))]
  {
    var base := Bootstrap.BaseOf(g, c);
    var l := WaitForFinalEval(Namespace.ToPath(c.cljsNs), c.cljsNs, c.renderFn);
    assert Loadable(server, base, l, 0) && Loadable(server, base, l, 1);
    assert Loadable(server, base, l, 2) && Loadable(server, base, l, 3);
    LoadAppLoadsEveryStage(Fresh(g), c, server, l);
  }

  // ---------------------------------------------------------------------
  // With `importScripts`: the first three stages load during the call
  // ---------------------------------------------------------------------

  /** Stage `k < 3` loads synchronously and hands over: the server delivers
      it, `goog/base.js` leaves a `goog` the shim can extend, the first two
      stages leave `importScripts` in place so that the next import is
      synchronous too, and the waiter does not wait for the stage's file. */
  predicate SyncLoadable(server: Server, base: string, l: Listener, k: nat)
    requires k < 3
  {
    var sc := server(Bootstrap.StageUrl(base, k));
    && Served(sc)
    && (k == 0 ==> !ShimThrows(sc.evaluation.global))
    && (k < 2 ==> ImportScriptsAvailable(sc.evaluation.global))
    && !Text.Contains(Bootstrap.StageUrl(base, k), l.mainJs)
  }

  /** With the waiter alone in the table, it ignores a URL without its file. */
  lemma WaiterIdle(r: Registry.Registry<Listener>, l: Listener, url: string)
    requires r == [Registry.Entry(FinalEvalKey, l)] && !Text.Contains(url, l.mainJs)
    ensures LoaderProofs.Idle(r, url)
  {
  }

  /** The world once URL `u` has been fetched, evaluated, announced and
      reported successful, before its success callback runs. */
  function AfterLoad(w: World, u: string, server: Server): (w': World)
    requires Served(server(u))
    ensures w'.trace == w.trace + [Fetching(u), Evaluated(u), Notified(u), Succeeded(u)]
    ensures w'.global == server(u).evaluation.global
    ensures w'.pending == w.pending && w'.chain == w.chain && w'.listeners == w.listeners
  {
    Emit(Emit(Emit(Emit(w, Fetching(u)).(global := server(u).evaluation.global), Evaluated(u)), Notified(u)), Succeeded(u))
  }

  /** A synchronous import of stage `k < 3` loads it during the call and then
      runs the stage's continuation; when that returns, so does the import. */
  lemma SyncStageCompletes(w: World, server: Server, base: string, l: Listener, k: nat)
    requires k < 3 && ImportScriptsAvailable(w.global) && SyncLoadable(server, base, l, k)
    requires w.listeners == [Registry.Entry(FinalEvalKey, l)]
    ensures var u := Bootstrap.StageUrl(base, k);
      var c := Call(AfterLoad(w, u, server), Bootstrap.Continuation(base, k), server);
      c.Normal? ==> ImportJs(w, u, Some(Bootstrap.Continuation(base, k)), None, server) == c
  {
    var u := Bootstrap.StageUrl(base, k);
    LoaderProofs.ImportJsDelivered(w, u, Some(Bootstrap.Continuation(base, k)), None, server);
    var w2 := Emit(Emit(w, Fetching(u)).(global := server(u).evaluation.global), Evaluated(u));
    WaiterIdle(w2.listeners, l, u);
    LoaderProofs.NotifyIdle(w2, u, server);
    LoaderProofs.CompleteSteps(w2, u, Bootstrap.Continuation(base, k), server);
  }

  /** `goog/deps.js` imported synchronously loads during the call and
      queues `index.js`. */
  lemma GoogDepsSync(w: World, server: Server, base: string, l: Listener)
    requires ImportScriptsAvailable(w.global) && SyncLoadable(server, base, l, 2)
    requires w.listeners == [Registry.Entry(FinalEvalKey, l)]
    ensures var r := ImportJs(w, Bootstrap.StageUrl(base, 2), Some(AfterGoogDeps(base)), None, server);
      && r.Normal? && r.world.trace == w.trace + StageEvents(base, 2)
      && r.world.pending == w.pending + [Bootstrap.StageTask(base, 3)]
      && r.world.chain == w.chain && r.world.listeners == w.listeners
  {
    var w4 := AfterLoad(w, Bootstrap.StageUrl(base, 2), server);
    SyncStageCompletes(w, server, base, l, 2);
    assert Call(w4, AfterGoogDeps(base), server) == Normal(ImportIndexJs(w4, base));
  }

  /** `cljs_deps.js` imported synchronously loads, and so does `goog/deps.js`
      from its callback, during the call. */
  lemma CljsDepsSync(w: World, server: Server, base: string, l: Listener)
    requires ImportScriptsAvailable(w.global)
    requires SyncLoadable(server, base, l, 1) && SyncLoadable(server, base, l, 2)
    requires w.listeners == [Registry.Entry(FinalEvalKey, l)]
    ensures var r := ImportJs(w, Bootstrap.StageUrl(base, 1), Some(AfterCljsDeps(base)), None, server);
      && r.Normal? && r.world.trace == w.trace + StageEvents(base, 1) + StageEvents(base, 2)
      && r.world.pending == w.pending + [Bootstrap.StageTask(base, 3)]
      && r.world.chain == w.chain && r.world.listeners == w.listeners
  {
    var w4 := AfterLoad(w, Bootstrap.StageUrl(base, 1), server);
    SyncStageCompletes(w, server, base, l, 1);
    assert Call(w4, AfterCljsDeps(base), server)
        == ImportJs(w4, Bootstrap.StageUrl(base, 2), Some(AfterGoogDeps(base)), None, server);
    GoogDepsSync(w4, server, base, l);
  }

  /** After `goog/base.js`, a `goog` the shim can extend lets its callback
      import `cljs_deps.js`. */
  lemma ShimHandsOver(w: World, base: string, server: Server)
    requires !ShimThrows(w.global)
    ensures Call(w, AfterBase(base), server)
         == ImportJs(w, Bootstrap.StageUrl(base, 1), Some(AfterCljsDeps(base)), None, server)
  {
  }

  /** `goog/base.js` imported synchronously loads, and so do the next two
      stages from the callbacks, during the call; `index.js` is queued. */
  lemma BaseSync(w: World, server: Server, base: string, l: Listener)
    requires ImportScriptsAvailable(w.global)
    requires SyncLoadable(server, base, l, 0) && SyncLoadable(server, base, l, 1) && SyncLoadable(server, base, l, 2)
    requires w.listeners == [Registry.Entry(FinalEvalKey, l)]
    ensures var r := ImportJs(w, Bootstrap.StageUrl(base, 0), Some(AfterBase(base)), None, server);
      && r.Normal? && r.world.trace == w.trace + StageEvents(base, 0) + StageEvents(base, 1) + StageEvents(base, 2)
      && r.world.pending == w.pending + [Bootstrap.StageTask(base, 3)]
      && r.world.chain == w.chain && r.world.listeners == w.listeners
  {
    var w4 := AfterLoad(w, Bootstrap.StageUrl(base, 0), server);
    SyncStageCompletes(w, server, base, l, 0);
    assert w4.trace == w.trace + StageEvents(base, 0);
    ShimHandsOver(w4, base, server);
    CljsDepsSync(w4, server, base, l);
  }

  /** From an idle page without `goog` but with `importScripts`, `loadApp`
      loads the first three stages during the call and one settled task
      loads `index.js`, when each stage is loadable. */
  lemma SyncLoadAppLoadsEveryStage(w: World, c: Config.LoadConfig, server: Server, l: Listener)
    requires GoogUndefined(w.global) && ImportScriptsAvailable(w.global)
    requires w.chain == Fulfilled && w.pending == [] && w.listeners == []
    requires l == WaitForFinalEval(Namespace.ToPath(c.cljsNs), c.cljsNs, c.renderFn)
    requires SyncLoadable(server, Bootstrap.BaseOf(w.global, c), l, 0) && SyncLoadable(server, Bootstrap.BaseOf(w.global, c), l, 1)
    requires SyncLoadable(server, Bootstrap.BaseOf(w.global, c), l, 2) && Loadable(server, Bootstrap.BaseOf(w.global, c), l, 3)
    ensures var base := Bootstrap.BaseOf(w.global, c);
      var w' := Run(LoadApp(w, c, server).world, server, 1);
      && w'.trace == w.trace + StageEvents(base, 0) + StageEvents(base, 1) + StageEvents(base, 2) + StageEvents(base, 3)
      && w'.pending == [] && w'.chain == Fulfilled && w'.listeners == [Registry.Entry(FinalEvalKey, l)]
  {
    var base := Bootstrap.BaseOf(w.global, c);
    var w1 := w.(listeners := Registry.Register(w.listeners, FinalEvalKey, l));
    assert w1.listeners == [Registry.Entry(FinalEvalKey, l)];
    assert LoadApp(w, c, server) == ImportJs(w1, Bootstrap.StageUrl(base, 0), Some(AfterBase(base)), None, server);
    BaseSync(w1, server, base, l);
    IndexLoads(LoadApp(w, c, server).world, server, base, l);
  }

  /** The bootstrap with `importScripts` runs to the end: on a fresh page,
      after `loadApp` and one settled task the trace is exactly the four
      stages loading one after the other (a fresh page's trace is empty),
      the queue is empty and the waiter is still registered. */
  lemma SyncBootLoadsEveryStage(g: Value, c: Config.LoadConfig, server: Server)
    requires GoogUndefined(g) && ImportScriptsAvailable(g)
    requires forall k :: 0 <= k < 3 ==> SyncLoadable(server, Bootstrap.BaseOf(g, c), WaitForFinalEval(Namespace.ToPath(c.cljsNs), c.cljsNs, c.renderFn), k)
    requires Loadable(server, Bootstrap.BaseOf(g, c), WaitForFinalEval(Namespace.ToPath(c.cljsNs), c.cljsNs, c.renderFn), 3)
    ensures var base := Bootstrap.BaseOf(g, c);
      var w := Bootstrap.Boot(g, c, server, 1);
      && w.trace == Fresh(g).trace + StageEvents(base, 0) + StageEvents(base, 1) + StageEvents(base, 2) + StageEvents(base, 3)
      && w.pending == [] && w.chain == Fulfilled
      && w.listeners == [Registry.Entry(FinalEvalKey, WaitForFinalEval(Namespace.ToPath(c.cljsNs), c.cljsNs, c.renderFn))]
  {
    var base := Bootstrap.BaseOf(g, c);
    var l := WaitForFinalEval(Namespace.ToPath(c.cljsNs), c.cljsNs, c.renderFn);
    assert SyncLoadable(server, base, l, 0) && SyncLoadable(server, base, l, 1) && SyncLoadable(server, base, l, 2);
    SyncLoadAppLoadsEveryStage(Fresh(g), c, server, l);
  }

  /** Every bootstrap settles its tasks in the order it queued them. */
  lemma BootSettlesInQueueOrder(g: Value, c: Config.LoadConfig, server: Server, fuel: nat)
    ensures var w := Bootstrap.Boot(g, c, server, fuel);
      && |w.settled| <= |w.enqueued|
      && forall i :: 0 <= i < |w.settled| ==> w.settled[i] == w.enqueued[i]
  {
    LoaderProofs.FreshInOrder(g);
    GrowsInOrder(Fresh(g), LoadApp(Fresh(g), c, server).world);
    LoaderProofs.SettlesInQueueOrder(LoadApp(Fresh(g), c, server).world, server, fuel);
  }
}
