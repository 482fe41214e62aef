/** Properties of the import machinery: the chain settles tasks in the order
    they were queued, a failing task does not stop the ones behind it unless
    its error callback throws, every evaluation, notification and success is
    backed by a delivered script, and the order in which the steps of one
    import happen on both the asynchronous and the synchronous path. */
module LoaderProofs {
  import opened Wrappers
  import opened JsValue
  import opened Loader
  import Registry
  import Text
  import Namespace

  // ---------------------------------------------------------------------
  // The chain is a FIFO queue
  // ---------------------------------------------------------------------

  lemma FreshInOrder(g: Value)
    ensures InOrder(Fresh(g))
  {
  }

  /** Tasks settle in the order they were queued: the settled tasks are
      always the oldest queued ones, in queue order. */
  lemma SettlesInQueueOrder(w: World, server: Server, fuel: nat)
    requires InOrder(w)
    ensures var r := Run(w, server, fuel);
      && |r.settled| <= |r.enqueued|
      && forall i :: 0 <= i < |r.settled| ==> r.settled[i] == r.enqueued[i]
  {
    var r := Run(w, server, fuel);
    assert r.settled + r.pending == r.enqueued;
  }

  // ---------------------------------------------------------------------
  // Failures and the chain
  // ---------------------------------------------------------------------

  /** An error callback that returns normally. */
  predicate Quiet(cb: Callback) {
    cb == Noop || (cb.Caller? && cb.throws.None?)
  }

  /** With an error callback that does not throw, a task leaves the chain
      fulfilled whatever happened to it: the fetch, the status, the
      transform, the evaluation, the listeners or its success callback may
      all fail. */
  lemma QuietErrorKeepsChain(w: World, t: Task, server: Server)
    requires Quiet(t.onError)
    ensures Settle(w, t, server).chain == Fulfilled
  {
    var sc := server(t.url);
    match w.chain
    case Rejected(f) =>
    case Fulfilled =>
      var w1 := Emit(w, Fetching(t.url));
      var w' := Fetched(w1, t, sc, server);
  }

  /** So a failed task does not stop the next one: after it, the next task
      is fetched. */
  lemma FailedTaskDoesNotBlockNext(w: World, server: Server)
    requires |w.pending| >= 2
    requires Quiet(w.pending[0].onError)
    ensures var w1 := Step(w, server);
      && |w1.pending| > 0 && w1.pending[0] == w.pending[1]
      && w1.chain == Fulfilled
      && Step(w1, server).trace[|w1.trace|] == Fetching(w.pending[1].url)
  {
    var d := Dequeue(w);
    var w1 := Step(w, server);
    QuietErrorKeepsChain(d, w.pending[0], server);
    assert w1.pending[..|d.pending|] == d.pending;
    var d1 := Dequeue(w1);
    assert d1.chain == Fulfilled;
    var e := Emit(d1, Fetching(w.pending[1].url));
    var w2 := Fetched(e, w.pending[1], server(w.pending[1].url), server);
    assert e.trace <= w2.trace;
    assert w2.trace[|w1.trace|] == e.trace[|w1.trace|];
  }

  /** When the error callback itself throws, the chain is left rejected and
      the next task is not fetched: it goes straight to its own `catch`
      with the same failure. */
  lemma RejectedChainSkipsFetch(w: World, t: Task, f: Failure, server: Server)
    requires w.chain == Rejected(f)
    ensures Settle(w, t, server).trace[|w.trace|] == Errored(t.url, f)
    ensures Settle(w, t, server) == Catch(w, t, f, server)
  {
    var w' := Settle(w, t, server);
    assert w.trace + [Errored(t.url, f)] <= w'.trace;
  }

  /** A throwing error callback poisons the chain, whatever the failure it
      was called for: the `catch` reports the failure, runs the callback and
      leaves the chain rejected with the callback's exception. */
  lemma LoudErrorRejectsChain(w: World, t: Task, f: Failure, server: Server, name: string, reason: string)
    requires t.onError == Caller(name, Some(reason))
    ensures var w' := Catch(w, t, f, server);
      && w'.chain == Rejected(CallerThrew(reason))
      && w'.trace == w.trace + [Errored(t.url, f), Called(name)]
  {
  }

  /** So an import that fails before its success callback, with an error
      callback that throws, leaves the chain rejected. */
  lemma FailedImportRejectsChain(w: World, t: Task, server: Server, name: string, reason: string)
    requires !Served(server(t.url)) || ApplyTransform(t.transform, server(t.url).response.body).None?
    requires t.onError == Caller(name, Some(reason))
    ensures Settle(w, t, server).chain == Rejected(CallerThrew(reason))
  {
    if w.chain.Fulfilled? {
      var w1 := Emit(w, Fetching(t.url));
      var sc := server(t.url);
      assert Settle(w, t, server) == Fetched(w1, t, sc, server);
      if sc.response.NetworkError? {
        LoudErrorRejectsChain(w1, t, FetchRejected(sc.response.reason), server, name, reason);
      } else if !sc.response.ok {
        LoudErrorRejectsChain(w1, t, Thrown(FailedToFetch(t.url)), server, name, reason);
      } else if ApplyTransform(t.transform, sc.response.body).None? {
        LoudErrorRejectsChain(w1, t, TransformThrew, server, name, reason);
      } else {
        LoudErrorRejectsChain(w1, t, EvalThrew(sc.evaluation.reason), server, name, reason);
      }
    }
  }

  /** What a non-throwing callback of code outside the model leaves in the
      trace. */
  function Calls(cb: Callback): seq<Event> {
    if cb.Caller? then [Called(cb.name)] else []
  }

  /** A non-ok response: the import reports the "Failed to Fetch" error with
      the URL, calls the error callback and does nothing else; nothing is
      evaluated, no listener hears of it, the success callback is not called
      and the chain stays usable. */
  lemma NotOkReportsFailedFetch(w: World, t: Task, server: Server)
    requires w.chain == Fulfilled
    requires server(t.url).response.Response? && !server(t.url).response.ok
    requires Quiet(t.onError)
    ensures var w' := Settle(w, t, server);
      && w'.trace == w.trace + [Fetching(t.url), Errored(t.url, Thrown(FailedToFetch(t.url)))] + Calls(t.onError)
      && w'.global == w.global && w'.listeners == w.listeners
      && w'.pending == w.pending && w'.chain == Fulfilled
  {
    var w1 := Emit(w, Fetching(t.url));
    assert Fetched(w1, t, server(t.url), server) == Catch(w1, t, Thrown(FailedToFetch(t.url)), server);
  }

  // ---------------------------------------------------------------------
  // Evaluations are backed by delivered scripts
  // ---------------------------------------------------------------------

  /** In a sound trace an evaluation implies an earlier fetch of that URL,
      and that the server delivered a script that evaluated. */
  lemma EvaluatedIsBacked(trace: seq<Event>, server: Server, u: string)
    requires Sound(trace, server)
    ensures Evaluated(u) in trace ==> Fetching(u) in trace && Served(server(u))
  {
    if Evaluated(u) in trace {
      var k :| 0 <= k < |trace| && trace[k] == Evaluated(u);
      assert BackedBy(trace[..k], trace[k], server);
      var m :| 0 <= m < k && trace[..k][m] == Fetching(u);
      assert trace[m] == Fetching(u);
    }
  }

  /** A success report implies the notification, the evaluation and the
      fetch of that URL, and that the server delivered it. */
  lemma SucceededIsBacked(trace: seq<Event>, server: Server, u: string)
    requires Sound(trace, server)
    ensures Succeeded(u) in trace ==>
              Notified(u) in trace && Evaluated(u) in trace && Fetching(u) in trace && Served(server(u))
  {
    if Succeeded(u) in trace {
      var i :| 0 <= i < |trace| && trace[i] == Succeeded(u);
      assert BackedBy(trace[..i], trace[i], server);
      var j :| 0 <= j < i && trace[..i][j] == Notified(u);
      assert trace[j] == Notified(u);
      assert BackedBy(trace[..j], trace[j], server);
      var k :| 0 <= k < j && trace[..j][k] == Evaluated(u);
      assert trace[k] == Evaluated(u);
      EvaluatedIsBacked(trace, server, u);
    }
  }

  /** So a URL the server does not deliver, or whose script throws, is never
      reported as evaluated or successful, however long the chain runs. */
  lemma UndeliveredNeverSucceeds(w: World, server: Server, fuel: nat, u: string)
    requires Sound(w.trace, server)
    requires !Served(server(u))
    ensures Evaluated(u) !in Run(w, server, fuel).trace
    ensures Succeeded(u) !in Run(w, server, fuel).trace
  {
    var t := Run(w, server, fuel).trace;
    EvaluatedIsBacked(t, server, u);
    SucceededIsBacked(t, server, u);
  }

  // ---------------------------------------------------------------------
  // Notifying the listeners
  // ---------------------------------------------------------------------

  /** No registered listener waits for a file that `url` contains. */
  predicate Idle(r: Registry.Registry<Listener>, url: string) {
    forall i :: 0 <= i < |r| ==> !Text.Contains(url, r[i].listener.mainJs)
  }

  lemma {:induction false} FireIdle(w: World, ls: seq<Listener>, url: string)
    requires forall i :: 0 <= i < |ls| ==> !Text.Contains(url, ls[i].mainJs)
    ensures FireFrom(w, ls, url) == Normal(w)
    decreases |ls|
  {
    if |ls| > 0 {
      FireIdle(w, ls[1..], url);
    }
  }

  /** Listeners that do not wait for `url` ignore it: notifying only records
      the URL. */
  lemma NotifyIdle(w: World, url: string, server: Server)
    requires Idle(w.listeners, url)
    ensures Notify(w, url, server) == Normal(Emit(w, Notified(url)))
  {
    FireIdle(Emit(w, Notified(url)), Registry.Values(w.listeners), url);
  }

  /** With only the final-eval waiter registered, notifying records the URL
      and then calls the waiter with it. */
  lemma NotifyWaiter(w: World, l: Listener, url: string, server: Server)
    requires w.listeners == [Registry.Entry(FinalEvalKey, l)]
    ensures Notify(w, url, server) == RunListener(Emit(w, Notified(url)), l, url)
  {
    var w1 := Emit(w, Notified(url));
    assert Registry.Values(w.listeners) == [l];
    assert Notify(w, url, server) == FireFrom(w1, [l], url);
    FireOne(w1, l, url);
  }

  /** After the evaluation: a throw from the listeners ends the completion;
      otherwise `success` is reported and called. */
  lemma CompleteSteps(w: World, url: string, success: Callback, server: Server)
    ensures var n := Notify(w, url, server);
      Complete(w, url, success, server) == if n.Threw? then n else Call(Emit(n.world, Succeeded(url)), success, server)
  {
  }

  /** Whether the waiter throws, and with what, depends on the global object
      alone; a throw leaves the world as it was. */
  lemma ListenerThrowReadsGlobal(w: World, v: World, l: Listener, url: string)
    requires w.global == v.global && RunListener(w, l, url).Threw?
    ensures RunListener(v, l, url) == Threw(v, RunListener(w, l, url).failure)
  {
  }

  lemma FireOne(w: World, l: Listener, url: string)
    ensures FireFrom(w, [l], url) == RunListener(w, l, url)
  {
    var r := RunListener(w, l, url);
    if r.Normal? {
      assert [l][1..] == [];
      assert FireFrom(r.world, [], url) == Normal(r.world);
    }
  }

  // ---------------------------------------------------------------------
  // The order of one import
  // ---------------------------------------------------------------------

  /** A delivered, evaluating script on a fulfilled chain reaches the
      success callback with the evaluation's global object in place. */
  lemma SettleDelivered(w: World, t: Task, server: Server)
    requires w.chain == Fulfilled
    requires Served(server(t.url)) && ApplyTransform(t.transform, server(t.url).response.body).Some?
    ensures var w2 := Emit(Emit(w, Fetching(t.url)).(global := server(t.url).evaluation.global), Evaluated(t.url));
      var c := Complete(w2, t.url, t.onSuccess, server);
      Settle(w, t, server) == if c.Normal? then c.world.(chain := Fulfilled) else Catch(c.world, t, c.failure, server)
  {
    assert Settle(w, t, server) == Fetched(Emit(w, Fetching(t.url)), t, server(t.url), server);
  }

  /** A delivered script loaded synchronously completes with the
      evaluation's global object in place; a throw from the completion goes
      to the `catch`. */
  lemma SyncLoadedDelivered(w: World, url: string, sc: Script, success: Callback, error: Callback, server: Server)
    requires Served(sc)
    ensures var w2 := Emit(w.(global := sc.evaluation.global), Evaluated(url));
      var c := Complete(w2, url, success, server);
      SyncLoaded(w, url, sc, success, error, server) == if c.Normal? then c else SyncCatch(c.world, url, c.failure, error, server)
  {
  }

  /** With `importScripts` present, importing a delivered script fetches it
      and completes synchronously. */
  lemma ImportJsDelivered(w: World, src: string, success: Option<Callback>, error: Option<Callback>, server: Server)
    requires ImportScriptsAvailable(w.global) && Served(server(src))
    ensures var w2 := Emit(Emit(w, Fetching(src)).(global := server(src).evaluation.global), Evaluated(src));
      var c := Complete(w2, src, OrNoop(success), server);
      ImportJs(w, src, success, error, server) == if c.Normal? then c else SyncCatch(c.world, src, c.failure, OrNoop(error), server)
  {
    var w1 := Emit(w, Fetching(src));
    assert ImportJs(w, src, success, error, server) == SyncLoaded(w1, src, server(src), OrNoop(success), OrNoop(error), server);
    SyncLoadedDelivered(w1, src, server(src), OrNoop(success), OrNoop(error), server);
  }

  /** The asynchronous happy path when no listener waits for this file:
      fetch, evaluate with the delivered script's effect, notify, report
      success, run the success callback; the chain stays fulfilled. */
  lemma AsyncSuccessOrder(w: World, t: Task, server: Server, name: string)
    requires w.chain == Fulfilled && Idle(w.listeners, t.url)
    requires Served(server(t.url)) && ApplyTransform(t.transform, server(t.url).response.body).Some?
    requires t.onSuccess == Caller(name, None)
    ensures var w' := Settle(w, t, server);
      && w'.trace == w.trace + [Fetching(t.url), Evaluated(t.url), Notified(t.url), Succeeded(t.url), Called(name)]
      && w'.global == server(t.url).evaluation.global
      && w'.chain == Fulfilled && w'.pending == w.pending
  {
    var sc := server(t.url);
    var w1 := Emit(w, Fetching(t.url));
    assert Settle(w, t, server) == Fetched(w1, t, sc, server);
    var w2 := Emit(w1.(global := sc.evaluation.global), Evaluated(t.url));
    var w3 := Emit(w2, Notified(t.url));
    NotifyIdle(w2, t.url, server);
    var w4 := Emit(w3, Succeeded(t.url));
    assert Complete(w2, t.url, t.onSuccess, server) == Call(w4, t.onSuccess, server);
    assert Call(w4, t.onSuccess, server) == Normal(Emit(w4, Called(name)));
  }

  /** The completion of the app's main file, once evaluated: notify, the
      waiter hands over the render function and removes itself, success is
      reported and the success callback runs. */
  lemma FinalEvalCompletes(w: World, url: string, server: Server, l: Listener, root: Value, name: string)
    requires w.listeners == [Registry.Entry(FinalEvalKey, l)]
    requires Text.Contains(url, l.mainJs)
    requires NamespaceRoot(w.global) == Some(root)
    requires Truthy(Namespace.ToObject(root, l.cljsNs))
    requires Truthy(Prop(Namespace.ToObject(root, l.cljsNs), l.renderFn))
    ensures var r := Complete(w, url, Caller(name, None), server);
      && r.Normal?
      && r.world.trace == w.trace + [Notified(url), Loaded(Prop(Namespace.ToObject(root, l.cljsNs), l.renderFn)),
                                     Succeeded(url), Called(name)]
      && r.world.listeners == [] && r.world.pending == w.pending
      && r.world.chain == w.chain && r.world.global == w.global
  {
    var w3 := Emit(w, Notified(url));
    NotifyWaiter(w, l, url, server);
    FinalEvalFiresWhenReady(w3, l, url, root);
    assert Registry.Unregister(w3.listeners, FinalEvalKey) == [];
    var w4 := Emit(w3, Loaded(Prop(Namespace.ToObject(root, l.cljsNs), l.renderFn))).(listeners := []);
    var w5 := Emit(w4, Succeeded(url));
    CompleteSteps(w, url, Caller(name, None), server);
    assert Call(w5, Caller(name, None), server) == Normal(Emit(w5, Called(name)));
  }

  /** The asynchronous path of the app's main file: between the notification
      and the success report the waiter hands over the render function and
      removes itself. */
  lemma AsyncFinalEvalOrder(w: World, t: Task, server: Server, l: Listener, root: Value, name: string)
    requires w.chain == Fulfilled && w.listeners == [Registry.Entry(FinalEvalKey, l)]
    requires Served(server(t.url)) && ApplyTransform(t.transform, server(t.url).response.body).Some?
    requires t.onSuccess == Caller(name, None)
    requires Text.Contains(t.url, l.mainJs)
    requires NamespaceRoot(server(t.url).evaluation.global) == Some(root)
    requires Truthy(Namespace.ToObject(root, l.cljsNs))
    requires Truthy(Prop(Namespace.ToObject(root, l.cljsNs), l.renderFn))
    ensures var w' := Settle(w, t, server);
      && w'.trace == w.trace + [Fetching(t.url), Evaluated(t.url), Notified(t.url),
                                Loaded(Prop(Namespace.ToObject(root, l.cljsNs), l.renderFn)),
                                Succeeded(t.url), Called(name)]
      && w'.listeners == []
      && w'.chain == Fulfilled && w'.pending == w.pending
  {
    var sc := server(t.url);
    var w1 := Emit(w, Fetching(t.url));
    SettleDelivered(w, t, server);
    var w2 := Emit(w1.(global := sc.evaluation.global), Evaluated(t.url));
    FinalEvalCompletes(w2, t.url, server, l, root, name);
  }

  /** A success callback that throws on the asynchronous path: the error is
      reported and the error callback runs after it. */
  lemma AsyncSuccessThrowRunsError(w: World, t: Task, server: Server, name: string, reason: string, handler: string)
    requires w.chain == Fulfilled && Idle(w.listeners, t.url)
    requires Served(server(t.url)) && ApplyTransform(t.transform, server(t.url).response.body).Some?
    requires t.onSuccess == Caller(name, Some(reason)) && t.onError == Caller(handler, None)
    ensures var w' := Settle(w, t, server);
      && w'.trace == w.trace + [Fetching(t.url), Evaluated(t.url), Notified(t.url), Succeeded(t.url),
                                Called(name), Errored(t.url, CallerThrew(reason)), Called(handler)]
      && w'.chain == Fulfilled
  {
    var sc := server(t.url);
    var w1 := Emit(w, Fetching(t.url));
    SettleDelivered(w, t, server);
    var w2 := Emit(w1.(global := sc.evaluation.global), Evaluated(t.url));
    var w3 := Emit(w2, Notified(t.url));
    NotifyIdle(w2, t.url, server);
    var w4 := Emit(w3, Succeeded(t.url));
    var w5 := Emit(w4, Called(name));
    assert Complete(w2, t.url, t.onSuccess, server) == Threw(w5, CallerThrew(reason));
    var w6 := Emit(w5, Errored(t.url, CallerThrew(reason)));
    assert Call(w6, t.onError, server) == Normal(Emit(w6, Called(handler)));
    assert Catch(w5, t, CallerThrew(reason), server) == Emit(w6, Called(handler)).(chain := Fulfilled);
  }

  /** A listener that throws on the asynchronous path, for whichever of its
      checks fails once the script has run: the success callback is skipped,
      the listener's exception is reported, the error callback runs and the
      listener stays registered. */
  lemma AsyncListenerThrowRunsError(w: World, t: Task, server: Server, l: Listener, handler: string)
    requires w.chain == Fulfilled
    requires w.listeners == [Registry.Entry(FinalEvalKey, l)]
    requires Served(server(t.url)) && ApplyTransform(t.transform, server(t.url).response.body).Some?
    requires RunListener(w.(global := server(t.url).evaluation.global), l, t.url).Threw?
    requires t.onError == Caller(handler, None)
    ensures var w' := Settle(w, t, server);
      var f := RunListener(w.(global := server(t.url).evaluation.global), l, t.url).failure;
      && w'.trace == w.trace + [Fetching(t.url), Evaluated(t.url), Notified(t.url), Errored(t.url, f), Called(handler)]
      && w'.listeners == w.listeners
      && w'.chain == Fulfilled
  {
    var sc := server(t.url);
    var f := RunListener(w.(global := sc.evaluation.global), l, t.url).failure;
    var w1 := Emit(w, Fetching(t.url));
    SettleDelivered(w, t, server);
    var w2 := Emit(w1.(global := sc.evaluation.global), Evaluated(t.url));
    var w3 := Emit(w2, Notified(t.url));
    ListenerThrowReadsGlobal(w.(global := sc.evaluation.global), w3, l, t.url);
    NotifyWaiter(w2, l, t.url, server);
    CompleteSteps(w2, t.url, t.onSuccess, server);
    var w4 := Emit(w3, Errored(t.url, f));
    assert Call(w4, t.onError, server) == Normal(Emit(w4, Called(handler)));
  }

  /** The synchronous path when no listener waits for this file: the fetch,
      the evaluation, the notification, the success report and the success
      callback happen during the call itself, and nothing is queued. */
  lemma SyncSuccessOrder(w: World, src: string, server: Server, name: string)
    requires ImportScriptsAvailable(w.global) && Idle(w.listeners, src)
    requires Served(server(src))
    ensures var r := ImportJs(w, src, Some(Caller(name, None)), None, server);
      && r.Normal?
      && r.world.trace == w.trace + [Fetching(src), Evaluated(src), Notified(src), Succeeded(src), Called(name)]
      && r.world.pending == w.pending
  {
    var sc := server(src);
    var w1 := Emit(w, Fetching(src));
    var s := Caller(name, None);
    assert ImportJs(w, src, Some(s), None, server) == SyncLoaded(w1, src, sc, s, Noop, server);
    var w2 := Emit(w1.(global := sc.evaluation.global), Evaluated(src));
    var w3 := Emit(w2, Notified(src));
    NotifyIdle(w2, src, server);
    var w4 := Emit(w3, Succeeded(src));
    assert Complete(w2, src, s, server) == Call(w4, s, server);
    assert Call(w4, s, server) == Normal(Emit(w4, Called(name)));
  }

  /** The synchronous path of the app's main file: the waiter hands over the
      render function and removes itself before `success` is reported. */
  lemma SyncFinalEvalOrder(w: World, src: string, server: Server, l: Listener, root: Value, name: string)
    requires ImportScriptsAvailable(w.global) && w.listeners == [Registry.Entry(FinalEvalKey, l)]
    requires Served(server(src))
    requires Text.Contains(src, l.mainJs)
    requires NamespaceRoot(server(src).evaluation.global) == Some(root)
    requires Truthy(Namespace.ToObject(root, l.cljsNs))
    requires Truthy(Prop(Namespace.ToObject(root, l.cljsNs), l.renderFn))
    ensures var r := ImportJs(w, src, Some(Caller(name, None)), None, server);
      && r.Normal?
      && r.world.trace == w.trace + [Fetching(src), Evaluated(src), Notified(src),
                                     Loaded(Prop(Namespace.ToObject(root, l.cljsNs), l.renderFn)),
                                     Succeeded(src), Called(name)]
      && r.world.listeners == [] && r.world.pending == w.pending
  {
    var sc := server(src);
    var w1 := Emit(w, Fetching(src));
    var s := Caller(name, None);
    ImportJsDelivered(w, src, Some(s), None, server);
    var w2 := Emit(w1.(global := sc.evaluation.global), Evaluated(src));
    FinalEvalCompletes(w2, src, server, l, root, name);
  }

  /** A synchronous load that fails, because the script does not arrive or
      because it throws while it runs: the error is reported, the error
      callback runs, the success callback does not, and the call returns
      normally. */
  lemma SyncFailureRunsError(w: World, src: string, server: Server, name: string, handler: string)
    requires ImportScriptsAvailable(w.global)
    requires !Served(server(src))
    ensures var r := ImportJs(w, src, Some(Caller(name, None)), Some(Caller(handler, None)), server);
      && r.Normal?
      && r.world.trace == w.trace + [Fetching(src), Errored(src, SyncFailure(server(src))), Called(handler)]
      && r.world.global == w.global
  {
    var w1 := Emit(w, Fetching(src));
    var e := Caller(handler, None);
    assert ImportJs(w, src, Some(Caller(name, None)), Some(e), server)
        == SyncLoaded(w1, src, server(src), Caller(name, None), e, server);
    var w2 := Emit(w1, Errored(src, SyncFailure(server(src))));
    assert SyncLoaded(w1, src, server(src), Caller(name, None), e, server) == Call(w2, e, server);
  }

  /** Arguments that are not functions become no-ops. */
  lemma MissingCallbacksAreNoops(w: World, src: string, server: Server)
    ensures ImportJs(w, src, None, None, server) == ImportJs(w, src, Some(Noop), Some(Noop), server)
  {
  }

  // ---------------------------------------------------------------------
  // The final-eval listener
  // ---------------------------------------------------------------------

  /** The waiter delivers the render function and removes itself exactly
      when the URL names its namespace's file and the namespace and its
      render function both exist. */
  lemma FinalEvalFiresWhenReady(w: World, l: Listener, url: string, root: Value)
    requires Text.Contains(url, l.mainJs)
    requires NamespaceRoot(w.global) == Some(root)
    requires Truthy(Namespace.ToObject(root, l.cljsNs))
    requires Truthy(Prop(Namespace.ToObject(root, l.cljsNs), l.renderFn))
    ensures var r := RunListener(w, l, url);
      && r.Normal?
      && r.world.trace == w.trace + [Loaded(Prop(Namespace.ToObject(root, l.cljsNs), l.renderFn))]
      && r.world.listeners == Registry.Unregister(w.listeners, FinalEvalKey)
  {
  }

  /** A missing namespace throws with its name and keeps the waiter. */
  lemma FinalEvalMissingNamespace(w: World, l: Listener, url: string, root: Value)
    requires Text.Contains(url, l.mainJs)
    requires NamespaceRoot(w.global) == Some(root)
    requires !Truthy(Namespace.ToObject(root, l.cljsNs))
    ensures RunListener(w, l, url) == Threw(w, Thrown("ClojureScript Namespace " + l.cljsNs + " not found."))
  {
  }

  /** A missing render function throws with its name and keeps the waiter. */
  lemma FinalEvalMissingRender(w: World, l: Listener, url: string, root: Value)
    requires Text.Contains(url, l.mainJs)
    requires NamespaceRoot(w.global) == Some(root)
    requires Truthy(Namespace.ToObject(root, l.cljsNs))
    requires !Truthy(Prop(Namespace.ToObject(root, l.cljsNs), l.renderFn))
    ensures RunListener(w, l, url) == Threw(w, Thrown("Render function " + l.renderFn + " not found."))
  {
  }

  // ---------------------------------------------------------------------
  // Overlapping bootstraps
  // ---------------------------------------------------------------------

  /** Unless a synchronous import of `goog/base.js` has already run it,
      `loadApp` leaves its waiter registered under `waitForFinalEval`,
      whatever the table held before. */
  lemma LoadAppRegistersWaiter(w: World, c: Config.LoadConfig, server: Server)
    requires !(GoogUndefined(w.global) && ImportScriptsAvailable(w.global))
    ensures Registry.Lookup(LoadApp(w, c, server).world.listeners, FinalEvalKey)
         == Some(WaitForFinalEval(Namespace.ToPath(c.cljsNs), c.cljsNs, c.renderFn))
  {
    Registry.RegisterFinds(w.listeners, FinalEvalKey, WaitForFinalEval(Namespace.ToPath(c.cljsNs), c.cljsNs, c.renderFn));
  }

  /** Once `goog` exists, `loadApp` only (re)registers its waiter. Two
      calls leave one waiter, the second one's: the first bootstrap's
      callback can no longer be reached. */
  lemma SecondLoadAppReplacesWaiter(w: World, c1: Config.LoadConfig, c2: Config.LoadConfig, server: Server)
    requires !GoogUndefined(w.global)
    requires Registry.KeysDistinct(w.listeners)
    ensures var w2 := LoadApp(LoadApp(w, c1, server).world, c2, server).world;
      && Registry.Lookup(w2.listeners, FinalEvalKey)
           == Some(WaitForFinalEval(Namespace.ToPath(c2.cljsNs), c2.cljsNs, c2.renderFn))
      && |w2.listeners| == |LoadApp(w, c2, server).world.listeners|
      && w2.trace == w.trace && w2.pending == w.pending
  {
    var l1 := WaitForFinalEval(Namespace.ToPath(c1.cljsNs), c1.cljsNs, c1.renderFn);
    var l2 := WaitForFinalEval(Namespace.ToPath(c2.cljsNs), c2.cljsNs, c2.renderFn);
    Registry.RegisterReplaces(w.listeners, FinalEvalKey, l1, l2);
    Registry.RegisterLookup(w.listeners, FinalEvalKey, l2, FinalEvalKey);
  }

  /** The same overlap on the path the app takes, where `goog` is still
      undefined and imports are queued: the second call leaves the second
      waiter alone in the table, records nothing, and each call has queued
      its own `goog/base.js`. */
  lemma QueuedSecondLoadAppReplacesWaiter(w: World, c1: Config.LoadConfig, c2: Config.LoadConfig, server: Server)
    requires GoogUndefined(w.global) && !ImportScriptsAvailable(w.global)
    ensures var w2 := LoadApp(LoadApp(w, c1, server).world, c2, server).world;
      && Registry.Lookup(w2.listeners, FinalEvalKey)
           == Some(WaitForFinalEval(Namespace.ToPath(c2.cljsNs), c2.cljsNs, c2.renderFn))
      && w2.listeners == LoadApp(w, c2, server).world.listeners
      && w2.trace == w.trace
      && |w2.pending| == |w.pending| + 2
  {
    var l1 := WaitForFinalEval(Namespace.ToPath(c1.cljsNs), c1.cljsNs, c1.renderFn);
    var l2 := WaitForFinalEval(Namespace.ToPath(c2.cljsNs), c2.cljsNs, c2.renderFn);
    Registry.RegisterReplaces(w.listeners, FinalEvalKey, l1, l2);
    Registry.RegisterFinds(w.listeners, FinalEvalKey, l2);
  }
}
