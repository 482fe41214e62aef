/** `loadApp`'s four stages: `goog/base.js`, `cljs_deps.js`, `goog/deps.js`
    and `index.js`, each started from the previous one's success callback.
    The invariant `Staged` holds of a world where only this bootstrap runs:
    every pending task is a stage whose predecessor has already succeeded,
    and every fetch of a later stage came after the earlier stage's success.
    Every operation of the loader keeps it, whether an import runs through
    `importScripts` or through the chain, and however the server answers. */
module Bootstrap {
  import opened Wrappers
  import opened JsValue
  import opened Loader
  import LoaderProofs
  import Config
  import Registry
  import Namespace

  /** The file of stage `k`, relative to the base URL. */
  function StageFile(k: nat): string
    requires k < 4
  {
    if k == 0 then "/goog/base.js"
    else if k == 1 then "/cljs_deps.js"
    else if k == 2 then "/goog/deps.js"
    else "/index.js"
  }

  function StageUrl(base: string, k: nat): string
    requires k < 4
  {
    base + StageFile(k)
  }

  /** The success callback stage `k` is imported with. */
  function Continuation(base: string, k: nat): Callback
    requires k < 4
  {
    if k == 0 then AfterBase(base)
    else if k == 1 then AfterCljsDeps(base)
    else if k == 2 then AfterGoogDeps(base)
    else Noop
  }

  /** The chain task stage `k` is queued as when it goes through the chain. */
  function StageTask(base: string, k: nat): Task
    requires k < 4
  {
    Task(StageUrl(base, k), if k == 3 then KeepDirectives else Identity, Continuation(base, k), Noop)
  }

  /** The four stage URLs below one base are pairwise different. */
  lemma StageUrlsDistinct(base: string, j: nat, k: nat)
    requires j < 4 && k < 4 && j != k
    ensures StageUrl(base, j) != StageUrl(base, k)
  {
    assert StageUrl(base, j)[|base|..] == StageFile(j);
    assert StageUrl(base, k)[|base|..] == StageFile(k);
    assert |StageFile(j)| != |StageFile(k)| || StageFile(j)[1] != StageFile(k)[1] || StageFile(j)[6] != StageFile(k)[6];
  }

  /** Stage `k` may start: it is the first, or its predecessor succeeded. */
  predicate Began(h: seq<Event>, base: string, k: nat)
    requires k < 4
  {
    k == 0 || Succeeded(StageUrl(base, k - 1)) in h
  }

  /** Recording `e` after history `h` respects the stage order. */
  predicate StageOrdered(h: seq<Event>, e: Event, base: string) {
    && (e == Fetching(StageUrl(base, 1)) ==> Began(h, base, 1))
    && (e == Fetching(StageUrl(base, 2)) ==> Began(h, base, 2))
    && (e == Fetching(StageUrl(base, 3)) ==> Began(h, base, 3))
  }

  predicate Ordered(trace: seq<Event>, base: string) {
    forall i :: 0 <= i < |trace| ==> StageOrdered(trace[..i], trace[i], base)
  }

  /** Which stage `t` is, or 4 when it is none of them. */
  function StageOf(t: Task, base: string): (k: nat)
    ensures k <= 4 && (k < 4 ==> t == StageTask(base, k))
  {
    if t == StageTask(base, 0) then 0
    else if t == StageTask(base, 1) then 1
    else if t == StageTask(base, 2) then 2
    else if t == StageTask(base, 3) then 3
    else 4
  }

  /** A pending task is a stage that may start. */
  predicate Queued(t: Task, trace: seq<Event>, base: string) {
    StageOf(t, base) < 4 && Began(trace, base, StageOf(t, base))
  }

  predicate Staged(w: World, base: string) {
    && Ordered(w.trace, base)
    && forall i :: 0 <= i < |w.pending| ==> Queued(w.pending[i], w.trace, base)
  }

  /** A callback that is about to run: none, or the continuation of a stage
      that has succeeded. */
  predicate Ready(cb: Callback, trace: seq<Event>, base: string) {
    cb == Noop || exists k :: 0 <= k < 3 && cb == Continuation(base, k) && Succeeded(StageUrl(base, k)) in trace
  }

  // ---------------------------------------------------------------------
  // Keeping the invariant over small changes
  // ---------------------------------------------------------------------

  lemma BeganGrows(h: seq<Event>, h': seq<Event>, base: string, k: nat)
    requires k < 4 && h <= h'
    ensures Began(h, base, k) ==> Began(h', base, k)
  {
    if k > 0 {
      InExtension(h, h', Succeeded(StageUrl(base, k - 1)));
    }
  }

  lemma OrderedAppend(h: seq<Event>, e: Event, base: string)
    requires Ordered(h, base) && StageOrdered(h, e, base)
    ensures Ordered(h + [e], base)
  {
    forall i | 0 <= i < |h + [e]|
      ensures StageOrdered((h + [e])[..i], (h + [e])[i], base)
    {
      if i < |h| {
        assert (h + [e])[..i] == h[..i];
      } else {
        assert (h + [e])[..i] == h;
      }
    }
  }

  /** A longer ordered trace and the same pending tasks plus new stages that
      may start keep the invariant. */
  lemma StagedExtend(w: World, w': World, base: string)
    requires Staged(w, base)
    requires w.trace <= w'.trace && Ordered(w'.trace, base)
    requires w.pending <= w'.pending
    requires forall i :: |w.pending| <= i < |w'.pending| ==> Queued(w'.pending[i], w'.trace, base)
    ensures Staged(w', base)
  {
    forall i | 0 <= i < |w.pending|
      ensures Queued(w'.pending[i], w'.trace, base)
    {
      BeganGrows(w.trace, w'.trace, base, StageOf(w.pending[i], base));
    }
  }

  /** Recording an event that respects the stage order keeps the invariant. */
  lemma StagedEmit(w: World, e: Event, base: string)
    requires Staged(w, base) && StageOrdered(w.trace, e, base)
    ensures Staged(Emit(w, e), base)
  {
    OrderedAppend(w.trace, e, base);
    StagedExtend(w, Emit(w, e), base);
  }

  /** A fetch of stage `k` once it may start respects the stage order. */
  lemma FetchOrdered(h: seq<Event>, base: string, k: nat)
    requires k < 4 && Began(h, base, k)
    ensures StageOrdered(h, Fetching(StageUrl(base, k)), base)
  {
    if k != 1 { StageUrlsDistinct(base, k, 1); }
    if k != 2 { StageUrlsDistinct(base, k, 2); }
    if k != 3 { StageUrlsDistinct(base, k, 3); }
  }

  /** What listeners do keeps the invariant. */
  lemma StagedListener(w: World, w': World, base: string)
    requires Staged(w, base) && ListenerEffect(w, w')
    ensures Staged(w', base)
  {
    forall i | 0 <= i < |w'.trace|
      ensures StageOrdered(w'.trace[..i], w'.trace[i], base)
    {
      if i < |w.trace| {
        assert w'.trace[..i] == w.trace[..i];
        assert w'.trace[i] == w.trace[i];
      } else {
        assert w'.trace[i].Loaded?;
      }
    }
    StagedExtend(w, w', base);
  }

  // ---------------------------------------------------------------------
  // Every operation keeps the invariant
  // ---------------------------------------------------------------------

  lemma {:induction false} CallStaged(w: World, cb: Callback, server: Server, base: string)
    requires Staged(w, base) && Ready(cb, w.trace, base)
    ensures Staged(Call(w, cb, server).world, base)
    decreases Rank(cb), 0
  {
    if cb != Noop {
      var k :| 0 <= k < 3 && cb == Continuation(base, k) && Succeeded(StageUrl(base, k)) in w.trace;
      if k == 0 {
        if !ShimThrows(w.global) {
          assert Call(w, cb, server) == ImportJs(w, StageUrl(base, 1), Some(Continuation(base, 1)), None, server);
          ImportJsStaged(w, 1, server, base);
        }
      } else if k == 1 {
        assert Call(w, cb, server) == ImportJs(w, StageUrl(base, 2), Some(Continuation(base, 2)), None, server);
        ImportJsStaged(w, 2, server, base);
      } else {
        var w' := ImportIndexJs(w, base);
        assert Call(w, cb, server) == Normal(w');
        assert w'.pending[|w.pending|] == StageTask(base, 3);
        StagedExtend(w, w', base);
      }
    }
  }

  lemma {:induction false} ImportJsStaged(w: World, k: nat, server: Server, base: string)
    requires k < 3 && Staged(w, base) && Began(w.trace, base, k)
    ensures Staged(ImportJs(w, StageUrl(base, k), Some(Continuation(base, k)), None, server).world, base)
    decreases 3 - k, 4
  {
    if ImportScriptsAvailable(w.global) {
      SyncImportStaged(w, k, server, base);
    } else {
      var w' := ImportJs(w, StageUrl(base, k), Some(Continuation(base, k)), None, server).world;
      assert w'.pending[|w.pending|] == StageTask(base, k);
      StagedExtend(w, w', base);
    }
  }

  lemma {:induction false} SyncImportStaged(w: World, k: nat, server: Server, base: string)
    requires k < 3 && Staged(w, base) && Began(w.trace, base, k)
    ensures Staged(SyncImport(w, StageUrl(base, k), Continuation(base, k), Noop, server).world, base)
    decreases 3 - k, 3
  {
    var url := StageUrl(base, k);
    FetchOrdered(w.trace, base, k);
    StagedEmit(w, Fetching(url), base);
    SyncLoadedStaged(Emit(w, Fetching(url)), k, server(url), server, base);
  }

  lemma {:induction false} SyncLoadedStaged(w: World, k: nat, sc: Script, server: Server, base: string)
    requires k < 3 && Staged(w, base)
    ensures Staged(SyncLoaded(w, StageUrl(base, k), sc, Continuation(base, k), Noop, server).world, base)
    decreases 3 - k, 2
  {
    var url := StageUrl(base, k);
    if !sc.response.Response? || !sc.response.ok {
      StagedEmit(w, Errored(url, ImportScriptsThrew), base);
    } else if sc.evaluation.Throws? {
      StagedEmit(w, Errored(url, EvalThrew(sc.evaluation.reason)), base);
    } else {
      var w1 := w.(global := sc.evaluation.global);
      StagedEmit(w1, Evaluated(url), base);
      var w2 := Emit(w1, Evaluated(url));
      CompleteStaged(w2, url, Continuation(base, k), server, base);
      var c := Complete(w2, url, Continuation(base, k), server);
      if c.Threw? {
        StagedEmit(c.world, Errored(url, c.failure), base);
      }
    }
  }

  lemma {:induction false} CompleteStaged(w: World, url: string, cb: Callback, server: Server, base: string)
    requires Staged(w, base)
    requires cb == Noop || exists k :: 0 <= k < 3 && cb == Continuation(base, k) && url == StageUrl(base, k)
    ensures Staged(Complete(w, url, cb, server).world, base)
    decreases Rank(cb), 1
  {
    StagedEmit(w, Notified(url), base);
    var n := Notify(w, url, server);
    StagedListener(Emit(w, Notified(url)), n.world, base);
    if n.Normal? {
      StagedEmit(n.world, Succeeded(url), base);
      var w2 := Emit(n.world, Succeeded(url));
      assert Ready(cb, w2.trace, base);
      CallStaged(w2, cb, server, base);
    }
  }

  lemma CatchStaged(w: World, t: Task, f: Failure, server: Server, base: string)
    requires Staged(w, base) && t.onError == Noop
    ensures Staged(Catch(w, t, f, server), base)
  {
    StagedEmit(w, Errored(t.url, f), base);
  }

  lemma FetchedStaged(w: World, k: nat, sc: Script, server: Server, base: string)
    requires k < 4 && Staged(w, base)
    ensures Staged(Fetched(w, StageTask(base, k), sc, server), base)
  {
    var t := StageTask(base, k);
    if sc.response.NetworkError? {
      CatchStaged(w, t, FetchRejected(sc.response.reason), server, base);
    } else if !sc.response.ok {
      CatchStaged(w, t, Thrown(FailedToFetch(t.url)), server, base);
    } else if ApplyTransform(t.transform, sc.response.body).None? {
      CatchStaged(w, t, TransformThrew, server, base);
    } else if sc.evaluation.Throws? {
      CatchStaged(w, t, EvalThrew(sc.evaluation.reason), server, base);
    } else {
      var w1 := w.(global := sc.evaluation.global);
      StagedEmit(w1, Evaluated(t.url), base);
      var w2 := Emit(w1, Evaluated(t.url));
      CompleteStaged(w2, t.url, t.onSuccess, server, base);
      var c := Complete(w2, t.url, t.onSuccess, server);
      if c.Threw? {
        CatchStaged(c.world, t, c.failure, server, base);
      }
    }
  }

  lemma SettleStaged(w: World, k: nat, server: Server, base: string)
    requires k < 4 && Staged(w, base) && Began(w.trace, base, k)
    ensures Staged(Settle(w, StageTask(base, k), server), base)
  {
    var t := StageTask(base, k);
    match w.chain
    case Rejected(f) =>
      CatchStaged(w, t, f, server, base);
    case Fulfilled =>
      FetchOrdered(w.trace, base, k);
      StagedEmit(w, Fetching(t.url), base);
      FetchedStaged(Emit(w, Fetching(t.url)), k, server(t.url), server, base);
  }

  lemma StepStaged(w: World, server: Server, base: string)
    requires |w.pending| > 0 && Staged(w, base)
    ensures Staged(Step(w, server), base)
  {
    var d := Dequeue(w);
    assert Staged(d, base) by {
      forall i | 0 <= i < |d.pending|
        ensures Queued(d.pending[i], d.trace, base)
      {
        assert d.pending[i] == w.pending[i + 1];
      }
    }
    assert Queued(w.pending[0], w.trace, base);
    SettleStaged(d, StageOf(w.pending[0], base), server, base);
  }

  /** `Run`, carrying the invariant from step to step. */
  ghost function StagedRun(w: World, server: Server, fuel: nat, base: string): (w': World)
    requires Staged(w, base)
    ensures w' == Run(w, server, fuel) && Staged(w', base)
    decreases fuel
  {
    if fuel == 0 || |w.pending| == 0 then w
    else
      StepStaged(w, server, base);
      StagedRun(Step(w, server), server, fuel - 1, base)
  }

  lemma RunStaged(w: World, server: Server, fuel: nat, base: string)
    requires Staged(w, base)
    ensures Staged(Run(w, server, fuel), base)
  {
    var r := StagedRun(w, server, fuel, base);
  }

  /** The base URL `loadApp` derives from its configuration and the global
      object. */
  function BaseOf(g: Value, c: Config.LoadConfig): string {
    Config.ServerBaseUrl(c, ImportScriptsAvailable(g))
  }

  lemma LoadAppStaged(w: World, c: Config.LoadConfig, server: Server)
    requires Staged(w, BaseOf(w.global, c))
    ensures Staged(LoadApp(w, c, server).world, BaseOf(w.global, c))
  {
    var base := BaseOf(w.global, c);
    var w1 := w.(listeners := Registry.Register(w.listeners, FinalEvalKey,
                   WaitForFinalEval(Namespace.ToPath(c.cljsNs), c.cljsNs, c.renderFn)));
    if GoogUndefined(w1.global) {
      ImportJsStaged(w1, 0, server, base);
    }
  }

  // ---------------------------------------------------------------------
  // The stage order of one bootstrap
  // ---------------------------------------------------------------------

  /** The world after `loadApp` on a fresh page and `fuel` settled tasks. */
  function Boot(g: Value, c: Config.LoadConfig, server: Server, fuel: nat): World {
    Run(LoadApp(Fresh(g), c, server).world, server, fuel)
  }

  lemma {:induction false} BootStaged(g: Value, c: Config.LoadConfig, server: Server, fuel: nat)
    ensures Staged(Boot(g, c, server, fuel), BaseOf(g, c))
    ensures Sound(Boot(g, c, server, fuel).trace, server)
  {
    LoadAppStaged(Fresh(g), c, server);
    RunStaged(LoadApp(Fresh(g), c, server).world, server, fuel, BaseOf(g, c));
  }

  /** A fetch of stage `k` in an ordered trace comes after stage `k - 1`
      succeeded. */
  lemma FetchAfterPredecessor(t: seq<Event>, base: string, k: nat)
    requires 1 <= k < 4 && Ordered(t, base)
    ensures Fetching(StageUrl(base, k)) in t ==> Succeeded(StageUrl(base, k - 1)) in t
  {
    if Fetching(StageUrl(base, k)) in t {
      var i :| 0 <= i < |t| && t[i] == Fetching(StageUrl(base, k));
      assert StageOrdered(t[..i], t[i], base);
      assert Began(t[..i], base, k);
      InExtension(t[..i], t, Succeeded(StageUrl(base, k - 1)));
    }
  }

  lemma FetchAtAfterPredecessor(t: seq<Event>, base: string, i: nat, k: nat)
    requires 1 <= k < 4 && i < |t| && Ordered(t, base)
    requires t[i] == Fetching(StageUrl(base, k))
    ensures Succeeded(StageUrl(base, k - 1)) in t[..i]
  {
    assert StageOrdered(t[..i], t[i], base);
    assert Began(t[..i], base, k);
  }

  /** Each stage is fetched only after the previous stage's script was
      evaluated, the listeners heard of it and its success callback ran. */
  lemma StagesStartInOrder(g: Value, c: Config.LoadConfig, server: Server, fuel: nat, k: nat)
    requires 1 <= k < 4
    ensures var t := Boot(g, c, server, fuel).trace;
      forall i :: 0 <= i < |t| && t[i] == Fetching(StageUrl(BaseOf(g, c), k)) ==>
        Succeeded(StageUrl(BaseOf(g, c), k - 1)) in t[..i]
  {
    var t := Boot(g, c, server, fuel).trace;
    BootStaged(g, c, server, fuel);
    forall i | 0 <= i < |t| && t[i] == Fetching(StageUrl(BaseOf(g, c), k))
      ensures Succeeded(StageUrl(BaseOf(g, c), k - 1)) in t[..i]
    {
      FetchAtAfterPredecessor(t, BaseOf(g, c), i, k);
    }
  }

  lemma {:induction false} NoFetchAfterFailure(t: seq<Event>, server: Server, base: string, k: nat, j: nat)
    requires k < j < 4
    requires Sound(t, server) && Ordered(t, base)
    requires !Served(server(StageUrl(base, k)))
    ensures Fetching(StageUrl(base, j)) !in t
    decreases j
  {
    if j - 1 > k {
      NoFetchAfterFailure(t, server, base, k, j - 1);
    }
    LoaderProofs.SucceededIsBacked(t, server, StageUrl(base, j - 1));
    FetchAfterPredecessor(t, base, j);
  }

  /** A stage whose script is not delivered, or throws when evaluated, stops
      the bootstrap: no later stage is ever fetched. */
  lemma FailedStageStopsLaterStages(g: Value, c: Config.LoadConfig, server: Server, fuel: nat, k: nat, j: nat)
    requires k < j < 4
    requires !Served(server(StageUrl(BaseOf(g, c), k)))
    ensures Fetching(StageUrl(BaseOf(g, c), j)) !in Boot(g, c, server, fuel).trace
  {
    BootStaged(g, c, server, fuel);
    NoFetchAfterFailure(Boot(g, c, server, fuel).trace, server, BaseOf(g, c), k, j);
  }
}
