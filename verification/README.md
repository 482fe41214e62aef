# figwheel-bridge, modelled in Dafny

A model of `figwheel-bridge.js`, the loader that boots a ClojureScript app
inside React Native during development. The bridge works as follows:

- It merges the caller's options with defaults and type-checks them.
- It derives the base URL scripts are fetched from.
- It registers an eval listener under the key `waitForFinalEval`. The
  listener waits for the app's main namespace file and then hands the
  render function to `loadApp`'s callback.
- It loads four stages in turn: `goog/base.js`, `cljs_deps.js`,
  `goog/deps.js` and `index.js`. Each stage is started from the success
  callback of the one before.
- An import runs synchronously through `importScripts` when that exists.
  Otherwise it goes on one process-wide promise chain that serialises
  every fetch, evaluation, listener notification and callback.
- The fetched `index.js` is rewritten before evaluation. Only the first
  closure-defines statement and the `goog.require(...)` statements are kept.

Modules, in dependency order:

| module | file | what it holds |
|---|---|---|
| `Wrappers` | wrappers.dfy | `Option`, `Result`, `Outcome` |
| `JsValue` | jsvalue.dfy | JavaScript values, truthiness, `typeof`, property reads |
| `Text` | text.dfy | the string built-ins: `indexOf`, `replace` with a non-global pattern, `split`/`join`, number-to-string |
| `Namespace` | namespace.dfy | `cljsNamespaceParts`, `cljsNamespaceToPath`, `cljsNamespaceToObject` |
| `Config` | config.dfy | `startApp`'s defaults merge, `validateOptions`/`assertKeyType`, `serverBaseUrl` |
| `IndexJs` | indexjs.dfy | the two regular expressions of `importIndexJs` as a scanner, and the transform |
| `Registry` | registry.dfy | the eval-listener table, in insertion order |
| `Loader` | loader.dfy | the world state machine: the chain as a FIFO queue, the sync path, `importJs`, the listeners, `loadApp` |
| `LoaderProofs` | loader_proofs.dfy | ordering, error-path and listener properties of the loader |
| `Bootstrap` | bootstrap.dfy | the stage order of `loadApp`, as an invariant of every reachable world |
| `BootstrapProgress` | bootstrap_progress.dfy | that a bootstrap whose stages are all delivered loads all four of them, with and without `importScripts` |

The network and script evaluation are inputs. A `Server` maps each URL to
one of three results:

- a rejected fetch;
- a response with its `ok` flag and body;
- a delivered script, whose evaluation either throws or leaves a new global
  object behind.

Callbacks are data. `Caller(name, throws)` stands for code outside the model
that returns or throws. The three stage continuations are written out.

The asynchronous chain is a queue of pending tasks plus the chain's settled
state, `Fulfilled` or `Rejected`. `Step` settles the oldest task exactly as the
`.then(...).catch(...)` links do:

- A task on a rejected chain skips its fetch and goes to its own `catch`.
- A `catch` whose `error()` returns leaves the chain fulfilled.
- One whose `error()` throws leaves the chain rejected.

Every observable action is appended to a trace of events.

## Model

| member | source | states |
|---|---|---|
| Text.IndexOf | figwheel-bridge.js:177 | `indexOf` is -1 exactly when the text does not occur; otherwise it is the first position where it occurs |
| Text.ReplaceFirst | figwheel-bridge.js:147 | a non-global `replace` changes only the first occurrence of the character and keeps the length |
| Text.JoinSplit | figwheel-bridge.js:147 | joining what `split` produced with the same separator gives the text back |
| Text.SplitJoin | figwheel-bridge.js:147 | splitting a join of separator-free parts gives the parts back |
| Text.IntToStringRoundTrip | figwheel-bridge.js:162 | the port's decimal rendering in the base URL reads back as the same number |
| Namespace.PartsShape | figwheel-bridge.js:146-148 | a namespace has one part more than it has dots, no part holds a dot, and rejoining with dots gives the name with its first `-` turned into `_` |
| Namespace.RejoinIffNoDash | figwheel-bridge.js:146-148 | rejoining a name's segments with dots gives the name back exactly when it has no `-`, because line 147 rewrites the first `-` |
| Namespace.PartsRoundTrip | figwheel-bridge.js:146-148 | splitting a dotted name built from dot- and dash-free segments gives back those segments |
| Namespace.ToPathIsRewrite | figwheel-bridge.js:150-152 | the file path is the name with its first `-` turned into `_`, every `.` turned into `/`, and `.js` appended |
| Namespace.ReduceIsWalk | figwheel-bridge.js:154-158 | the `reduce` is a front-to-back path lookup that stops at the first falsy value |
| Namespace.AbsentStaysAbsent | figwheel-bridge.js:154-158 | once a prefix of the path resolves to a falsy value, the whole lookup yields that same value |
| Namespace.PresentIffEveryPrefix | figwheel-bridge.js:154-158 | the namespace object is present exactly when every prefix of its path resolves to a truthy value |
| Config.Merge | figwheel-bridge.js:218-222 | the merged config has the defaults' keys and the caller's; every key the caller gives keeps the caller's value, and the defaults fill the rest |
| Config.FirstFailure | figwheel-bridge.js:203-215 | validation passes exactly when every check passes; a failure names the first failing check, and every check before it passed |
| Config.Start | figwheel-bridge.js:217-223 | `startApp` accepts its options exactly when the merged config is well-typed |
| Config.StartUsesDefaults | figwheel-bridge.js:217-223 | an accepted config carries the caller's values, with `goog/`, 8081, `localhost` and `figwheel_rn_root` for keys the caller omitted |
| Config.StartReportsFirstMistyped | figwheel-bridge.js:207-215 | a refusal is "`<key>` must be a `<type>`" for the first key, in the fixed order, whose type is wrong |
| Config.MissingAppNameRefused | figwheel-bridge.js:207-215 | without `appName`, and with the two earlier keys well-typed, `startApp` fails with "appName must be a string" |
| Config.BaseUrlRoundTrip | figwheel-bridge.js:160-163 | the base URL reads back as host, port and output directory; the host is `localhost` whenever `importScripts` exists and `devHost` otherwise |
| IndexJs.Exec | figwheel-bridge.js:136 | a non-global match finds the leftmost position at or after the start where the pattern matches, or reports that none exists |
| IndexJs.FindAll | figwheel-bridge.js:137 | every span a global match returns is a match, within the code, and the spans are in order without overlap |
| IndexJs.FindAllComplete | figwheel-bridge.js:137 | every position where a match starts lies inside some returned span |
| IndexJs.TransformFailsIffNoDefines | figwheel-bridge.js:135-140 | the transform throws exactly when the code holds no defines statement |
| IndexJs.TransformWithoutRequires | figwheel-bridge.js:137-138 | with no `goog.require(...)` match the output is the defines statement alone |
| IndexJs.TransformShape | figwheel-bridge.js:135-140 | the output is the first defines fragment followed by every require fragment in source order, each fragment having the pattern's shape |
| Registry.Register | figwheel-bridge.js:176 | assigning a key adds it to the keys and keeps them distinct; an existing key's entry is replaced where it stands and every other entry stays as and where it was; a new key is appended at the end |
| Registry.RegisterFinds | figwheel-bridge.js:176 | after assigning a key, looking it up gives the new listener, whatever the table held before |
| Registry.RegisterLookup | figwheel-bridge.js:176 | after assigning, the key holds the new listener and every other key holds what it held before |
| Registry.Unregister | figwheel-bridge.js:183 | `delete` removes exactly the key from the key set, keeps the keys distinct, never grows the table, and leaves a table without the key unchanged |
| Registry.UnregisterLookup | figwheel-bridge.js:183 | after `delete`, the key is absent and every other key is untouched |
| Registry.UnregisterTwice | figwheel-bridge.js:183 | deleting a key that is already gone changes nothing |
| Registry.RegisterReplaces | figwheel-bridge.js:176 | assigning one key twice is the same as assigning the second listener once |
| Registry.RegisterUnregister | figwheel-bridge.js:176 | assigning a fresh key and deleting it again restores the table |
| Loader.RunListener | figwheel-bridge.js:176-185 | the final-eval listener ignores URLs that do not contain the main file; a throw leaves everything unchanged; acting hands over the truthy render function and removes the listener |
| Loader.Notify | figwheel-bridge.js:19-23 | notifying records the URL; the listeners only hand over render functions, and the table afterwards is either unchanged or the old one with `waitForFinalEval` deleted |
| Loader.Call | figwheel-bridge.js:186-199 | a no-op changes nothing; a callback of outside code records its call and throws exactly when it is said to; `goog/base.js`'s continuation throws when `goog` cannot take the shim; every callback only extends the world |
| Loader.SyncImport | figwheel-bridge.js:95-105 | `syncImportScripts` fetches first; a delivered script is then evaluated and announced, while a script that does not arrive or throws has its failure (the load error, or the script's own exception) reported right after the fetch |
| Loader.ImportJs | figwheel-bridge.js:108-119 | without `importScripts` the import queues one task with no-ops for missing callbacks and does nothing else yet; with it, the fetch happens during the call |
| Loader.ImportIndexJs | figwheel-bridge.js:133-144 | `index.js` always goes through the chain, with the directive rewrite and no-op callbacks |
| Loader.Settle | figwheel-bridge.js:74-92 | on a rejected chain the settled task's `catch` reports the carried failure before anything else; on a fulfilled chain the fetch comes first, followed by the evaluation and notification, or by the failure |
| Loader.Fetched | figwheel-bridge.js:77-92 | after the fetch, a script that arrives, passes the rewrite and runs is evaluated and announced at once; otherwise the `catch` reports the rejected fetch, the "Failed to Fetch" error, the rewrite's exception or the script's own, checked in that order, before anything else |
| Loader.Catch | figwheel-bridge.js:88-92 | a `catch` records the failure before anything else it does, and it only extends the world |
| Loader.Step | figwheel-bridge.js:74-92 | settling a task moves exactly the oldest task to the settled list, keeps the other tasks queued in front of any new ones, and never backs a success without its fetch |
| Loader.GrowsInOrder | figwheel-bridge.js:74-75 | appending to the chain keeps every queued task either settled or waiting, settled ones first in queue order |
| Loader.Run | figwheel-bridge.js:72-93 | a run only extends the trace, settles tasks in the order they were queued, and keeps every recorded evaluation and success backed by a delivered fetch |
| Loader.LoadApp | figwheel-bridge.js:171-201 | `loadApp` registers its waiter under `waitForFinalEval`; with `goog` defined it does nothing else; without `goog` and `importScripts` it queues `goog/base.js` with the shim continuation and records nothing; with `importScripts` the fetch of `goog/base.js` happens during the call; it only extends the world and keeps every recorded evaluation backed by a delivered fetch |
| LoaderProofs.SettlesInQueueOrder | figwheel-bridge.js:74-92 | the i-th settled task is the i-th queued one |
| LoaderProofs.QuietErrorKeepsChain | figwheel-bridge.js:88-92 | whatever happens to a task, the chain stays fulfilled when its `error` does not throw |
| LoaderProofs.FailedTaskDoesNotBlockNext | figwheel-bridge.js:74-92 | after a task whose `error` does not throw, the next task is fetched first thing |
| LoaderProofs.RejectedChainSkipsFetch | figwheel-bridge.js:74-92 | on a rejected chain a task reports the failure without fetching |
| LoaderProofs.LoudErrorRejectsChain | figwheel-bridge.js:88-92 | whatever the failure, a `catch` whose `error` callback throws records the failure, runs `error`, and leaves the chain rejected with `error`'s exception |
| LoaderProofs.FailedImportRejectsChain | figwheel-bridge.js:76-92 | an import that is not delivered, or whose transform throws, leaves the chain rejected when its `error` throws |
| LoaderProofs.NotOkReportsFailedFetch | figwheel-bridge.js:77-81 | a non-ok response reports "Failed to Fetch: <url> - Perhaps your project was cleaned and you haven't recompiled?"; then only `error` runs, with no evaluation, no notification and no success |
| LoaderProofs.EvaluatedIsBacked | figwheel-bridge.js:82-87 | in any sound trace, an evaluated URL was fetched and delivered |
| LoaderProofs.SucceededIsBacked | figwheel-bridge.js:82-87 | in any sound trace, a URL reported successful was fetched, delivered, evaluated and notified |
| LoaderProofs.UndeliveredNeverSucceeds | figwheel-bridge.js:72-93 | a URL the server does not deliver, or whose script throws, is never evaluated or reported successful however long the chain runs |
| LoaderProofs.NotifyIdle | figwheel-bridge.js:19-23 | when no registered listener waits for the URL's file, notifying only records the URL |
| LoaderProofs.NotifyWaiter | figwheel-bridge.js:19-23 | with only the final-eval waiter registered, notifying records the URL and then runs the waiter on it |
| LoaderProofs.AsyncSuccessOrder | figwheel-bridge.js:82-87 | when no listener waits for the file, the async happy path is fetch, evaluate, notify, success, in that order; the chain stays fulfilled and nothing else is queued |
| LoaderProofs.AsyncFinalEvalOrder | figwheel-bridge.js:82-87 | for the app's main file with the waiter registered, the async path is fetch, evaluate, notify, render function handed over, success; the waiter is gone afterwards |
| LoaderProofs.AsyncSuccessThrowRunsError | figwheel-bridge.js:82-92 | when no listener waits for the file, a `success` that throws on the async path lands in the `catch`, so `error` also runs |
| LoaderProofs.AsyncListenerThrowRunsError | figwheel-bridge.js:82-92 | whichever of its checks fails, a waiter that throws on the async path skips `success`, its exception is reported, `error` runs, and the waiter stays registered |
| LoaderProofs.SyncSuccessOrder | figwheel-bridge.js:95-100 | when no listener waits for the file, the `importScripts` path is fetch, evaluate, notify, success, all during the call, and nothing is queued |
| LoaderProofs.SyncFinalEvalOrder | figwheel-bridge.js:95-100 | for the app's main file with the waiter registered, the `importScripts` path is fetch, evaluate, notify, render function handed over, success, during the call; the waiter is gone afterwards |
| LoaderProofs.SyncFailureRunsError | figwheel-bridge.js:95-105 | when `importScripts` throws, because the script does not arrive or because it throws while it runs, the failure is reported, `error` runs, `success` does not, the global object is unchanged (an abstraction: see "## Left out" on evaluation), and the call returns normally |
| LoaderProofs.MissingCallbacksAreNoops | figwheel-bridge.js:109-112 | non-function callbacks behave exactly as no-ops |
| LoaderProofs.FinalEvalFiresWhenReady | figwheel-bridge.js:176-185 | once the main file is evaluated with the namespace and render function present, the render function goes to the callback and the listener deletes itself |
| LoaderProofs.FinalEvalMissingNamespace | figwheel-bridge.js:178-179 | a missing namespace throws "ClojureScript Namespace <ns> not found." and leaves the listener registered |
| LoaderProofs.FinalEvalMissingRender | figwheel-bridge.js:180-180 | a missing render function throws "Render function <fn> not found." and leaves the listener registered |
| LoaderProofs.LoadAppRegistersWaiter | figwheel-bridge.js:176 | unless a synchronous import of `goog/base.js` already ran it, looking up `waitForFinalEval` after `loadApp` gives its waiter, whatever the table held before |
| LoaderProofs.SecondLoadAppReplacesWaiter | figwheel-bridge.js:176-176 | with `goog` already defined, a second `loadApp` replaces the first one's listener instead of adding a second, and nothing is recorded or queued |
| LoaderProofs.QueuedSecondLoadAppReplacesWaiter | figwheel-bridge.js:171-192 | on the queued path, where `goog` is still undefined, a second `loadApp` leaves only its own waiter, records nothing, and each call has queued its own `goog/base.js` |
| Bootstrap.LoadAppStaged | figwheel-bridge.js:187-200 | `loadApp` leaves a world in which only stages whose predecessor succeeded are queued |
| Bootstrap.RunStaged | figwheel-bridge.js:187-200 | settling any number of chain tasks keeps the stage invariant |
| Bootstrap.BootStaged | figwheel-bridge.js:187-200 | every world reachable from `loadApp` on a fresh page satisfies the stage invariant and the backing invariant |
| Bootstrap.StagesStartInOrder | figwheel-bridge.js:187-200 | each of `cljs_deps.js`, `goog/deps.js` and `index.js` is fetched only after the previous stage's success was reported |
| Bootstrap.FailedStageStopsLaterStages | figwheel-bridge.js:187-200 | a stage that is not delivered, or whose script throws, means no later stage is ever fetched |
| BootstrapProgress.HandOver | figwheel-bridge.js:192-198 | each stage's success callback queues the next stage, and `index.js`'s queues nothing |
| BootstrapProgress.StageLoads | figwheel-bridge.js:72-93 | a delivered stage alone on the chain loads in one settled task: fetched, evaluated, notified, reported successful, with the next stage queued behind it |
| BootstrapProgress.LoadAppQueuesBase | figwheel-bridge.js:187-192 | on an idle page without `goog` or `importScripts`, `loadApp` registers its waiter and queues exactly `goog/base.js` |
| BootstrapProgress.LoadAppLoadsEveryStage | figwheel-bridge.js:171-200 | from such a page, `loadApp` and four settled tasks load `goog/base.js`, `cljs_deps.js`, `goog/deps.js` and `index.js` in that order, then the queue is empty and the waiter still waits |
| BootstrapProgress.BootLoadsEveryStage | figwheel-bridge.js:171-200 | on a fresh page without `importScripts` whose server delivers every stage, the bootstrap's trace after four tasks is exactly the four stages loading one after the other |
| BootstrapProgress.SyncStageCompletes | figwheel-bridge.js:95-100 | with `importScripts`, importing a delivered stage loads it during the call and then runs the stage's continuation, whose return ends the import |
| BootstrapProgress.ShimHandsOver | figwheel-bridge.js:192-194 | once `goog` can take the shim, `goog/base.js`'s callback imports `cljs_deps.js` |
| BootstrapProgress.GoogDepsSync | figwheel-bridge.js:195-197 | with `importScripts`, `goog/deps.js` loads during the call and queues `index.js` |
| BootstrapProgress.CljsDepsSync | figwheel-bridge.js:194-198 | with `importScripts`, `cljs_deps.js` and then `goog/deps.js` load during the call, and `index.js` is queued |
| BootstrapProgress.BaseSync | figwheel-bridge.js:192-199 | with `importScripts`, `goog/base.js`, `cljs_deps.js` and `goog/deps.js` load in that order during the call, and `index.js` is queued |
| BootstrapProgress.SyncLoadAppLoadsEveryStage | figwheel-bridge.js:171-200 | from an idle page with `importScripts` and without `goog`, `loadApp` loads the first three stages during the call and one settled task loads `index.js`; the queue ends empty and the waiter still waits |
| BootstrapProgress.SyncBootLoadsEveryStage | figwheel-bridge.js:171-200 | on a fresh page with `importScripts` whose server delivers every stage, the bootstrap's trace after one task is exactly the four stages loading one after the other |
| BootstrapProgress.BootSettlesInQueueOrder | figwheel-bridge.js:74-92 | however far the bootstrap runs, the settled tasks are the first ones queued, in order |

## Left out

- The React component (`figwheelApp`), `AppRegistry.registerComponent` in `startApp`, and `listenForReload`. They are UI and hot-reload glue outside the loading logic. `loadApp`'s callback is recorded as a `Loaded` event carrying the render function.
- `withModules` and `interceptRequire`. They only swap a `require` override table that no other modelled operation reads. `withModules`'s `self` return value is not modelled either.
- `figwheelImportScript`, and the parts of `shimBaseGoog` that install hooks on `goog`: `goog.basePath`, the WebSocket class, `writeScriptTag_` and `writeScriptSrcNode`. Only the shim's throw when `goog` or `goog.global` cannot take properties is modelled. So `googBasePath` is validated but has no further effect.
- Logging: `logDebug`, `console.info` and `console.error` are not modelled. A failure appears as an `Errored` event in the trace.
- Real `fetch`, `eval` and `importScripts`. Their results are the `Server` input. Evaluation either throws or replaces the global object wholesale. A script that throws part-way therefore keeps none of the definitions it made before the throw, whereas real `eval` and `importScripts` keep those partial top-level effects. So the unchanged global object that `LoaderProofs.SyncFailureRunsError` states after a throwing script comes from this abstraction, not from the program.
- Concurrency beyond the FIFO order of the chain. Promise microtask interleaving with other code is not modelled.
- Loader.Run: it settles at most `fuel` tasks. Progress is stated as the concrete bounds `BootstrapProgress.BootLoadsEveryStage` and `BootstrapProgress.SyncBootLoadsEveryStage` prove: without `importScripts` four tasks load the four stages, and with it one task does. There is no statement about an unbounded run.
- JsValue.Value: numbers are unbounded integers. Floating point, `NaN` and JavaScript's number-to-string rules beyond plain decimals are left out, so `serverPort` renders as a decimal integer.
- JsValue.Value: objects are finite trees of own properties. There is no prototype chain and no cycles, so `goog.global` is read as a property of `goog` rather than being the global object itself.
- Bootstrap: the stage order is proved for a page where `loadApp` is the only code that queues imports. A hot reload or another caller of `importJs` that interleaves its own tasks is outside this closed-world invariant.
- Registry: entries keep insertion order. `Object.values` puts integer-like keys first, in numeric order. The only key the bridge uses, `waitForFinalEval`, is not integer-like, so the model and the code agree for every table the bridge builds.
- IndexJs.Exec: the pattern's `.` matches one Dafny `char`, which is a whole Unicode scalar value. A JavaScript regex without the `u` flag matches one UTF-16 code unit. Code with a character outside the Basic Multilingual Plane between `goog` and `global` (such as `goog😀global.CLOSURE_UNCOMPILED_DEFINES;`) matches in the model but not in JavaScript.
- Loader.RunListener: the `onLoadCb` call at line 181 is taken to return normally. If it threw, the `delete` at line 183 would be skipped and the waiter would stay registered; the model has no throwing `onLoadCb`.
- LoaderProofs.AsyncSuccessOrder, LoaderProofs.AsyncSuccessThrowRunsError, LoaderProofs.SyncSuccessOrder: these state the order for a file no listener waits for. The main file's order, with the waiter acting, is stated separately by `AsyncFinalEvalOrder` and `SyncFinalEvalOrder`.
- Loader.FinalEvalKey: the listener key is the fixed string `waitForFinalEval`, as the code has it. A unique key per call would let two bootstraps wait side by side; with the fixed key, a second `loadApp` replaces the first listener.
