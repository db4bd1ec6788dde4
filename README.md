# Worker call-lifecycle controllers of use-react-workers, in Dafny

use-react-workers runs a JavaScript function in a Web Worker that is built on
demand from a blob URL. The program text behind that URL has three parts:
an `importScripts(...)` prefix for the remote dependencies, a job runner
installed as the worker's `onmessage`, and the function's own source. A
React hook wraps the worker in a small controller. The controller holds a
status (`idle`, `running`, `error`, `expired`, `killed`), the current worker,
the pending call's resolve/reject pair and an optional timer.

This project models that controller in three variants, one class each. It
also models the pure pieces around them.

- `UseWorkerFunc.FuncController` models use-react-workers' `useWorkerFunc`:
  - options merged by object spread (`{ ...defaultOptions, ...options }`);
  - a refused invocation rejected with ``Web worker "<name>" is already running``;
  - a throw while generating the worker, caught and refused the same way.
- `UseWebWorker.WebController` models `useWorkerFunc` of the useWebWorker
  package. The package's `useWebWorker` is the same code under another name,
  so one class models both. It keeps their quirks:
  - the raw options object is read at each use, with destructuring defaults;
  - an `isRunning` ref mirrors the status;
  - `{}` stands for "no pending call", with optional-chaining resolve/reject;
  - two different readings of `autoTerminate`. A call regenerates the worker
    unless the flag is `false` (`!= null`). A settlement kills the worker only
    when the flag is `true` or `null` (`!== null`).
- `UseWorker.PersistentController` models use-react-workers' `useWorker`:
  - one long-lived worker, defaults with `autoTerminate: false`;
  - `postMessage`, and `onMessage`, which installs a callback.

Each class keeps a ghost log of the resource events it causes: `Create(url)`
(`URL.createObjectURL` followed by `new Worker`), `Post`, `Terminate` and
`Revoke`.

- `ResourceLog.Run` replays a log into the phase of every URL (live, stopped,
  revoked) and fails on an event out of order.
- Each controller's invariant contains `ResourceLog.Tracked`. It says three
  things: the log replays to the phases the controller records; every URL was
  minted from its counter; the live URLs are exactly the held worker and the
  orphans.
- So every reachable log is well formed, and `RevokeFollowsTerminate` and
  `RevokedAtMostOnce` hold for it.
- Under autoTerminate, the settlement handlers of `FuncController` end with
  no live worker at all. For `WebController` this holds when its two readings
  agree.

When the two readings disagree (`autoTerminate` missing or `undefined`), the
worker is kept after a settlement. The next call then overwrites
`worker.current` with a fresh worker without terminating the old one. The
old worker stays live with no reference to it (an "orphan"), and nothing can
ever terminate it or revoke its URL. `WebController` tracks such workers in
the ghost set `orphans` and proves they are the only live workers besides
the held one. The scenario `Scenarios.WebWorkerOrphan` builds one. The
spread in use-react-workers supplies `true` for a missing flag, so the same
options cause no orphan there (`Scenarios.FuncNoOrphan`).

The worker side is modelled as pure functions:

- `Runner.JobRunner` turns one request into exactly one response
  `[tag, payload]` with its transfer list.
- `Runner.PersistentRunner` posts nothing.
- The user function is an abstract map from arguments to an outcome
  (`Success(v)` or `Failure(e)`).
- The program texts concatenate literal pieces with the runner's and the
  function's source, both of which are opaque strings. Reading functions
  (`FunctionSource`, `EmbeddedTransferable`, `ParseImportScripts`) take a
  text apart again, and the lemmas prove the templates round-trip through them.

In two places the code disagrees with its own text, and the model follows the code in both.

- The doc comment of `importScriptsFromDeps` shows the items separated by
  `", "`. `Array.prototype.toString` joins them with a bare `","`
  (`ImportScripts.NoSpaceAfterComma`).
- use-react-workers' `useWorkerFunc` refuses with the "already running"
  message even when the refusal comes from a throw during generation.

## Model

| member | source | states |
|---|---|---|
| Types.TransferableType.Text | use-react-workers/src/types.ts:9-12 | The enum value text is `auto` exactly for AUTO. |
| Types.Spread | use-react-workers/src/useWorkerFunc.ts:84-87 | Definition of object spread, property by property: a property present in the later object wins, even when `undefined`, and an absent one keeps the default. `SpreadOverNothing` and the `Settings` contracts state its consequences. |
| Types.SpreadOverNothing | use-react-workers/src/useWorkerFunc.ts:84-87 | Spreading an object with no properties leaves the defaults unchanged. |
| Types.WithDefault | use-react-workers/src/useWorkerFunc.ts:82 | Definition of the parameter default `options: Options = defaultOptions`: the defaults replace only a missing options argument. |
| Types.TruthyBool | use-react-workers/src/useWorkerFunc.ts:106 | Definition of `if (autoTerminate)`: only `true` is truthy, while `false`, `undefined` and `null` are not. |
| Types.TruthyNumber | use-react-workers/src/useWorkerFunc.ts:140 | Definition of `if (timeout)`: a given non-zero number is truthy, while 0, `undefined` and `null` are not. |
| Types.SettlePending | useWebWorker/src/useWorkerFunc.ts:99-111 | Settling touches only the pending call, and only if it has not settled yet; all earlier settlements are kept; with no pending call (`{}`) nothing changes. |
| Types.JsText | use-react-workers/src/utils/createWorkerBlobUrl.ts:24 | Definition of the text `'${transferable}'` interpolates: the enum value, or `undefined`/`null`. |
| Types.JsTextAutoOnlyForAuto | use-react-workers/src/utils/createWorkerBlobUrl.ts:24 | The embedded policy literal reads `auto` exactly when the policy is AUTO. |
| ImportScripts.ImportScriptsFromDeps | react-worker-hooks/src/utils/importScriptsFromDeps.ts:12-17 | Definition: empty for an empty list, otherwise `importScripts(` + the joined quoted items + `)`. Its properties are the lemmas below. |
| ImportScripts.JoinComma | react-worker-hooks/src/utils/importScriptsFromDeps.ts:15 | Definition of `Array.prototype.toString` on strings: the items joined by a bare comma. |
| ImportScripts.Quoted | react-worker-hooks/src/utils/importScriptsFromDeps.ts:15 | Definition of `'${dep}'`: the dependency between single quotes, with no escaping. |
| ImportScripts.QuoteAll | react-worker-hooks/src/utils/importScriptsFromDeps.ts:15 | One item per dependency, in order, each the dependency between single quotes. |
| ImportScripts.JoinCommaCons | react-worker-hooks/src/utils/importScriptsFromDeps.ts:15 | For two or more items, the joined text is the first quoted item, a comma, then the rest joined. |
| ImportScripts.ParseJoined | react-worker-hooks/src/utils/importScriptsFromDeps.ts:15 | Joined quote-free items are read back as exactly the dependency list. |
| ImportScripts.ImportScriptsRoundTrip | react-worker-hooks/src/utils/importScriptsFromDeps.ts:12-17 | The prefix built from a quote-free list reads back as that list, order and count included. |
| ImportScripts.ImportScriptsShape | react-worker-hooks/src/utils/importScriptsFromDeps.ts:13-16 | The prefix is empty iff the list is; otherwise it is `importScripts(` … `)`. |
| ImportScripts.NoSpaceAfterComma | react-worker-hooks/src/utils/importScriptsFromDeps.ts:15 | Two dependencies give `importScripts('a','b')`, with no space after the comma. |
| ImportScripts.QuoteInDependencyIsAmbiguous | react-worker-hooks/src/utils/importScriptsFromDeps.ts:15 | Without escaping, the one dependency `a','b` yields the same prefix as the two dependencies `a` and `b`. |
| Programs.WorkerProgram | use-react-workers/src/utils/createWorkerBlobUrl.ts:20-26 | Definition of the template, with its whitespace kept: the import prefix and `;`, then `onmessage=(runner)({ fn: fn, transferable: 'policy' })`. `WorkerProgramFunctionSource` and `WorkerProgramTransferable` read it back. |
| Programs.ParenthesisedWorkerProgram | useWebWorker/src/utils/createWorkerBlobUrl.ts:24-30 | Definition of the same template with `(` + fn + `)` in place of fn. |
| Programs.PersistentProgram | use-react-workers/src/utils/createPersistentBlobUrl.ts:21-26 | Definition of the persistent template, which closes the options object after `fn` with no transferable property. |
| Programs.WorkerProgramFunctionSource | use-react-workers/src/utils/createWorkerBlobUrl.ts:20-26 | The function source sits between the import/handler preamble and the policy tail: it is recovered from the program, and a text yields it iff it is that program. |
| Programs.ParenthesisedIsWrapped | useWebWorker/src/utils/createWorkerBlobUrl.ts:24-30 | useWebWorker's template equals use-react-workers' applied to `(` + fn + `)`, and that wrapped source is what the program carries. |
| Programs.WorkerProgramTransferable | use-react-workers/src/utils/createWorkerBlobUrl.ts:22-25 | The single-quoted policy literal of both templates is read back exactly. |
| Programs.PersistentProgramShape | use-react-workers/src/utils/createPersistentBlobUrl.ts:21-26 | The persistent program carries no policy literal, and its function source is recovered. |
| Programs.ImportsPrecedeHandler | useWebWorker/src/utils/createWorkerBlobUrl.ts:25-26 | All three templates start with the import prefix followed at once by `;` and the `onmessage=(` installation. |
| Programs.NoDependenciesNoImports | use-react-workers/src/utils/createWorkerBlobUrl.ts:21 | With no dependencies, the `;` follows the leading whitespace directly in all three templates. |
| Programs.JsTextQuoteFree | use-react-workers/src/utils/createWorkerBlobUrl.ts:24 | Every policy text a controller can embed is free of quotes, so it is read back intact. |
| Protocol.Envelope | use-react-workers/src/useWorkerFunc.ts:168 | Definition of the request data `[[...args]]`. `EnvelopeRoundTrip` proves the worker reads back exactly the arguments sent. |
| Protocol.Arguments | use-react-workers/src/utils/jobRunner.ts:26 | Definition: the worker takes the first element of the message data as the argument list. |
| Protocol.IsTransferable | use-react-workers/src/useWorkerFunc.ts:159-164 | Definition of the `instanceof` filter, used again in the job runner (jobRunner.ts:29-33): ArrayBuffer, MessagePort, ImageBitmap and OffscreenCanvas, and nothing else. |
| Protocol.OutboundTransferList | use-react-workers/src/useWorkerFunc.ts:157-166 | Definition: the filtered arguments under `auto`, and the empty list otherwise. |
| Protocol.EnvelopeRoundTrip | use-react-workers/src/utils/createWorkerBlobUrl.ts:57 | The worker's `const [userFuncArgs] = e.data` recovers exactly the arguments sent. |
| Protocol.Transferables | use-react-workers/src/useWorkerFunc.ts:157-166 | The filtered list is never longer than the arguments. |
| Protocol.TransferablesMembers | use-react-workers/src/useWorkerFunc.ts:157-166 | A value is in the transfer list iff it is an argument of one of the four transferable kinds. |
| Protocol.TransferablesAppend | use-react-workers/src/useWorkerFunc.ts:157-166 | The filter distributes over concatenation, so argument order is kept. |
| Protocol.TransferablesCount | use-react-workers/src/useWorkerFunc.ts:157-166 | Each transferable argument is listed as often as it occurs, anything else never. |
| Protocol.TransferablesAll | use-react-workers/src/useWorker.ts:68-77 | The transfer list is the whole argument list iff every argument is transferable. |
| Protocol.ResultTransferList | use-react-workers/src/utils/jobRunner.ts:29-37 | Definition of the runner's result transfer list: `[result]` when the literal is `auto` and the result is transferable, otherwise `[]`. `ResultRuleIsOutboundRule`, `ShallowResultRule` and `Runner.WorkerResultTransfer` state how it relates to the controller's policy. |
| Protocol.ResultRuleIsOutboundRule | use-react-workers/src/utils/createWorkerBlobUrl.ts:61-67 | The inbound rule, under the embedded literal, is the outbound filter applied to the single result. |
| Protocol.ShallowResultRule | use-react-workers/src/utils/createWorkerBlobUrl.ts:67 | An array holding an ArrayBuffer is not transferred; a bare ArrayBuffer is. |
| Protocol.Decode | use-react-workers/src/useWorkerFunc.ts:121-132 | Definition: tag `idle` resolves the pending call with the payload, and any other tag rejects it with the payload. The controllers' `OnMessage` and `Runner.CallSettlesWithOutcome` state it against the worker's responses. |
| Protocol.EndStatus | use-react-workers/src/useWorkerFunc.ts:123-131 | Definition: tag `idle` ends in idle, and any other tag ends in error. |
| Runner.JobRunner | use-react-workers/src/utils/createWorkerBlobUrl.ts:56-76 | Each request gets exactly one response, tagged `idle` or `error`. |
| Runner.PersistentRunner | use-react-workers/src/utils/createPersistentBlobUrl.ts:41-46 | Definition of the persistent runner: it reads the arguments from the first element of the data and posts nothing, whether the function succeeds or fails. |
| Runner.CallSettlesWithOutcome | use-react-workers/src/utils/jobRunner.ts:25-44 | A call resolves with the returned value or rejects with the thrown one, for exactly the arguments sent; the end status follows. |
| Runner.FailureResponse | use-react-workers/src/utils/jobRunner.ts:42-44 | A failure gives `['error', error]` with no transfer list, and an `error` tag comes only from a failure. |
| Runner.WorkerResultTransfer | use-react-workers/src/utils/createWorkerBlobUrl.ts:20-72 | Inside a worker made from either template, use-react-workers' or useWebWorker's parenthesised one, the result is transferred exactly as the controller's own policy and the outbound filter say. |
| ResourceLog.TrackedCreate | use-react-workers/src/useWorkerFunc.ts:115-118 | Minting the next URL makes it the only held worker; whatever was held before becomes an orphan. |
| ResourceLog.TrackedTeardown | use-react-workers/src/useWorkerFunc.ts:94-102 | Terminating and then revoking the held worker keeps the log well formed and leaves nothing held. |
| ResourceLog.TrackedPost | use-react-workers/src/useWorkerFunc.ts:168 | Posting to the held worker changes no phase. |
| ResourceLog.RevokeFollowsTerminate | use-react-workers/src/useWorkerFunc.ts:96-97 | In a well-formed log, every revocation of a URL comes after a termination of its worker. |
| ResourceLog.RevokedAtMostOnce | use-react-workers/src/useWorkerFunc.ts:95-99 | In a well-formed log, no URL is revoked twice. |
| UseWorkerFunc.Settings | use-react-workers/src/useWorkerFunc.ts:80-87 | A missing options object gives the defaults. A given one is spread over the defaults, so every property present in it wins, even `undefined`; a missing autoTerminate or transferable gets `true` or `auto`. |
| UseWorkerFunc.AlreadyRunning | use-react-workers/src/useWorkerFunc.ts:191 | Definition of the refusal reason ``Web worker "<name>" is already running``. |
| UseWorkerFunc.DefaultOptions | use-react-workers/src/useWorkerFunc.ts:26-31 | Definition of `defaultOptions`: timeout `undefined`, no dependencies, autoTerminate `true`, transferable `auto`. |
| UseWorkerFunc.FuncController.Regenerates | use-react-workers/src/useWorkerFunc.ts:184 | Definition of the condition on `autoTerminate` and `!worker.current` joined by a logical or: a new worker is made under autoTerminate or when none is held. |
| UseWorkerFunc.FuncController.GenerationThrows | react-worker-hooks/src/utils/importScriptsFromDeps.ts:13 | Definition: generation throws exactly when the spread dependency list is `undefined` or `null`, since reading its `length` throws. |
| UseWorkerFunc.FuncController.constructor | use-react-workers/src/useWorkerFunc.ts:80-92 | Starts idle with no worker, no pending call, no timer and an empty log, under the merged options. |
| UseWorkerFunc.FuncController.KillWorker | use-react-workers/src/useWorkerFunc.ts:94-102 | Does nothing without a worker; otherwise terminates, then revokes, resets the pending call, drops the worker and clears the timer, leaving no live worker. |
| UseWorkerFunc.FuncController.OnWorkerEnd | use-react-workers/src/useWorkerFunc.ts:104-112 | Kills the worker exactly under autoTerminate, then sets the given status. |
| UseWorkerFunc.FuncController.OnMessage | use-react-workers/src/useWorkerFunc.ts:120-133 | `idle` resolves the pending call and any other tag rejects it. Under autoTerminate the worker is torn down, its timer cleared, and nothing is left live. Otherwise worker, pending call, log and timer all stay as they were. |
| UseWorkerFunc.FuncController.OnError | use-react-workers/src/useWorkerFunc.ts:135-138 | An error event rejects the pending call and ends in error. Under autoTerminate nothing is left live and no timer is armed. Otherwise worker, log and timer stay as they were. |
| UseWorkerFunc.FuncController.OnTimeout | use-react-workers/src/useWorkerFunc.ts:140-145 | The timer tears down the worker it was set for and sets expired, without settling the pending call. |
| UseWorkerFunc.FuncController.Terminate | use-react-workers/src/useWorkerFunc.ts:197-200 | From any state it kills the worker and sets killed. A held worker is torn down, the pending call is reset and its timer cleared; without one, nothing else changes. |
| UseWorkerFunc.FuncController.MountEffect | use-react-workers/src/useWorkerFunc.ts:207-209 | The effect after mounting runs `killWorker`. |
| UseWorkerFunc.FuncController.GenerateWorker | use-react-workers/src/useWorkerFunc.ts:114-148 | Creates a worker from a fresh URL with this controller's program, and arms a timer for it iff the timeout is truthy. |
| UseWorkerFunc.FuncController.CreateWorker | use-react-workers/src/useWorkerFunc.ts:115-118 | Mints the next URL, creates the worker from the program and holds it. |
| UseWorkerFunc.FuncController.CallWorker | use-react-workers/src/useWorkerFunc.ts:150-174 | Installs the new call as pending, posts `[[...args]]` with the filtered transfer list (empty unless `auto`) and sets running. |
| UseWorkerFunc.FuncController.WorkerHook | use-react-workers/src/useWorkerFunc.ts:176-195 | Refuses with ``Web worker "<name>" is already running``, changing nothing, while running or when generation throws. Otherwise it creates a worker iff autoTerminate or none is held, arming a timer for a new worker iff the timeout is truthy, then calls it; a reused worker keeps its timer. |
| UseWebWorker.RegenerateFlag | useWebWorker/src/useWorkerFunc.ts:155-158 | The call-time reading regenerates unless autoTerminate is exactly `false`. |
| UseWebWorker.KillFlag | useWebWorker/src/useWorkerFunc.ts:70-73 | The settlement-time reading kills iff autoTerminate is `true` or `null`. |
| UseWebWorker.Defaulted | useWebWorker/src/useWorkerFunc.ts:84-88 | Definition of a destructuring default: it replaces a missing or `undefined` property and keeps `null`. `FlagsDisagree` and the `Transferable` and `Dependencies` rows build on it. |
| UseWebWorker.DefaultOptions | useWebWorker/src/useWorkerFunc.ts:35-40 | Definition of `defaultOptions`: timeout `undefined`, no dependencies, autoTerminate `true`, transferable `auto`. |
| UseWebWorker.WebController.Transferable | useWebWorker/src/useWorkerFunc.ts:127 | Definition of `const { transferable = defaultOptions.transferable } = options`: `auto` replaces a missing or `undefined` policy, and `null` is kept. |
| UseWebWorker.WebController.Dependencies | useWebWorker/src/useWorkerFunc.ts:85 | Definition of the destructuring default `remoteDependencies = defaultOptions.remoteDependencies`: `[]` replaces a missing or `undefined` list, and `null` is kept. |
| UseWebWorker.WebController.GenerationThrows | useWebWorker/src/useWorkerFunc.ts:85-90 | Definition: generation throws exactly when the defaulted dependency list is `null`. |
| UseWebWorker.FlagsDisagree | useWebWorker/src/useWorkerFunc.ts:155-158 | The call-time reading here and the settlement-time reading at :70-73 (the same code sits in `useWebWorker.ts` at :155-158 and :68-81) differ iff autoTerminate is missing or `undefined`. In that case the call regenerates while the settlement keeps the worker. |
| UseWebWorker.WebController.constructor | useWebWorker/src/useWorkerFunc.ts:46-56 | Starts idle and not running, with no worker, `{}` as the pending call, no timer and no orphans; a missing options object becomes the defaults. |
| UseWebWorker.WebController.SetStatus | useWebWorker/src/useWorkerFunc.ts:186-188 | Sets the status and makes `isRunning` mirror `status === running`. |
| UseWebWorker.WebController.KillWorker | useWebWorker/src/useWorkerFunc.ts:58-66 | Does nothing without a worker; otherwise terminates, then revokes, resets to `{}`, drops the worker and clears the timer; only orphans stay live. |
| UseWebWorker.WebController.OnWorkerEnd | useWebWorker/src/useWebWorker.ts:68-81 | Kills the worker iff the settlement-time reading holds, then sets the status. |
| UseWebWorker.WebController.OnMessage | useWebWorker/src/useWorkerFunc.ts:95-108 | `idle` resolves and other tags reject the pending call (no effect on `{}`). The worker is torn down, with its timer cleared, iff the settlement-time reading holds; otherwise worker, pending call, log and timers stay as they were. When both readings hold, nothing is left live. |
| UseWebWorker.WebController.OnError | useWebWorker/src/useWebWorker.ts:110-113 | An error event rejects the pending call and sets error, with the same kill rule and the same timer frame. |
| UseWebWorker.WebController.OnTimeout | useWebWorker/src/useWorkerFunc.ts:115-120 | The timer kills the held worker and sets expired; the pending call is reset but not settled. The fired timer and the held worker's timer are no longer armed; orphans' timers stay armed. |
| UseWebWorker.WebController.Kill | useWebWorker/src/useWebWorker.ts:176-179 | `kill` tears down the held worker, clears the current timer and sets killed; orphans and their timers stay. |
| UseWebWorker.WebController.Dispose | useWebWorker/src/useWebWorker.ts:190-195 | The unmount cleanup runs `killWorker`. |
| UseWebWorker.WebController.GenerateWorker | useWebWorker/src/useWorkerFunc.ts:83-123 | A fresh worker from the parenthesised program replaces the held one, which becomes an orphan; a truthy timeout arms a timer for the new worker. |
| UseWebWorker.WebController.CreateWorker | useWebWorker/src/useWorkerFunc.ts:90-93 | Mints the next URL, creates the worker and holds it, orphaning the previous one. |
| UseWebWorker.WebController.CallWorker | useWebWorker/src/useWorkerFunc.ts:125-151 | Installs the call as pending, posts `[[...args]]` with the transfer list of the defaulted policy and sets running. |
| UseWebWorker.WebController.WorkerHook | useWebWorker/src/useWorkerFunc.ts:153-174 | While `isRunning`, rejects with no reason and changes nothing. Otherwise it regenerates iff the call-time reading holds or no worker is held (a throw escapes), arming a timer for the new worker iff the timeout is truthy, then calls. There is no orphan when the readings agree. |
| UseWorker.Settings | use-react-workers/src/useWorker.ts:21-28 | The defaults have autoTerminate off and transferable `auto`. A given options object is spread over them, so every property present in it wins. |
| UseWorker.DefaultOptions | use-react-workers/src/useWorker.ts:10-15 | Definition of `defaultOptions`: timeout `undefined`, no dependencies, autoTerminate `false`, transferable `auto`. |
| UseWorker.PersistentController.GenerationThrows | use-react-workers/src/useWorker.ts:46 | Definition: `createPersistentBlobUrl` throws exactly when the spread dependency list is `undefined` or `null`. |
| UseWorker.PersistentController.constructor | use-react-workers/src/useWorker.ts:21-34 | Starts idle with no worker, no timer, no callbacks and an empty log. |
| UseWorker.PersistentController.KillWorker | use-react-workers/src/useWorker.ts:36-43 | Does nothing without a worker; otherwise terminates, then revokes, drops the worker and clears the timer; there is no pending call to reset. |
| UseWorker.PersistentController.GenerateWorker | use-react-workers/src/useWorker.ts:45-59 | A fresh worker from the persistent program, plus a timer iff the timeout is truthy. |
| UseWorker.PersistentController.CreateWorker | use-react-workers/src/useWorker.ts:46-49 | Mints the next URL and creates and holds the worker. It also sets running, on behalf of `postMessage` (:65), its only caller. |
| UseWorker.PersistentController.PostMessage | use-react-workers/src/useWorker.ts:61-81 | Generates a worker and sets running iff none is held or the status is not running, arming a timer for the new worker iff the timeout is truthy. Every call then posts `[[...args]]` with the transfer list. A held worker is never replaced and keeps its timer. |
| UseWorker.PersistentController.OnMessage | use-react-workers/src/useWorker.ts:83-104 | Without a worker nothing happens. Otherwise the callback is installed, and under autoTerminate the worker is killed, its timer cleared and the status set idle at once. With autoTerminate off, worker, status, log and timer stay. |
| UseWorker.PersistentController.OnWorkerMessage | use-react-workers/src/useWorker.ts:87-93 | A message from the worker reaches the installed callback and changes nothing else: worker, status, log and timer stay. Under autoTerminate no live worker has a callback, so it never runs. |
| UseWorker.PersistentController.OnTimeout | use-react-workers/src/useWorker.ts:51-56 | The timer kills the worker and sets expired; the URL counter, the timer id and the callbacks stay as they were. |
| UseWorker.PersistentController.Terminate | use-react-workers/src/useWorker.ts:106-109 | Kills the worker and sets killed. The URL counter, the timer id and the callbacks stay as they were, so the next worker gets the next URL. |
| UseWorker.PersistentController.MountEffect | use-react-workers/src/useWorker.ts:121-123 | The effect after mounting runs `killWorker` and keeps the status, the URL counter, the timer id and the callbacks. |
| Scenarios.SumResolvesToThree | use-react-workers/test/useWorker.test.js:5-11 | With default options, useWebWorker's `[workerHook, controller]` runs `sum(1, 2)` to 3, and the controller ends idle without a worker. |
| Scenarios.ThrowRejects | use-react-workers/src/useWorkerFunc.ts:128-131 | A throwing function rejects its call with what it threw and leaves the controller in error without a worker. |
| Scenarios.ThrowThenRetry | use-react-workers/src/useWorkerFunc.ts:184-188 | After an error, the next invocation gets a new call running on a fresh worker: URL 1, after the first worker's URL 0. |
| Scenarios.TimeoutExpires | use-react-workers/src/useWorkerFunc.ts:140-145 | A call with a truthy timeout arms a timer; when it fires, the controller expires with no worker and the call unsettled. |
| Scenarios.SecondCallRefused | use-react-workers/src/useWorkerFunc.ts:179-191 | A second invocation while running is refused with the named reason, and the first call stays pending. |
| Scenarios.WebWorkerOrphan | useWebWorker/src/useWorkerFunc.ts:155-169 | With autoTerminate left out, the second call leaves the first worker live and unreferenced. |
| Scenarios.FuncNoOrphan | use-react-workers/src/useWorkerFunc.ts:84-87 | The same options on use-react-workers' controller end idle with no worker. |
| Scenarios.PersistentDelivers | use-react-workers/src/useWorker.ts:83-93 | A persistent worker keeps running and hands every message to the installed callback, in order. |
| Scenarios.PersistentTerminateThenPost | use-react-workers/src/useWorker.ts:61-66 | After `terminate`, the next `postMessage` starts a fresh worker at URL 1 and runs again. |
| Scenarios.PersistentAutoTerminate | use-react-workers/src/useWorker.ts:96-101 | Under autoTerminate the worker is gone as soon as a callback is installed, and nothing is ever delivered. |

## Left out

- Browser primitives are abstract:
  - `Blob`, `URL.createObjectURL` and `revokeObjectURL`, `new Worker`, `postMessage`, `setTimeout` and `clearTimeout` appear only as ghost log events and counters;
  - a blob URL is a natural number minted from a counter;
  - a timer is named by the URL of the worker it was set for.
- The `Worker` constructor or `Blob` throwing is not modelled. The only failure modelled while generating a worker is a dependency list that is `undefined` or `null`, on which `importScriptsFromDeps` throws.
- UseWorkerFunc.FuncController.CallWorker: `worker.postMessage` throwing is not modelled. This also applies to `UseWebWorker.WebController.CallWorker`, `UseWorker.PersistentController.PostMessage` and the job runner's own `postMessage`. It happens for a transfer list that names the same buffer twice, a detached buffer, or a value that cannot be cloned.
  - In the call controllers, such a throw inside the promise executor rejects the call and skips `setWorkerStatus(RUNNING)`.
  - Under autoTerminate a freshly made worker is then held while not running, which the model's invariant excludes.
  - The next call would then replace that worker without terminating it.
  - In the job runner, only the `idle` post sits inside the `try` (`utils/jobRunner.ts`:41): if it throws, the `catch` posts an `error` response instead.
  - The `error` post in the `catch` (`utils/jobRunner.ts`:43) is not guarded. If it throws, for example because the user function threw a value that cannot be cloned, the throw escapes the handler, nothing is posted and the call stays pending.
  - Every post is modelled as succeeding.
- Timing and concurrency: worker responses, error events and timer firings are methods the environment calls, one at a time.
- UseWorkerFunc.FuncController.OnMessage requires the event to come from a live worker. The same holds for `OnError` and for `UseWebWorker.WebController.OnMessage`/`OnError`. A message from an already terminated worker is not modelled, since the browser does not deliver one.
- UseWorker.PersistentController.OnWorkerMessage stands for the user function posting from inside the persistent worker. That is the only way a persistent worker sends anything, and the model does not derive it from `Runner.PersistentRunner`.
- React machinery is not modelled:
  - the status is a field read at call time, with no stale closures and no render-time capture of `workerStatus`;
  - the `isRunning` effect of the useWebWorker controllers runs right after each status change;
  - `useCallback`/`useDeepCallback` memoisation is not modelled, and neither is `useMemo`.
- Serialising a JavaScript function to its source text (`${fn}`). The function and runner sources are opaque strings, and the user function is an abstract map from arguments to an outcome.
- `console.error` logging in both refusal paths.
- use-react-workers' `useWorkerState` and its `useWebWorker` glue are not modelled. They await `useWorkerFunc` and store the result in React state, with no logic of their own.
- The two useWebWorker copies (`useWorkerFunc.ts` and `useWebWorker.ts`) differ only in names and console text. One class models both.
- Some imported helpers are not part of this model, and others stand in for them:
  - useWebWorker's own `utils/jobRunner` is replaced by the use-react-workers job runner;
  - use-react-workers' own `utils/importScriptsFromDeps.ts`, imported by `createWorkerBlobUrl.ts` and `createPersistentBlobUrl.ts`, is replaced by the react-worker-hooks `importScriptsFromDeps`;
  - so is useWebWorker's own `utils/importScriptsFromDeps`.
- Values are a tagged datatype in place of `instanceof` probing. The `'ArrayBuffer' in window` guards are taken as true.
- Protocol.Transferables: its own contract bounds only the length. Membership, order and multiplicity are stated by the lemmas beside it.
- Runner.JobRunner: `await Promise.resolve(...)` is collapsed into the outcome of the user function. A returned promise that rejects is the same as a throw.
