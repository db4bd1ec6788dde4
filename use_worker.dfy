/**
 * The persistent controller of use-react-workers' `useWorker`: requests are
 * posted to one long-lived worker, which answers only when the user function
 * itself posts; a callback installed by `onMessage` receives those messages.
 */
module UseWorker {
  import opened Types
  import opened Protocol
  import opened Programs
  import opened ResourceLog

  /** `defaultOptions`: unlike the call controllers, autoTerminate is off. */
  function DefaultOptions(): Options {
    Options(Undefined, Given([]), Given(false), Given(AUTO))
  }

  /** The options in force, `{ ...defaultOptions, ...options }`, `options` itself defaulting to `defaultOptions`. */
  function Settings(options: Option<Options>): (s: Options)
    ensures options.None? ==> s == DefaultOptions()
    ensures options.Some? ==> s == Spread(DefaultOptions(), options.value)
    ensures options.Some? && options.value.autoTerminate.Absent? ==> !TruthyBool(s.autoTerminate)
    ensures options.Some? && options.value.transferable.Absent? ==> s.transferable == Given(AUTO)
    ensures options.Some? && !options.value.autoTerminate.Absent? ==> s.autoTerminate == options.value.autoTerminate
  {
    Spread(DefaultOptions(), WithDefault(options, DefaultOptions()))
  }

  class PersistentController {
    const source: string    // the source text of func
    const runner: string    // the source text of the persistent runner
    const options: Options  // the merged options

    var status: Status
    var worker: Option<nat>        // worker.current, known by its blob URL
    var timeoutId: Option<nat>     // timeoutId.current, the timer named after the worker it was set for
    var handlers: map<nat, nat>    // the callback installed as `onmessage` of each worker
    var delivered: seq<(nat, Value)>  // every callback invocation so far: the callback and the message data
    var nextUrl: nat

    ghost var log: seq<Event>
    ghost var phase: map<nat, Phase>
    ghost var armed: set<nat>

    predicate AutoTerminate() {
      TruthyBool(options.autoTerminate)
    }

    predicate Auto() {
      options.transferable == Given(AUTO)
    }

    /** `importScriptsFromDeps` throws on a dependency list that is `undefined` or `null`. */
    predicate GenerationThrows() {
      !options.remoteDependencies.Given?
    }

    function Program(): string
      requires options.remoteDependencies.Given?
    {
      PersistentProgram(options.remoteDependencies.value, runner, source)
    }

    ghost function Alive(): set<nat> reads this {
      LiveUrls(phase)
    }

    /** The worker `worker.current` refers to, as a set. */
    function Held(): set<nat> reads this {
      if worker.Some? then {worker.value} else {}
    }

    /**
     * The controller invariant: the log is well formed, the held worker is
     * the only live one and is held only while running, a pending timer
     * belongs to it, and under autoTerminate no live worker has a callback.
     */
    ghost predicate Valid() reads this {
      Consistent() && (AutoTerminate() ==> handlers.Keys !! Alive())
    }

    /** The invariant without its last clause, which holds again once a handler's worker is killed. */
    ghost predicate Consistent() reads this {
      Tracked(log, phase, nextUrl, Held(), {})
      && (worker.Some? ==> status == Running)
      && (forall t :: t in armed ==> worker == Some(t) && timeoutId == Some(t))
      && handlers.Keys <= phase.Keys
    }

    twostate predicate KilledFrom(w: Option<nat>) reads this {
      if w.None? then
        log == old(log) && phase == old(phase) && worker == old(worker) && armed == old(armed)
      else
        log == old(log) + Teardown(w.value) && phase == old(phase)[w.value := Revoked]
        && worker == None && armed == {}
    }

    constructor (source: string, runner: string, options: Option<Options>)
      ensures Valid()
      ensures this.source == source && this.runner == runner && this.options == Settings(options)
      ensures status == Idle && worker == None && timeoutId == None
      ensures handlers == map[] && delivered == [] && nextUrl == 0 && log == [] && armed == {}
    {
      this.source := source;
      this.runner := runner;
      this.options := Settings(options);
      status := Idle;
      worker := None;
      timeoutId := None;
      handlers := map[];
      delivered := [];
      nextUrl := 0;
      log := [];
      phase := map[];
      armed := {};
    }

    /** `killWorker`: nothing without a worker; otherwise terminate, revoke, drop the worker, clear the timer. */
    method KillWorker()
      requires Consistent()
      modifies this
      ensures Valid() && KilledFrom(old(worker)) && status == old(status)
      ensures Alive() == {} && armed == {}
      ensures timeoutId == old(timeoutId) && handlers == old(handlers) && delivered == old(delivered) && nextUrl == old(nextUrl)
    {
      if worker.Some? {
        var url := worker.value;
        TrackedTeardown(log, phase, nextUrl, url, {});
        log := log + Teardown(url);
        phase := phase[url := Revoked];
        worker := None;
        if timeoutId.Some? {
          armed := armed - {timeoutId.value};
        }
      }
    }

    /** `generateWorker`: a fresh worker from a persistent program, and a timer when the timeout is truthy. */
    method GenerateWorker()
      requires Valid() && worker.None? && options.remoteDependencies.Given?
      modifies this
      ensures Valid()
      ensures worker == Some(old(nextUrl)) && nextUrl == old(nextUrl) + 1 && status == Running
      ensures log == old(log) + [Create(old(nextUrl), Program())]
      ensures TruthyNumber(options.timeout) ==> timeoutId == Some(old(nextUrl)) && armed == {old(nextUrl)}
      ensures !TruthyNumber(options.timeout) ==> timeoutId == old(timeoutId) && armed == {}
      ensures handlers == old(handlers) && delivered == old(delivered)
    {
      var url := CreateWorker();
      if TruthyNumber(options.timeout) {
        timeoutId := Some(url);
        armed := armed + {url};
      }
    }

    /**
     * The worker made from a fresh blob URL, stored as the held one. The
     * status is set running here on behalf of `postMessage`, the only caller,
     * which sets it right after `generateWorker` returns.
     */
    method CreateWorker() returns (url: nat)
      requires Valid() && worker.None? && options.remoteDependencies.Given?
      modifies this
      ensures Valid() && armed == {}
      ensures url == old(nextUrl) && worker == Some(url) && nextUrl == url + 1 && status == Running
      ensures log == old(log) + [Create(url, Program())] && phase == old(phase)[url := Live]
      ensures timeoutId == old(timeoutId) && handlers == old(handlers) && delivered == old(delivered)
    {
      url := nextUrl;
      var text := Program();
      TrackedCreate(log, phase, nextUrl, {}, {}, text);
      log := log + [Create(url, text)];
      phase := phase[url := Live];
      nextUrl := nextUrl + 1;
      worker := Some(url);
      status := Running;
    }

    /**
     * `postMessage`: generate a worker and set running when none is held or
     * the status is not running, then post `[[...args]]` with its transfer
     * list. A held worker is always running, so no worker is ever replaced.
     * The result is whether generation threw.
     */
    method PostMessage(args: seq<Value>) returns (thrown: bool)
      requires Valid()
      modifies this
      ensures Valid()
      ensures thrown <==> (old(worker).None? || old(status) != Running) && GenerationThrows()
      ensures thrown ==> unchanged(this)
      ensures !thrown ==>
        var made := old(worker).None? || old(status) != Running;
        var url := if made then old(nextUrl) else old(worker).value;
        worker == Some(url) && status == Running
        && log == old(log) + (if made then [Create(url, Program())] else [])
                  + [Post(url, Envelope(args), OutboundTransferList(Auto(), args))]
      ensures !thrown ==>
        var made := old(worker).None? || old(status) != Running;
        timeoutId == (if made && TruthyNumber(options.timeout) then Some(old(nextUrl)) else old(timeoutId))
        && armed == (if !made then old(armed) else if TruthyNumber(options.timeout) then {old(nextUrl)} else {})
        && nextUrl == old(nextUrl) + (if made then 1 else 0)
      ensures old(worker).Some? ==> worker == old(worker)
      ensures handlers == old(handlers) && delivered == old(delivered)
    {
      if worker.None? || status != Running {
        if GenerationThrows() {
          return true;
        }
        GenerateWorker();
      }
      var transferList := OutboundTransferList(Auto(), args);
      TrackedPost(log, phase, nextUrl, Held(), {}, worker.value, Envelope(args), transferList);
      log := log + [Post(worker.value, Envelope(args), transferList)];
      thrown := false;
    }

    /**
     * `onMessage`: nothing without a worker; otherwise install the callback
     * as the held worker's handler and, under autoTerminate, kill the worker
     * and set idle straight away (the `finally` block).
     */
    method OnMessage(callback: nat)
      requires Valid()
      modifies this
      ensures Valid() && delivered == old(delivered)
      ensures old(worker).None? ==> unchanged(this)
      ensures old(worker).Some? ==> handlers == old(handlers)[old(worker).value := callback]
      ensures old(worker).Some? && AutoTerminate() ==>
        worker == None && status == Idle && log == old(log) + Teardown(old(worker).value)
      ensures !AutoTerminate() ==> worker == old(worker) && status == old(status) && log == old(log)
      ensures timeoutId == old(timeoutId) && nextUrl == old(nextUrl)
      ensures armed == if old(worker).Some? && AutoTerminate() then {} else old(armed)
    {
      if worker.None? {
        return;
      }
      handlers := handlers[worker.value := callback];
      if AutoTerminate() {
        KillWorker();
        status := Idle;
      }
    }

    /**
     * A message posted from inside the worker: the installed callback gets
     * it; a worker without a handler drops it. Under autoTerminate no live
     * worker has a handler, so the callback never runs and the handler's own
     * kill is never reached.
     */
    method OnWorkerMessage(from: nat, data: Value)
      requires Valid() && from in Alive()
      modifies this
      ensures Valid()
      ensures delivered == old(delivered) + (if from in old(handlers) then [(old(handlers)[from], data)] else [])
      ensures AutoTerminate() ==> delivered == old(delivered) && unchanged(this)
      ensures worker == old(worker) && status == old(status) && log == old(log) && phase == old(phase)
      ensures timeoutId == old(timeoutId) && armed == old(armed) && nextUrl == old(nextUrl)
      ensures handlers == old(handlers)
    {
      if from in handlers {
        delivered := delivered + [(handlers[from], data)];
        if AutoTerminate() {
          // The handler would kill the worker and set idle, but onMessage killed it already.
          assert false;
        }
      }
    }

    /** The timer callback: kill the worker and set expired. */
    method OnTimeout(t: nat)
      requires Valid() && t in armed
      modifies this
      ensures Valid() && status == Expired && worker == None && armed == {}
      ensures log == old(log) + Teardown(t)
      ensures handlers == old(handlers) && delivered == old(delivered)
      ensures timeoutId == old(timeoutId) && nextUrl == old(nextUrl)
    {
      armed := armed - {t};
      KillWorker();
      status := Expired;
    }

    /** `terminate`: kill the worker and set killed. */
    method Terminate()
      requires Valid()
      modifies this
      ensures Valid() && status == Killed && worker == None && Alive() == {}
      ensures log == old(log) + (if old(worker).Some? then Teardown(old(worker).value) else [])
      ensures handlers == old(handlers) && delivered == old(delivered)
      ensures timeoutId == old(timeoutId) && nextUrl == old(nextUrl)
    {
      KillWorker();
      status := Killed;
    }

    /** The effect after mounting: `killWorker`, with no cleanup on unmount. */
    method MountEffect()
      requires Valid()
      modifies this
      ensures Valid() && KilledFrom(old(worker)) && Alive() == {} && status == old(status)
      ensures handlers == old(handlers) && delivered == old(delivered)
      ensures timeoutId == old(timeoutId) && nextUrl == old(nextUrl)
    {
      KillWorker();
    }
  }
}
