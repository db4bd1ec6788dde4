/**
 * The call-lifecycle controller of use-react-workers' `useWorkerFunc`: one
 * call at a time, a worker made on demand from a blob URL (or reused when
 * autoTerminate is off), a pending resolve/reject pair, an optional timer.
 */
module UseWorkerFunc {
  import opened Types
  import opened Protocol
  import opened Programs
  import opened ResourceLog

  /** `defaultOptions`. */
  function DefaultOptions(): Options {
    Options(Undefined, Given([]), Given(true), Given(AUTO))
  }

  /** The options in force, `{ ...defaultOptions, ...options }`, `options` itself defaulting to `defaultOptions`. */
  function Settings(options: Option<Options>): (s: Options)
    ensures options.None? ==> s == DefaultOptions()
    ensures options.Some? ==> s == Spread(DefaultOptions(), options.value)
    ensures options.Some? && options.value.autoTerminate.Absent? ==> TruthyBool(s.autoTerminate)
    ensures options.Some? && options.value.transferable.Absent? ==> s.transferable == Given(AUTO)
    ensures options.Some? && !options.value.autoTerminate.Absent? ==> s.autoTerminate == options.value.autoTerminate
  {
    Spread(DefaultOptions(), WithDefault(options, DefaultOptions()))
  }

  /** The reason every refused invocation is rejected with. */
  function AlreadyRunning(name: string): string {
    "Web worker \"" + name + "\" is already running"
  }

  class FuncController {
    const name: string      // func.name
    const source: string    // the source text of func
    const runner: string    // the source text of the job runner
    const options: Options  // the merged options

    var status: Status
    var worker: Option<nat>      // worker.current, known by its blob URL
    var promise: Option<nat>     // promise.current: the pending call, None for the no-op default
    var timeoutId: Option<nat>   // timeoutId.current, the timer named after the worker it was set for
    var settled: map<nat, Settlement>  // the calls whose promises have settled, and how
    var nextUrl: nat
    var nextCall: nat

    ghost var log: seq<Event>         // the resource events so far
    ghost var phase: map<nat, Phase>  // the lifecycle phase of every URL minted
    ghost var armed: set<nat>         // timers set and neither cleared nor fired

    predicate AutoTerminate() {
      TruthyBool(options.autoTerminate)
    }

    predicate Auto() {
      options.transferable == Given(AUTO)
    }

    /** `importScriptsFromDeps` throws on a dependency list that is `undefined` or `null`. */
    predicate GenerationThrows() {
      !options.remoteDependencies.Given?
    }

    function Program(): string
      requires options.remoteDependencies.Given?
    {
      WorkerProgram(options.remoteDependencies.value, runner, source, JsText(options.transferable))
    }

    /** Whether an invocation makes a new worker rather than reusing the held one. */
    predicate Regenerates(w: Option<nat>) {
      AutoTerminate() || w.None?
    }

    /** The pending call is installed and its promise has not settled. */
    predicate Outstanding() reads this {
      promise.Some? && promise.value !in settled
    }

    ghost function Alive(): set<nat> reads this {
      LiveUrls(phase)
    }

    /** The worker `worker.current` refers to, as a set. */
    function Held(): set<nat> reads this {
      if worker.Some? then {worker.value} else {}
    }

    /** The invariant of the fields other than the status. */
    ghost predicate Consistent() reads this {
      Tracked(log, phase, nextUrl, Held(), {})
      && (promise.Some? ==> promise.value < nextCall)
      && (forall c :: c in settled ==> c < nextCall)
      && (forall t :: t in armed ==> worker == Some(t) && timeoutId == Some(t))
    }

    /**
     * The controller invariant: the log is well formed, the held worker is the
     * only live one, an outstanding call means running, and under
     * autoTerminate a worker is held only while running.
     */
    ghost predicate Valid() reads this {
      Consistent()
      && (Outstanding() ==> status == Running && worker.Some?)
      && (AutoTerminate() && worker.Some? ==> status == Running)
    }

    /** The effect of `killWorker` when the held worker was `w`. */
    twostate predicate KilledFrom(w: Option<nat>) reads this {
      if w.None? then
        log == old(log) && phase == old(phase) && worker == old(worker) && promise == old(promise) && armed == old(armed)
      else
        log == old(log) + Teardown(w.value) && phase == old(phase)[w.value := Revoked]
        && worker == None && promise == None
        && armed == old(armed) - (if timeoutId.Some? then {timeoutId.value} else {})
    }

    /** What no handler changes besides the fields it names. */
    twostate predicate SameCounters() reads this {
      nextUrl == old(nextUrl) && nextCall == old(nextCall) && timeoutId == old(timeoutId)
    }

    constructor (name: string, source: string, runner: string, options: Option<Options>)
      ensures Valid()
      ensures this.name == name && this.source == source && this.runner == runner
      ensures this.options == Settings(options)
      ensures status == Idle && worker == None && promise == None && timeoutId == None
      ensures settled == map[] && nextUrl == 0 && nextCall == 0 && log == [] && armed == {}
    {
      this.name := name;
      this.source := source;
      this.runner := runner;
      this.options := Settings(options);
      status := Idle;
      worker := None;
      promise := None;
      timeoutId := None;
      settled := map[];
      nextUrl := 0;
      nextCall := 0;
      log := [];
      phase := map[];
      armed := {};
    }

    /** `killWorker`: nothing without a worker; otherwise terminate, revoke, reset the call, drop the worker, clear the timer. */
    method KillWorker()
      requires Consistent()
      modifies this
      ensures Consistent() && KilledFrom(old(worker)) && SameCounters()
      ensures status == old(status) && settled == old(settled)
      ensures Alive() == {} && armed == {}
    {
      if worker.Some? {
        var url := worker.value;
        TrackedTeardown(log, phase, nextUrl, url, {});
        log := log + Teardown(url);
        phase := phase[url := Revoked];
        promise := None;
        worker := None;
        if timeoutId.Some? {
          armed := armed - {timeoutId.value};
        }
      }
    }

    /** `onWorkerEnd`: kill the worker under autoTerminate, then set the status. */
    method OnWorkerEnd(s: Status)
      requires Consistent() && !Outstanding()
      modifies this
      ensures Valid() && SameCounters()
      ensures status == s && settled == old(settled)
      ensures KilledFrom(if AutoTerminate() then old(worker) else None)
    {
      if AutoTerminate() {
        KillWorker();
      }
      status := s;
    }

    /** The `onmessage` handler of a worker: `idle` resolves, any other tag rejects. */
    method OnMessage(from: nat, tag: string, payload: Value)
      requires Valid() && from in Alive()
      modifies this
      ensures Valid() && SameCounters()
      ensures settled == SettlePending(old(settled), old(promise), Decode(tag, payload))
      ensures status == EndStatus(tag)
      ensures AutoTerminate() ==> worker == None && promise == None && Alive() == {} && log == old(log) + Teardown(from)
      ensures !AutoTerminate() ==> worker == old(worker) && promise == old(promise) && log == old(log)
      ensures KilledFrom(if AutoTerminate() then old(worker) else None)
      ensures armed == if AutoTerminate() then {} else old(armed)
    {
      settled := SettlePending(settled, promise, Decode(tag, payload));
      OnWorkerEnd(EndStatus(tag));
    }

    /** The `onerror` handler of a worker: reject with the error event. */
    method OnError(from: nat, e: nat)
      requires Valid() && from in Alive()
      modifies this
      ensures Valid() && SameCounters()
      ensures settled == SettlePending(old(settled), old(promise), Rejected(ErrorEvent(e)))
      ensures status == Error
      ensures AutoTerminate() ==> worker == None && promise == None && Alive() == {} && log == old(log) + Teardown(from)
      ensures !AutoTerminate() ==> worker == old(worker) && promise == old(promise) && log == old(log)
      ensures KilledFrom(if AutoTerminate() then old(worker) else None)
      ensures armed == if AutoTerminate() then {} else old(armed)
    {
      settled := SettlePending(settled, promise, Rejected(ErrorEvent(e)));
      OnWorkerEnd(Error);
    }

    /** The timer callback: kill the worker and set expired, leaving the pending call unsettled. */
    method OnTimeout(t: nat)
      requires Valid() && t in armed
      modifies this
      ensures Valid() && SameCounters()
      ensures status == Expired && settled == old(settled)
      ensures worker == None && promise == None && Alive() == {} && armed == {}
      ensures log == old(log) + Teardown(t)
    {
      armed := armed - {t};
      KillWorker();
      status := Expired;
    }

    /** `terminate`: kill the worker and set killed, from any state. */
    method Terminate()
      requires Valid()
      modifies this
      ensures Valid() && SameCounters()
      ensures KilledFrom(old(worker)) && status == Killed && settled == old(settled)
      ensures worker == None && Alive() == {}
      ensures log == old(log) + (if old(worker).Some? then Teardown(old(worker).value) else [])
    {
      KillWorker();
      status := Killed;
    }

    /** The effect after mounting: `killWorker`, with no cleanup on unmount. */
    method MountEffect()
      requires Valid()
      modifies this
      ensures Valid() && SameCounters() && KilledFrom(old(worker))
      ensures status == old(status) && settled == old(settled)
    {
      KillWorker();
    }

    /** `generateWorker`, whose result `workerHook` stores in `worker.current`. */
    method GenerateWorker()
      requires Consistent() && worker.None? && options.remoteDependencies.Given?
      modifies this
      ensures Consistent()
      ensures worker == Some(old(nextUrl)) && nextUrl == old(nextUrl) + 1
      ensures log == old(log) + [Create(old(nextUrl), Program())]
      ensures TruthyNumber(options.timeout) ==> timeoutId == Some(old(nextUrl)) && armed == old(armed) + {old(nextUrl)}
      ensures !TruthyNumber(options.timeout) ==> timeoutId == old(timeoutId) && armed == old(armed)
      ensures status == old(status) && promise == old(promise) && settled == old(settled) && nextCall == old(nextCall)
    {
      var url := CreateWorker();
      if TruthyNumber(options.timeout) {
        timeoutId := Some(url);
        armed := armed + {url};
        assert Tracked(log, phase, nextUrl, Held(), {});
      }
    }

    /** The worker made from a fresh blob URL, stored as the held one. */
    method CreateWorker() returns (url: nat)
      requires Consistent() && worker.None? && options.remoteDependencies.Given?
      modifies this
      ensures Consistent() && armed == {}
      ensures url == old(nextUrl) && worker == Some(url) && nextUrl == url + 1
      ensures log == old(log) + [Create(url, Program())] && phase == old(phase)[url := Live]
      ensures timeoutId == old(timeoutId) && armed == old(armed)
      ensures status == old(status) && promise == old(promise) && settled == old(settled) && nextCall == old(nextCall)
    {
      url := nextUrl;
      var text := Program();
      TrackedCreate(log, phase, nextUrl, {}, {}, text);
      log := log + [Create(url, text)];
      phase := phase[url := Live];
      nextUrl := nextUrl + 1;
      worker := Some(url);
    }

    /** `callWorker`: install the new call as pending, post `[[...args]]` with its transfer list, set running. */
    method CallWorker(args: seq<Value>) returns (r: InvokeResult)
      requires Consistent() && worker.Some?
      modifies this
      ensures Valid()
      ensures r == Call(old(nextCall)) && promise == Some(old(nextCall)) && nextCall == old(nextCall) + 1
      ensures status == Running && Outstanding()
      ensures log == old(log) + [Post(old(worker).value, Envelope(args), OutboundTransferList(Auto(), args))]
      ensures worker == old(worker) && settled == old(settled) && phase == old(phase) && armed == old(armed)
      ensures nextUrl == old(nextUrl) && timeoutId == old(timeoutId)
    {
      var call := nextCall;
      nextCall := nextCall + 1;
      promise := Some(call);
      var transferList := OutboundTransferList(Auto(), args);
      TrackedPost(log, phase, nextUrl, Held(), {}, worker.value, Envelope(args), transferList);
      log := log + [Post(worker.value, Envelope(args), transferList)];
      status := Running;
      r := Call(call);
    }

    /**
     * `workerHook`: refuse while running, (re)generate the worker when
     * autoTerminate is on or none is held, then call it; the throw of a
     * generation is caught and refused with the same reason.
     */
    method WorkerHook(args: seq<Value>) returns (r: InvokeResult)
      requires Valid()
      modifies this
      ensures Valid()
      ensures old(status) == Running ==> r == Refused(Message(AlreadyRunning(name))) && unchanged(this)
      ensures old(status) != Running && Regenerates(old(worker)) && GenerationThrows() ==>
        r == Refused(Message(AlreadyRunning(name))) && unchanged(this)
      ensures old(status) != Running && !(Regenerates(old(worker)) && GenerationThrows()) ==>
        var url := if Regenerates(old(worker)) then old(nextUrl) else old(worker).value;
        r == Call(old(nextCall)) && status == Running && Outstanding()
        && promise == Some(old(nextCall)) && worker == Some(url) && settled == old(settled)
        && log == old(log) + (if Regenerates(old(worker)) then [Create(url, Program())] else [])
                  + [Post(url, Envelope(args), OutboundTransferList(Auto(), args))]
        && nextCall == old(nextCall) + 1 && nextUrl == old(nextUrl) + (if Regenerates(old(worker)) then 1 else 0)
        && timeoutId == (if Regenerates(old(worker)) && TruthyNumber(options.timeout) then Some(url) else old(timeoutId))
        && armed == (if !Regenerates(old(worker)) then old(armed)
                     else if TruthyNumber(options.timeout) then {url} else {})
    {
      if status == Running {
        return Refused(Message(AlreadyRunning(name)));
      }
      if Regenerates(worker) {
        if GenerationThrows() {
          return Refused(Message(AlreadyRunning(name)));
        }
        GenerateWorker();
      }
      r := CallWorker(args);
    }
  }
}
