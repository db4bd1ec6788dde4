/**
 * The controller of useWebWorker's `useWorkerFunc`, which `useWebWorker`
 * repeats under another name. It reads the raw options object at each use,
 * with two different ways of defaulting `autoTerminate`: a call regenerates
 * the worker unless the flag is `false`, while a settlement kills it only when
 * the flag is `true` or `null`. When the two disagree (the flag is missing
 * or `undefined`), a settled worker is kept and the next call overwrites it
 * with a fresh one without terminating it: the old worker becomes an orphan.
 */
module UseWebWorker {
  import opened Types
  import opened Protocol
  import opened Programs
  import opened ResourceLog

  /** `defaultOptions` (`DEFAULT_OPTIONS` in `useWebWorker`). */
  function DefaultOptions(): Options {
    Options(Undefined, Given([]), Given(true), Given(AUTO))
  }

  /** `options.autoTerminate != null ? options.autoTerminate : true`, as a condition. */
  function RegenerateFlag(at: Js<bool>): (r: bool)
    ensures !r <==> at == Given(false)
  {
    match at
    case Given(b) => b
    case _ => true
  }

  /** `options.autoTerminate !== null ? options.autoTerminate : true`, as a condition. */
  function KillFlag(at: Js<bool>): (r: bool)
    ensures r <==> at == Given(true) || at == Null
  {
    match at
    case Given(b) => b
    case Null => true
    case _ => false
  }

  /** A destructuring default `{ x = d } = options`: it replaces a missing or `undefined` property, not `null`. */
  function Defaulted<T>(x: Js<T>, d: T): (r: Js<T>)
    ensures x.Absent? || x.Undefined? ==> r == Given(d)
    ensures !(x.Absent? || x.Undefined?) ==> r == x
  {
    if x.Absent? || x.Undefined? then Given(d) else x
  }

  /** The two decisions disagree exactly for a missing or `undefined` flag, where a call regenerates and a settlement keeps. */
  lemma FlagsDisagree(at: Js<bool>)
    ensures RegenerateFlag(at) != KillFlag(at) <==> at.Absent? || at.Undefined?
    ensures RegenerateFlag(at) != KillFlag(at) ==> RegenerateFlag(at) && !KillFlag(at)
  {}

  class WebController {
    const source: string    // the source text of fn
    const runner: string    // the source text of the job runner
    const options: Options  // the options object, `defaultOptions` when none is passed

    var status: Status
    var isRunning: bool          // isRunning.current, kept equal to `status == running` by an effect
    var worker: Option<nat>      // worker.current, known by its blob URL
    var promise: Option<nat>     // promise.current: the pending call, None for `{}`
    var timeoutId: Option<nat>   // timeoutId.current, the timer named after the worker it was set for
    var settled: map<nat, Settlement>
    var nextUrl: nat
    var nextCall: nat

    ghost var log: seq<Event>
    ghost var phase: map<nat, Phase>
    ghost var armed: set<nat>     // timers set and neither cleared nor fired
    ghost var orphans: set<nat>   // live workers no reference is left to

    predicate Regenerate() {
      RegenerateFlag(options.autoTerminate)
    }

    predicate KillOnEnd() {
      KillFlag(options.autoTerminate)
    }

    /** The two readings of `autoTerminate` agree. */
    predicate Agree() {
      Regenerate() == KillOnEnd()
    }

    function Transferable(): Js<TransferableType> {
      Defaulted(options.transferable, AUTO)
    }

    function Dependencies(): Js<seq<string>> {
      Defaulted(options.remoteDependencies, [])
    }

    predicate Auto() {
      Transferable() == Given(AUTO)
    }

    /** `importScriptsFromDeps(null)` throws; a missing or `undefined` list has been defaulted. */
    predicate GenerationThrows() {
      !Dependencies().Given?
    }

    function Program(): string
      requires Dependencies().Given?
    {
      ParenthesisedWorkerProgram(Dependencies().value, runner, source, JsText(Transferable()))
    }

    predicate Outstanding() reads this {
      promise.Some? && promise.value !in settled
    }

    ghost function Alive(): set<nat> reads this {
      LiveUrls(phase)
    }

    /** The worker `worker.current` refers to, as a set. */
    function Held(): set<nat> reads this {
      if worker.Some? then {worker.value} else {}
    }

    ghost predicate Consistent() reads this {
      Tracked(log, phase, nextUrl, Held(), orphans)
      && (promise.Some? ==> promise.value < nextCall)
      && (forall c :: c in settled ==> c < nextCall)
      && armed <= phase.Keys
      && (Agree() ==> orphans == {} && forall t :: t in armed ==> worker == Some(t) && timeoutId == Some(t))
    }

    /**
     * The controller invariant: the log is well formed, every live worker is
     * the held one or an orphan (and none is an orphan when the two readings
     * agree), `isRunning` mirrors the status, an outstanding call means
     * running, and under the kill reading a worker is held only while running.
     */
    ghost predicate Valid() reads this {
      Consistent()
      && (isRunning <==> status == Running)
      && (Outstanding() ==> status == Running && worker.Some?)
      && (KillOnEnd() && worker.Some? ==> status == Running)
    }

    twostate predicate KilledFrom(w: Option<nat>) reads this {
      if w.None? then
        log == old(log) && phase == old(phase) && worker == old(worker) && promise == old(promise) && armed == old(armed)
      else
        log == old(log) + Teardown(w.value) && phase == old(phase)[w.value := Revoked]
        && worker == None && promise == None
        && armed == old(armed) - (if timeoutId.Some? then {timeoutId.value} else {})
    }

    twostate predicate SameCounters() reads this {
      nextUrl == old(nextUrl) && nextCall == old(nextCall) && timeoutId == old(timeoutId) && orphans == old(orphans)
    }

    constructor (source: string, runner: string, options: Option<Options>)
      ensures Valid()
      ensures this.source == source && this.runner == runner
      ensures this.options == WithDefault(options, DefaultOptions())
      ensures status == Idle && !isRunning && worker == None && promise == None && timeoutId == None
      ensures settled == map[] && nextUrl == 0 && nextCall == 0 && log == [] && armed == {} && orphans == {}
    {
      this.source := source;
      this.runner := runner;
      this.options := WithDefault(options, DefaultOptions());
      status := Idle;
      isRunning := false;
      worker := None;
      promise := None;
      timeoutId := None;
      settled := map[];
      nextUrl := 0;
      nextCall := 0;
      log := [];
      phase := map[];
      armed := {};
      orphans := {};
    }

    /** `setWorkerStatus`, followed by the effect that mirrors it into `isRunning`. */
    method SetStatus(s: Status)
      modifies this
      ensures status == s && (isRunning <==> s == Running)
      ensures worker == old(worker) && promise == old(promise) && timeoutId == old(timeoutId) && settled == old(settled)
      ensures nextUrl == old(nextUrl) && nextCall == old(nextCall)
      ensures log == old(log) && phase == old(phase) && armed == old(armed) && orphans == old(orphans)
    {
      status := s;
      isRunning := s == Running;
    }

    /** `killWorker`: nothing without a worker; otherwise terminate, revoke, reset the call to `{}`, drop the worker, clear the timer. */
    method KillWorker()
      requires Consistent()
      modifies this
      ensures Consistent() && KilledFrom(old(worker)) && SameCounters()
      ensures status == old(status) && isRunning == old(isRunning) && settled == old(settled)
      ensures Alive() == old(orphans)
      ensures Agree() ==> Alive() == {} && armed == {}
    {
      if worker.Some? {
        var url := worker.value;
        TrackedTeardown(log, phase, nextUrl, url, orphans);
        log := log + Teardown(url);
        phase := phase[url := Revoked];
        promise := None;
        worker := None;
        if timeoutId.Some? {
          armed := armed - {timeoutId.value};
        }
      }
    }

    /** `onWorkerEnd`: kill the worker when the kill reading holds, then set the status. */
    method OnWorkerEnd(s: Status)
      requires Consistent() && !Outstanding() && s != Running
      modifies this
      ensures Valid() && SameCounters()
      ensures status == s && settled == old(settled)
      ensures KilledFrom(if KillOnEnd() then old(worker) else None)
    {
      if KillOnEnd() {
        KillWorker();
      }
      SetStatus(s);
    }

    /** The `onmessage` handler: `idle` resolves the pending call, any other tag rejects it; `{}` ignores both. */
    method OnMessage(from: nat, tag: string, payload: Value)
      requires Valid() && from in Alive()
      modifies this
      ensures Valid() && SameCounters()
      ensures settled == SettlePending(old(settled), old(promise), Decode(tag, payload))
      ensures status == EndStatus(tag)
      ensures KillOnEnd() ==>
        (worker == None && promise == None
         && log == old(log) + (if old(worker).Some? then Teardown(old(worker).value) else []))
      ensures KillOnEnd() && Agree() ==> log == old(log) + Teardown(from) && Alive() == {}
      ensures !KillOnEnd() ==> worker == old(worker) && promise == old(promise) && log == old(log)
      ensures KilledFrom(if KillOnEnd() then old(worker) else None)
    {
      settled := SettlePending(settled, promise, Decode(tag, payload));
      OnWorkerEnd(EndStatus(tag));
    }

    /** The `onerror` handler: reject the pending call with the error event. */
    method OnError(from: nat, e: nat)
      requires Valid() && from in Alive()
      modifies this
      ensures Valid() && SameCounters()
      ensures settled == SettlePending(old(settled), old(promise), Rejected(ErrorEvent(e)))
      ensures status == Error
      ensures KillOnEnd() ==>
        (worker == None && promise == None
         && log == old(log) + (if old(worker).Some? then Teardown(old(worker).value) else []))
      ensures KillOnEnd() && Agree() ==> log == old(log) + Teardown(from) && Alive() == {}
      ensures !KillOnEnd() ==> worker == old(worker) && promise == old(promise) && log == old(log)
      ensures KilledFrom(if KillOnEnd() then old(worker) else None)
    {
      settled := SettlePending(settled, promise, Rejected(ErrorEvent(e)));
      OnWorkerEnd(Error);
    }

    /**
     * The timer callback: kill whatever worker is held and set expired,
     * leaving the pending call unsettled. When the readings agree, the timer
     * belongs to the held worker.
     */
    method OnTimeout(t: nat)
      requires Valid() && t in armed
      modifies this
      ensures Valid() && SameCounters()
      ensures status == Expired && settled == old(settled)
      ensures worker == None && t !in armed
      ensures promise == if old(worker).Some? then None else old(promise)
      ensures log == old(log) + (if old(worker).Some? then Teardown(old(worker).value) else [])
      ensures Agree() ==> old(worker) == Some(t) && Alive() == {}
      ensures armed == old(armed) - {t} - (if old(worker).Some? && timeoutId.Some? then {timeoutId.value} else {})
    {
      armed := armed - {t};
      KillWorker();
      SetStatus(Expired);
    }

    /** `kill` on the controller: kill the worker and set killed. */
    method Kill()
      requires Valid()
      modifies this
      ensures Valid() && SameCounters()
      ensures status == Killed && settled == old(settled)
      ensures worker == None && Alive() == orphans
      ensures log == old(log) + (if old(worker).Some? then Teardown(old(worker).value) else [])
      ensures KilledFrom(old(worker))
    {
      KillWorker();
      SetStatus(Killed);
    }

    /** The cleanup run on unmount: `killWorker`. */
    method Dispose()
      requires Valid()
      modifies this
      ensures Valid() && SameCounters() && KilledFrom(old(worker))
      ensures status == old(status) && settled == old(settled)
      ensures Alive() == orphans
    {
      KillWorker();
    }

    /** `generateWorker`: a fresh worker replaces the held one, which is not terminated. */
    method GenerateWorker()
      requires Consistent() && Dependencies().Given? && (Agree() ==> worker.None?)
      modifies this
      ensures Consistent()
      ensures worker == Some(old(nextUrl)) && nextUrl == old(nextUrl) + 1
      ensures log == old(log) + [Create(old(nextUrl), Program())]
      ensures orphans == old(orphans) + (if old(worker).Some? then {old(worker).value} else {})
      ensures TruthyNumber(options.timeout) ==> timeoutId == Some(old(nextUrl)) && armed == old(armed) + {old(nextUrl)}
      ensures !TruthyNumber(options.timeout) ==> timeoutId == old(timeoutId) && armed == old(armed)
      ensures status == old(status) && isRunning == old(isRunning) && promise == old(promise)
      ensures settled == old(settled) && nextCall == old(nextCall)
    {
      var url := CreateWorker();
      assert url in phase;
      if TruthyNumber(options.timeout) {
        timeoutId := Some(url);
        armed := armed + {url};
        assert Tracked(log, phase, nextUrl, Held(), orphans);
        assert armed <= phase.Keys && (Agree() ==> armed == {url});
      }
    }

    /** The worker made from a fresh blob URL, stored as the held one. */
    method CreateWorker() returns (url: nat)
      requires Consistent() && Dependencies().Given? && (Agree() ==> worker.None?)
      modifies this
      ensures Consistent() && (Agree() ==> armed == {})
      ensures url == old(nextUrl) && worker == Some(url) && nextUrl == url + 1
      ensures log == old(log) + [Create(url, Program())] && phase == old(phase)[url := Live]
      ensures orphans == old(orphans) + (if old(worker).Some? then {old(worker).value} else {})
      ensures timeoutId == old(timeoutId) && armed == old(armed)
      ensures status == old(status) && isRunning == old(isRunning) && promise == old(promise)
      ensures settled == old(settled) && nextCall == old(nextCall)
    {
      url := nextUrl;
      var text := Program();
      TrackedCreate(log, phase, nextUrl, Held(), orphans, text);
      log := log + [Create(url, text)];
      phase := phase[url := Live];
      nextUrl := nextUrl + 1;
      orphans := orphans + Held();
      worker := Some(url);
    }

    /** `callWorker`: install the new call as pending, post `[[...args]]` with its transfer list, set running. */
    method CallWorker(args: seq<Value>) returns (r: InvokeResult)
      requires Consistent() && worker.Some?
      modifies this
      ensures Valid()
      ensures r == Call(old(nextCall)) && promise == Some(old(nextCall)) && nextCall == old(nextCall) + 1
      ensures status == Running && isRunning && Outstanding()
      ensures log == old(log) + [Post(old(worker).value, Envelope(args), OutboundTransferList(Auto(), args))]
      ensures worker == old(worker) && settled == old(settled) && phase == old(phase) && armed == old(armed)
      ensures nextUrl == old(nextUrl) && timeoutId == old(timeoutId) && orphans == old(orphans)
    {
      var call := nextCall;
      nextCall := nextCall + 1;
      promise := Some(call);
      var transferList := OutboundTransferList(Auto(), args);
      TrackedPost(log, phase, nextUrl, Held(), orphans, worker.value, Envelope(args), transferList);
      log := log + [Post(worker.value, Envelope(args), transferList)];
      SetStatus(Running);
      r := Call(call);
    }

    /**
     * `workerHook`: refuse with no reason while running, (re)generate the
     * worker when the regeneration reading holds or none is held, then call
     * it; a throw while generating escapes. The held worker is orphaned only
     * when the readings disagree.
     */
    method WorkerHook(args: seq<Value>) returns (r: InvokeResult)
      requires Valid()
      modifies this
      ensures Valid()
      ensures old(isRunning) ==> r == Refused(NoReason) && unchanged(this)
      ensures !old(isRunning) && (Regenerate() || old(worker).None?) && GenerationThrows() ==>
        r == Thrown && unchanged(this)
      ensures !old(isRunning) && !((Regenerate() || old(worker).None?) && GenerationThrows()) ==>
        var made := Regenerate() || old(worker).None?;
        var url := if made then old(nextUrl) else old(worker).value;
        r == Call(old(nextCall)) && status == Running && Outstanding()
        && promise == Some(old(nextCall)) && worker == Some(url) && settled == old(settled)
        && log == old(log) + (if made then [Create(url, Program())] else [])
                  + [Post(url, Envelope(args), OutboundTransferList(Auto(), args))]
        && orphans == old(orphans) + (if made && old(worker).Some? then {old(worker).value} else {})
        && nextCall == old(nextCall) + 1 && nextUrl == old(nextUrl) + (if made then 1 else 0)
        && timeoutId == (if made && TruthyNumber(options.timeout) then Some(url) else old(timeoutId))
        && armed == old(armed) + (if made && TruthyNumber(options.timeout) then {url} else {})
      ensures Agree() ==> orphans == {}
    {
      if isRunning {
        return Refused(NoReason);
      }
      if Regenerate() || worker.None? {
        if GenerationThrows() {
          return Thrown;
        }
        GenerateWorker();
      }
      r := CallWorker(args);
    }
  }
}
