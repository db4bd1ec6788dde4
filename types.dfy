/** Values, statuses and option records shared by the three worker controllers. */
module Types {

  datatype Option<T> = None | Some(value: T)

  /** The lifecycle states of a controller (enum WorkerStatus). */
  datatype Status = Idle | Running | Error | Expired | Killed

  /** The transfer policy (enum TRANSFERABLE_TYPE), with the text of its enum value. */
  datatype TransferableType = AUTO | NONE {
    function Text(): (s: string)
      ensures s == "auto" <==> this == AUTO
    {
      if this == AUTO then "auto" else "none"
    }
  }

  /**
   * A value crossing the worker boundary. The four transferable kinds stand
   * for the platform classes the source probes with `instanceof`; an array is
   * a plain container whose elements are never looked at by the transfer rule;
   * everything else is an ordinary cloned value.
   */
  datatype Value =
    | ArrayBuffer(id: nat)
    | MessagePort(id: nat)
    | ImageBitmap(id: nat)
    | OffscreenCanvas(id: nat)
    | Array(items: seq<Value>)
    | Other(n: int)

  /** Why a call's promise was rejected. */
  datatype Reason =
    | Payload(v: Value)     // the payload of a non-`idle` response
    | ErrorEvent(id: nat)   // an error event raised by the worker itself
    | Message(text: string) // a rejection built by the controller
    | NoReason              // `Promise.reject()` with no argument

  /** How a call's promise settled. */
  datatype Settlement = Resolved(v: Value) | Rejected(reason: Reason)

  /** What invoking a controller gives back synchronously. */
  datatype InvokeResult =
    | Call(id: nat)          // a promise that is settled later through the pending call `id`
    | Refused(reason: Reason) // an already rejected promise
    | Thrown                 // an exception escaping the invocation

  /**
   * One property of a JavaScript options object: missing, present and
   * `undefined`, present and `null`, or present with a value.
   */
  datatype Js<T> = Absent | Undefined | Null | Given(value: T)

  datatype Options = Options(
    timeout: Js<int>,
    remoteDependencies: Js<seq<string>>,
    autoTerminate: Js<bool>,
    transferable: Js<TransferableType>)

  /** Object spread `{ ...base, ...over }`: every property present in `over` wins, even `undefined`. */
  function Spread(base: Options, over: Options): (r: Options)
    ensures r.timeout == (if over.timeout.Absent? then base.timeout else over.timeout)
    ensures r.remoteDependencies == (if over.remoteDependencies.Absent? then base.remoteDependencies else over.remoteDependencies)
    ensures r.autoTerminate == (if over.autoTerminate.Absent? then base.autoTerminate else over.autoTerminate)
    ensures r.transferable == (if over.transferable.Absent? then base.transferable else over.transferable)
  {
    Options(
      SpreadField(base.timeout, over.timeout),
      SpreadField(base.remoteDependencies, over.remoteDependencies),
      SpreadField(base.autoTerminate, over.autoTerminate),
      SpreadField(base.transferable, over.transferable))
  }

  function SpreadField<T>(base: Js<T>, over: Js<T>): Js<T> {
    if over.Absent? then base else over
  }

  /** A parameter with a default, `options = defaults`: the default replaces only a missing argument. */
  function WithDefault(options: Option<Options>, defaults: Options): Options {
    if options.Some? then options.value else defaults
  }

  /** JavaScript truthiness of a boolean property. */
  predicate TruthyBool(b: Js<bool>) {
    b == Given(true)
  }

  /** JavaScript truthiness of a numeric property (`if (timeout)`); 0 is falsy. */
  predicate TruthyNumber(t: Js<int>) {
    t.Given? && t.value != 0
  }

  /** The text a template literal `'${transferable}'` embeds for a property. */
  function JsText(t: Js<TransferableType>): string {
    match t
    case Absent => "undefined"
    case Undefined => "undefined"
    case Null => "null"
    case Given(v) => v.Text()
  }

  /**
   * Calls resolve or reject of the pending call: nothing happens without a
   * pending call, nor for a promise that has settled already.
   */
  function SettlePending(settled: map<nat, Settlement>, pending: Option<nat>, s: Settlement): (r: map<nat, Settlement>)
    ensures forall c :: c in settled ==> c in r && r[c] == settled[c]
    ensures r.Keys == settled.Keys + (if pending.Some? then {pending.value} else {})
    ensures pending.Some? && pending.value !in settled ==> r[pending.value] == s
  {
    if pending.Some? && pending.value !in settled then settled[pending.value := s] else settled
  }

  lemma SpreadOverNothing(base: Options)
    ensures Spread(base, Options(Absent, Absent, Absent, Absent)) == base
  {}

  lemma {:induction false} JsTextAutoOnlyForAuto(t: Js<TransferableType>)
    ensures JsText(t) == "auto" <==> t == Given(AUTO)
  {
    match t
    case Absent => assert "undefined"[0] != "auto"[0];
    case Undefined => assert "undefined"[0] != "auto"[0];
    case Null => assert "null"[0] != "auto"[0];
    case Given(v) =>
  }
}
