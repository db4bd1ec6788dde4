/**
 * The message handlers that run inside a worker: the job runner, which answers
 * every request with one response, and the persistent runner, which answers
 * nothing. The user function is an abstract map from arguments to an outcome.
 */
module Runner {
  import opened Types
  import opened Protocol
  import opened Programs

  /**
   * What calling the user function and awaiting `Promise.resolve` of its
   * result gives: a value (returned, or a promise that resolved) or an error
   * (thrown synchronously, or a promise that rejected).
   */
  datatype Outcome = Success(value: Value) | Failure(error: Value)

  /** One `postMessage([status, payload], transferList)` from the worker. */
  datatype Response = Response(status: string, payload: Value, transfer: seq<Value>)

  /**
   * The job runner for one request `data`; `transferable` is the policy
   * literal embedded in the program. The result is the list of messages it
   * posts.
   */
  function JobRunner(transferable: string, fn: seq<Value> -> Outcome, data: seq<seq<Value>>): (posted: seq<Response>)
    requires |data| >= 1
    ensures |posted| == 1
    ensures posted[0].status == "idle" || posted[0].status == "error"
  {
    var userFuncArgs := Arguments(data);
    match fn(userFuncArgs)
    case Success(result) => [Response("idle", result, ResultTransferList(transferable, result))]
    case Failure(error) => [Response("error", error, [])]
  }

  /**
   * The persistent runner: the user function is applied to the arguments, its
   * result is dropped and nothing is posted; the outcome is not caught, so a
   * failure posts nothing either.
   */
  function PersistentRunner(fn: seq<Value> -> Outcome, data: seq<seq<Value>>): (r: (seq<Value>, seq<Response>))
    requires |data| >= 1
    ensures r.0 == data[0]
    ensures r.1 == []
  {
    var userFuncArgs := Arguments(data);
    var _ := fn(userFuncArgs);
    (userFuncArgs, [])
  }

  /** The settlement a controller reaches from the response to a request. */
  function Settles(transferable: string, fn: seq<Value> -> Outcome, args: seq<Value>): Settlement {
    var r := JobRunner(transferable, fn, Envelope(args))[0];
    Decode(r.status, r.payload)
  }

  /**
   * Round trip through the worker: a call settles with what the function
   * gives for exactly the arguments sent, resolved for a value and rejected
   * with the error as reason.
   */
  lemma CallSettlesWithOutcome(transferable: string, fn: seq<Value> -> Outcome, args: seq<Value>)
    ensures fn(args).Success? ==> Settles(transferable, fn, args) == Resolved(fn(args).value)
    ensures fn(args).Failure? ==> Settles(transferable, fn, args) == Rejected(Payload(fn(args).error))
    ensures EndStatus(JobRunner(transferable, fn, Envelope(args))[0].status) == (if fn(args).Success? then Idle else Error)
  {
    EnvelopeRoundTrip(args);
  }

  /** A failure is reported under the tag `error`, with no transfer list. */
  lemma FailureResponse(transferable: string, fn: seq<Value> -> Outcome, data: seq<seq<Value>>)
    requires |data| >= 1
    ensures fn(data[0]).Failure? ==> JobRunner(transferable, fn, data) == [Response("error", fn(data[0]).error, [])]
    ensures JobRunner(transferable, fn, data)[0].status == "error" ==> fn(data[0]).Failure?
  {}

  /**
   * Inside a worker made from a controller's template, the result is handed
   * over exactly when the controller's own policy is `auto` and the result
   * itself is one of the four transferable kinds.
   */
  lemma WorkerResultTransfer(deps: seq<string>, runner: string, src: string, t: Js<TransferableType>,
                             fn: seq<Value> -> Outcome, args: seq<Value>)
    requires fn(args).Success?
    ensures var text := WorkerProgram(deps, runner, src, JsText(t));
      EmbeddedTransferable(text).Some? &&
      JobRunner(EmbeddedTransferable(text).value, fn, Envelope(args))[0].transfer
        == OutboundTransferList(t == Given(AUTO), [fn(args).value])
    ensures var text := ParenthesisedWorkerProgram(deps, runner, src, JsText(t));
      EmbeddedTransferable(text).Some? &&
      JobRunner(EmbeddedTransferable(text).value, fn, Envelope(args))[0].transfer
        == OutboundTransferList(t == Given(AUTO), [fn(args).value])
  {
    JsTextQuoteFree(t);
    WorkerProgramTransferable(deps, runner, src, JsText(t));
    ResultRuleIsOutboundRule(t, fn(args).value);
  }
}
