/**
 * Whole exchanges between a component, a controller and the job runner
 * inside its worker, with the worker's responses computed by the runner
 * from the request the controller posted.
 */
module Scenarios {
  import opened Types
  import opened Protocol
  import opened Runner
  import opened ResourceLog
  import UseWorkerFunc
  import UseWebWorker
  import UseWorker

  /** `(a, b) => a + b` on two numbers; anything else is reported as a failure. */
  function Sum(args: seq<Value>): Outcome {
    if |args| == 2 && args[0].Other? && args[1].Other? then Success(Other(args[0].n + args[1].n))
    else Failure(Other(0))
  }

  /** A function that always throws its argument list's length. */
  function Throws(args: seq<Value>): Outcome {
    Failure(Other(|args|))
  }

  /** With default options, `sum(1, 2)` resolves to 3; the controller ends idle and tears its worker down. */
  method SumResolvesToThree() returns (s: Settlement, status: Status, held: Option<nat>)
    ensures s == Resolved(Other(3)) && status == Idle && held == None
  {
    var c := new UseWebWorker.WebController("(a, b) => a + b", "jobRunner", None);
    var args := [Other(1), Other(2)];
    var r := c.WorkerHook(args);
    assert r == Call(0) && c.worker == Some(0);
    var response := JobRunner("auto", Sum, Envelope(args))[0];
    assert 0 in c.phase && c.phase[0] == ResourceLog.Live;
    c.OnMessage(0, response.status, response.payload);
    s := c.settled[0];
    status := c.status;
    held := c.worker;
  }

  /** A throwing function rejects the call with what it threw, and the controller ends in error without a worker. */
  method ThrowRejects() returns (c: UseWorkerFunc.FuncController)
    ensures fresh(c) && c.Valid() && !c.GenerationThrows() && c.AutoTerminate()
    ensures c.settled == map[0 := Rejected(Payload(Other(1)))] && c.status == Error
    ensures c.worker == None && c.nextCall == 1 && c.nextUrl == 1
  {
    c := new UseWorkerFunc.FuncController("boom", "(x) => { throw 1 }", "jobRunner", None);
    var r := c.WorkerHook([Other(5)]);
    assert r == Call(0) && c.worker == Some(0);
    var response := JobRunner("auto", Throws, Envelope([Other(5)]))[0];
    assert response.status == "error" && "error"[0] != "idle"[0];
    assert 0 in c.phase && c.phase[0] == ResourceLog.Live;
    c.OnMessage(0, response.status, response.payload);
  }

  /**
   * After the rejection, the next call runs on a fresh worker: URL 1, minted
   * by this call, since the first call's worker had URL 0.
   */
  method ThrowThenRetry() returns (first: Settlement, afterFirst: Status, second: InvokeResult, held: Option<nat>, status: Status)
    ensures first == Rejected(Payload(Other(1))) && afterFirst == Error
    ensures second == Call(1) && held == Some(1) && status == Running
  {
    var c := ThrowRejects();
    first := c.settled[0];
    afterFirst := c.status;
    second := c.WorkerHook([Other(6)]);
    held := c.worker;
    status := c.status;
  }

  /**
   * A call with a truthy timeout arms a timer for its worker; when it fires,
   * the worker is torn down and the controller expires with the call still
   * unsettled.
   */
  method TimeoutExpires() returns (status: Status, held: Option<nat>, settled: bool)
    ensures status == Expired && held == None && !settled
  {
    var c := new UseWorkerFunc.FuncController("slow", "() => { while (true) {} }", "jobRunner", Some(Options(Given(100), Absent, Absent, Absent)));
    var r := c.WorkerHook([]);
    assert r == Call(0) && c.armed == {0};
    c.OnTimeout(0);
    status := c.status;
    held := c.worker;
    settled := 0 in c.settled;
  }

  /** A second invocation while the first is running is refused, naming the function. */
  method SecondCallRefused() returns (second: InvokeResult, pending: Option<nat>)
    ensures second == Refused(Message(UseWorkerFunc.AlreadyRunning("sum"))) && pending == Some(0)
  {
    var c := new UseWorkerFunc.FuncController("sum", "(a, b) => a + b", "jobRunner", None);
    var _ := c.WorkerHook([Other(1), Other(2)]);
    second := c.WorkerHook([Other(3), Other(4)]);
    pending := c.promise;
  }

  /**
   * useWebWorker with an options object that leaves autoTerminate out: the
   * settled worker is kept, and the next call replaces it by a fresh one
   * without terminating it, so the first URL stays live and unreferenced.
   */
  method WebWorkerOrphan() returns (c: UseWebWorker.WebController)
    ensures c.Valid() && c.worker == Some(1) && 0 in c.orphans && 0 in c.Alive()
  {
    c := new UseWebWorker.WebController("(a, b) => a + b", "jobRunner", Some(Options(Absent, Absent, Absent, Absent)));
    assert c.Regenerate() && !c.KillOnEnd() && !c.GenerationThrows();
    var args := [Other(1), Other(2)];
    var _ := c.WorkerHook(args);
    assert c.worker == Some(0);
    var response := JobRunner("auto", Sum, Envelope(args))[0];
    assert response.status == "idle";
    assert 0 in c.phase && c.phase[0] == ResourceLog.Live;
    c.OnMessage(0, response.status, response.payload);
    assert c.worker == Some(0) && !c.isRunning && c.nextUrl == 1;
    var _ := c.WorkerHook(args);
    assert 0 in c.phase && c.phase[0] == ResourceLog.Live;
  }

  /** The same options object on use-react-workers' controller: the spread supplies `true`, and nothing is left live. */
  method FuncNoOrphan() returns (held: Option<nat>, status: Status)
    ensures held == None && status == Idle
  {
    var c := new UseWorkerFunc.FuncController("sum", "(a, b) => a + b", "jobRunner", Some(Options(Absent, Absent, Absent, Absent)));
    var args := [Other(1), Other(2)];
    var _ := c.WorkerHook(args);
    var response := JobRunner("auto", Sum, Envelope(args))[0];
    assert 0 in c.phase && c.phase[0] == ResourceLog.Live;
    c.OnMessage(0, response.status, response.payload);
    held := c.worker;
    status := c.status;
  }

  /** A persistent worker keeps running and hands every message it posts to the installed callback. */
  method PersistentDelivers() returns (delivered: seq<(nat, Value)>, status: Status)
    ensures delivered == [(7, Other(1)), (7, Other(2))] && status == Running
  {
    var c := new UseWorker.PersistentController("timer", "jobRunner", None);
    var _ := c.PostMessage([Other(2)]);
    c.OnMessage(7);
    assert 0 in c.phase && c.phase[0] == ResourceLog.Live;
    c.OnWorkerMessage(0, Other(1));
    assert 0 in c.phase && c.phase[0] == ResourceLog.Live;
    c.OnWorkerMessage(0, Other(2));
    delivered := c.delivered;
    status := c.status;
  }

  /** After `terminate`, the next message starts a fresh persistent worker at the next URL. */
  method PersistentTerminateThenPost() returns (first: Option<nat>, afterKill: Option<nat>, second: Option<nat>, status: Status)
    ensures first == Some(0) && afterKill == None && second == Some(1) && status == Running
  {
    var c := new UseWorker.PersistentController("timer", "jobRunner", None);
    var _ := c.PostMessage([Other(2)]);
    first := c.worker;
    c.Terminate();
    afterKill := c.worker;
    var _ := c.PostMessage([Other(3)]);
    second := c.worker;
    status := c.status;
  }

  /** Under autoTerminate a persistent worker dies as soon as a callback is installed. */
  method PersistentAutoTerminate() returns (held: Option<nat>, status: Status, delivered: seq<(nat, Value)>)
    ensures held == None && status == Idle && delivered == []
  {
    var c := new UseWorker.PersistentController("timer", "jobRunner", Some(Options(Absent, Absent, Given(true), Absent)));
    var _ := c.PostMessage([Other(2)]);
    c.OnMessage(7);
    held := c.worker;
    status := c.status;
    delivered := c.delivered;
  }
}
