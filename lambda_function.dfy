/** The AWS Lambda function operations (aws_lambda_function.go). A start records a mutable
    record at once and hands it to an asynchronous runner, which later marks it SUCCEEDED or
    FAILED; each poll reads the record. The numeric statuses are the file's own: 1 for
    success, 2 for failure, 3 for still running. */
module LambdaFunction {
  import opened Options
  import opened Errors
  import opened Response
  import opened Aws
  import opened Plugin
  import opened Reply
  import Request
  import Status

  /** aws_lambda_function.go: `CheckIfLambdaFunctionExists`, given the outcome of
      `GetFunction` on the request's ARN. */
  function CheckIfLambdaFunctionExists(out: CallOutcome<()>): (r: PluginResponse)
    ensures r.executionError.Some? <==> !out.Returned?
    ensures r.requestError.None? && !r.shouldRequeue && r.requeueDuration.None?
    ensures out.Returned? ==> r.message == out.serialized && r.status == 1
    ensures !out.Returned? ==> r.status == 2
    ensures !out.Returned? ==>
      r.executionError.value.Message() == FailureText(out, "failed to describe aws lambda function: ",
        "failed to pack aws lambda function check response: ")
  {
    if out.Returned? then EmptyResponse.(message := out.serialized, status := 1)
    else ExecutionFailure(FailureText(out, "failed to describe aws lambda function: ",
                                      "failed to pack aws lambda function check response: "), 2)
  }

  const RunningState := "RUNNING"
  const SucceededState := "SUCCEEDED"
  const FailedState := "FAILED"
  const RunningMessage := "running aws lambda function async execution"
  const StartedMessage := "started aws lambda function async execution"

  /** The requeue interval the lambda responses ask for, in seconds. */
  const LambdaRequeueSeconds := 5

  /** What `StartLambdaFunctionExecution` returns, before the invocation has run. */
  const StartedResponse := EmptyResponse.(message := StartedMessage, shouldRequeue := true,
                                          requeueDuration := Some(LambdaRequeueSeconds), status := 3)

  /** aws_lambda_function.go: `StartLambdaFunctionExecution`. Records a fresh RUNNING record
      under the workflow run's uid, replacing any earlier one, and returns it for the runner
      the source starts as a goroutine. */
  method StartLambdaFunctionExecution(ex: ExecutorPlugin, workflowID: string)
    returns (r: PluginResponse, wf: PluginWorkflow)
    requires ex.workflows.Some?
    modifies ex`workflows
    ensures fresh(wf) && wf.status == RunningState && wf.message == RunningMessage
    ensures ex.workflows == Some(old(ex.workflows.value)[workflowID := wf])
    ensures r == StartedResponse
  {
    wf := new PluginWorkflow("", RunningState, RunningMessage);
    ex.Put(workflowID, wf);
    r := StartedResponse;
  }

  /** The result of the `Invoke` round trip: the call fails, the code after it panics (the
      runner recovers and keeps the panic's message), the output cannot be serialised, or it
      is serialised. */
  datatype InvokeOutcome =
    | InvocationFailed(err: string)
    | InvocationPanicked(panicMessage: string)
    | OutputPackFailed(err: string)
    | Invoked(serialized: string)

  /** The collaborators of one asynchronous invocation: session creation, `json.Marshal` of
      the request's parameters, and `Invoke`, given the function name and the payload. */
  datatype LambdaRuntime = LambdaRuntime(
    sessionError: Option<string>,
    marshal: map<string, string> -> Result<string>,
    invoke: (string, string) -> InvokeOutcome)

  /** The invocation payload: `{}` without parameters, their JSON otherwise. */
  function Payload(parameters: Option<map<string, string>>, marshal: map<string, string> -> Result<string>): (p: Result<string>)
    ensures parameters.None? ==> p == Ok("{}")
    ensures parameters.Some? ==> p == marshal(parameters.value)
  {
    match parameters
    case None => Ok("{}")
    case Some(params) => marshal(params)
  }

  /** The status and message a record ends with. */
  datatype RunResult = RunResult(status: string, message: string)

  /** Where `InvokeLambdaFunctionAsync` leaves the record. */
  function RunnerOutcome(req: Request.Request, rt: LambdaRuntime): (o: RunResult)
    // Every run ends in exactly one of the two terminal states.
    ensures o.status == SucceededState || o.status == FailedState
    // Success needs a session, a payload and a serialised output of the invocation.
    ensures o.status == SucceededState <==>
      rt.sessionError.None? && Payload(req.parameters, rt.marshal).Ok? &&
      rt.invoke(req.lambdaFunctionName, Payload(req.parameters, rt.marshal).value).Invoked?
    ensures o.status == SucceededState ==>
      o.message == rt.invoke(req.lambdaFunctionName, Payload(req.parameters, rt.marshal).value).serialized
    ensures rt.sessionError.Some? ==> o.message == SessionFailureText + rt.sessionError.value
  {
    if rt.sessionError.Some? then RunResult(FailedState, SessionFailureText + rt.sessionError.value)
    else match Payload(req.parameters, rt.marshal)
      case Err(e) => RunResult(FailedState, "failed to build aws lambda invocation payload: " + e)
      case Ok(payload) =>
        match rt.invoke(req.lambdaFunctionName, payload)
        case InvocationFailed(e) => RunResult(FailedState, "aws lambda invocation failed: " + e)
        case InvocationPanicked(m) => RunResult(FailedState, m)
        case OutputPackFailed(e) => RunResult(FailedState, "failed to pack aws lambda invocation response: " + e)
        case Invoked(b) => RunResult(SucceededState, b)
  }

  /** aws_lambda_function.go: `InvokeLambdaFunctionAsync`, run to completion on its record. Each
      failure writes FAILED with its message and stops; success writes SUCCEEDED with the
      serialised output. The record's id is never touched. */
  method InvokeLambdaFunctionAsync(req: Request.Request, wf: PluginWorkflow, rt: LambdaRuntime)
    modifies wf`status, wf`message
    ensures RunResult(wf.status, wf.message) == RunnerOutcome(req, rt)
  {
    if rt.sessionError.Some? {
      wf.status := FailedState;
      wf.message := SessionFailureText + rt.sessionError.value;
      return;
    }
    var payload := "{}";
    if req.parameters.Some? {
      var marshalled := rt.marshal(req.parameters.value);
      if marshalled.Err? {
        wf.status := FailedState;
        wf.message := "failed to build aws lambda invocation payload: " + marshalled.error;
        return;
      }
      payload := marshalled.value;
    }
    var output := rt.invoke(req.lambdaFunctionName, payload);
    match output {
      case InvocationFailed(e) =>
        wf.status := FailedState;
        wf.message := "aws lambda invocation failed: " + e;
      case InvocationPanicked(m) =>
        wf.status := FailedState;
        wf.message := m;
      case OutputPackFailed(e) =>
        wf.status := FailedState;
        wf.message := "failed to pack aws lambda invocation response: " + e;
      case Invoked(b) =>
        wf.status := SucceededState;
        wf.message := b;
    }
  }

  /** The response a poll gives for a record in a given state: always the record's message,
      with status 1 for SUCCEEDED, 2 for FAILED, and a 5-second requeue otherwise. */
  function RecordResponse(status: string, message: string): (r: PluginResponse)
    ensures r.executionError.None? && r.requestError.None? && r.message == message
    ensures r.status == 1 <==> status == SucceededState
    ensures r.status == 2 <==> status == FailedState
    ensures r.shouldRequeue <==> status != SucceededState && status != FailedState
    ensures r.shouldRequeue ==> r.status == 3
    ensures r.requeueDuration == (if r.shouldRequeue then Some(LambdaRequeueSeconds) else None)
  {
    if status == SucceededState then EmptyResponse.(message := message, status := 1)
    else if status == FailedState then EmptyResponse.(message := message, status := 2)
    else EmptyResponse.(message := message, shouldRequeue := true, requeueDuration := Some(LambdaRequeueSeconds), status := 3)
  }

  /** aws_lambda_function.go: `CheckLambdaFunctionExecution`, reading the record and leaving it
      as it is. */
  function CheckLambdaFunctionExecution(wf: PluginWorkflow): (r: PluginResponse)
    reads wf
    ensures r.executionError.None? && r.message == wf.message
    ensures r.status == 1 <==> wf.status == SucceededState
    ensures r.status == 2 <==> wf.status == FailedState
    ensures r.shouldRequeue <==> wf.status != SucceededState && wf.status != FailedState
  {
    RecordResponse(wf.status, wf.message)
  }

  /** A just-started record is polled again, and once the runner has finished the poll ends the
      node: as a success even when the invocation failed, since no execution error is set. */
  lemma RecordLifecycle(req: Request.Request, rt: LambdaRuntime)
    ensures BuildReply(RecordResponse(RunningState, RunningMessage)) ==
      Reply(NodeRunning, RunningMessage, Some(ReplyRequeueSeconds))
    ensures !RecordResponse(RunnerOutcome(req, rt).status, RunnerOutcome(req, rt).message).shouldRequeue
    ensures BuildReply(RecordResponse(RunnerOutcome(req, rt).status, RunnerOutcome(req, rt).message)).phase == NodeSucceeded
  {
  }

  /** The 5-second requeue the start asks for is replaced by the reply builder's 60 seconds. */
  lemma StartedReplyRequeue()
    ensures StartedResponse.requeueDuration == Some(5)
    ensures BuildReply(StartedResponse) == Reply(NodeRunning, StartedMessage, Some(60))
  {
  }

  /** A start, the runner run to completion, and the next poll: the record under the workflow
      run's uid holds the runner's outcome, and the poll reports it without asking to be
      polled again. */
  method StartRunAndPoll(ex: ExecutorPlugin, workflowID: string, req: Request.Request, rt: LambdaRuntime)
    returns (started: PluginResponse, polled: PluginResponse)
    requires ex.workflows.Some?
    modifies ex`workflows
    ensures started == StartedResponse
    ensures ex.Lookup(workflowID).Some? && fresh(ex.Lookup(workflowID).value)
    ensures RunResult(ex.Lookup(workflowID).value.status, ex.Lookup(workflowID).value.message) == RunnerOutcome(req, rt)
    ensures polled == RecordResponse(RunnerOutcome(req, rt).status, RunnerOutcome(req, rt).message)
    ensures !polled.shouldRequeue && polled.message == RunnerOutcome(req, rt).message
  {
    var wf;
    started, wf := StartLambdaFunctionExecution(ex, workflowID);
    InvokeLambdaFunctionAsync(req, wf, rt);
    var record := ex.Lookup(workflowID);
    polled := CheckLambdaFunctionExecution(record.value);
  }
}
