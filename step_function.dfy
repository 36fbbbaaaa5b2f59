/** The AWS Step Functions operations (aws_step_function.go). A started execution is recorded
    in the plugin's map. The numeric statuses are the file's own: 1 for success, 2 for
    failure, 3 for still running. */
module StepFunction {
  import opened Options
  import opened Errors
  import opened Response
  import opened Aws
  import opened Plugin
  import opened Reply
  import Status

  /** aws_step_function.go: `CheckIfStepFunctionExists`, given the outcome of
      `DescribeStateMachine` on the request's ARN. */
  function CheckIfStepFunctionExists(out: CallOutcome<()>): (r: PluginResponse)
    ensures r.executionError.Some? <==> !out.Returned?
    ensures r.requestError.None? && !r.shouldRequeue && r.requeueDuration.None?
    ensures out.Returned? ==> r.message == out.serialized && r.status == 1
    ensures !out.Returned? ==> r.status == 2
    ensures !out.Returned? ==>
      r.executionError.value.Message() == FailureText(out, "failed to describe aws step function: ",
        "failed to pack aws step function check response: ")
  {
    if out.Returned? then EmptyResponse.(message := out.serialized, status := 1)
    else ExecutionFailure(FailureText(out, "failed to describe aws step function: ",
                                      "failed to pack aws step function check response: "), 2)
  }

  /** The response `StartStepFunctionExecution` gives for the outcome of `StartExecution`,
      whose value is the execution ARN. */
  function StartResponse(out: CallOutcome<string>): (r: PluginResponse)
    ensures r.executionError.Some? <==> !Started(out)
    ensures r.requestError.None?
    ensures r.shouldRequeue <==> Started(out)
    ensures Started(out) ==>
      r.message == out.serialized && r.requeueDuration == Some(PollRequeueSeconds) && r.status == 3
    ensures out.SessionFailed? ==> r.status == Status.UNKNOWN
    ensures !Started(out) && !out.SessionFailed? ==> r.status == 2
    ensures out.Returned? && out.value == "" ==>
      r.executionError.value.Message() == "aws step function start response has no execution ARN"
  {
    match out
    case SessionFailed(e) => ExecutionFailure(SessionFailureText + e, Status.UNKNOWN)
    case CallFailed(e) => ExecutionFailure("failed to start aws step function: " + e, 2)
    case PackFailed(e) => ExecutionFailure("failed to pack aws step function start response: " + e, 2)
    case Returned(b, executionArn) =>
      if executionArn == "" then ExecutionFailure("aws step function start response has no execution ARN", 2)
      else EmptyResponse.(message := b, shouldRequeue := true, requeueDuration := Some(PollRequeueSeconds), status := 3)
  }

  /** aws_step_function.go: `StartStepFunctionExecution`. A start that returns an execution
      ARN records it under the workflow run's uid, replacing any earlier record and
      leaving every other entry alone; any failure leaves the map as it was. */
  method StartStepFunctionExecution(ex: ExecutorPlugin, workflowID: string, out: CallOutcome<string>)
    returns (r: PluginResponse)
    requires Started(out) ==> ex.workflows.Some?
    modifies ex`workflows
    ensures r == StartResponse(out)
    ensures Started(out) ==> ex.Lookup(workflowID).Some? && fresh(ex.Lookup(workflowID).value)
    ensures Started(out) ==> ex.Lookup(workflowID).value.id == out.value
    ensures Started(out) ==> ex.Lookup(workflowID).value.status == "" && ex.Lookup(workflowID).value.message == ""
    ensures Started(out) ==> ex.workflows == Some(old(ex.workflows.value)[workflowID := ex.Lookup(workflowID).value])
    ensures !Started(out) ==> ex.workflows == old(ex.workflows)
  {
    match out {
      case SessionFailed(e) =>
        return ExecutionFailure(SessionFailureText + e, Status.UNKNOWN);
      case CallFailed(e) =>
        return ExecutionFailure("failed to start aws step function: " + e, 2);
      case PackFailed(e) =>
        return ExecutionFailure("failed to pack aws step function start response: " + e, 2);
      case Returned(b, executionArn) =>
        if executionArn == "" {
          return ExecutionFailure("aws step function start response has no execution ARN", 2);
        }
        var wf := new PluginWorkflow(executionArn, "", "");
        ex.Put(workflowID, wf);
        return EmptyResponse.(message := b, shouldRequeue := true, requeueDuration := Some(PollRequeueSeconds), status := 3);
    }
  }

  const SucceededStatus := "SUCCEEDED"
  const FailedStatuses: set<string> := {"TIMED_OUT", "FAILED", "ABORTED"}

  /** aws_step_function.go: `CheckStepFunctionExecution`, given the outcome of
      `DescribeExecution` on the recorded ARN, whose value is the execution status. Matching
      is exact: "SUCCEEDED" is a success, "TIMED_OUT", "FAILED" and "ABORTED" are failures, and
      every other status (RUNNING, or an unknown one) is polled again. */
  function CheckStepFunctionExecution(out: CallOutcome<string>): (r: PluginResponse)
    ensures r.executionError.Some? <==> !out.Returned?
    ensures r.requestError.None?
    ensures !out.Returned? ==> r.status == 2 && !r.shouldRequeue
    ensures !out.Returned? ==>
      r.executionError.value.Message() == FailureText(out, "failed to describe aws step function execution: ",
        "failed to pack aws step function execution response: ")
    ensures out.Returned? ==> r.message == out.serialized
    ensures out.Returned? ==> (r.status == 1 <==> out.value == SucceededStatus)
    ensures out.Returned? ==> (r.status == 2 <==> out.value in FailedStatuses)
    ensures out.Returned? ==> (r.status == 3 <==> out.value != SucceededStatus && out.value !in FailedStatuses)
    ensures r.shouldRequeue <==> out.Returned? && r.status == 3
    ensures r.requeueDuration == (if r.shouldRequeue then Some(PollRequeueSeconds) else None)
  {
    match out
    case SessionFailed(_) | CallFailed(_) | PackFailed(_) =>
      ExecutionFailure(FailureText(out, "failed to describe aws step function execution: ",
                                   "failed to pack aws step function execution response: "), 2)
    case Returned(b, executionStatus) =>
      if executionStatus == SucceededStatus then EmptyResponse.(message := b, status := 1)
      else if executionStatus in FailedStatuses then EmptyResponse.(message := b, status := 2)
      else EmptyResponse.(message := b, shouldRequeue := true, requeueDuration := Some(PollRequeueSeconds), status := 3)
  }

  /** The existence check fails the node exactly when a call fails. */
  lemma ExistenceReply(out: CallOutcome<()>)
    ensures BuildReply(CheckIfStepFunctionExists(out)).Reply?
    ensures BuildReply(CheckIfStepFunctionExists(out)).phase == (if out.Returned? then NodeSucceeded else NodeError)
  {
  }

  /** A started execution keeps the node running; a failed start fails it. */
  lemma StartReply(out: CallOutcome<string>)
    ensures BuildReply(StartResponse(out)).Reply?
    ensures BuildReply(StartResponse(out)).phase == (if Started(out) then NodeRunning else NodeError)
  {
  }

  /** A timed-out, failed or aborted execution carries no execution error, so the node is
      reported as succeeded even though the state machine failed. */
  lemma FailedExecutionReportedSucceeded(b: string, executionStatus: string)
    requires executionStatus in FailedStatuses
    ensures CheckStepFunctionExecution(Returned(b, executionStatus)).status == 2
    ensures BuildReply(CheckStepFunctionExecution(Returned(b, executionStatus))).phase == NodeSucceeded
  {
  }

  /** A running execution is polled again after 60 seconds. */
  lemma RunningExecutionRequeues(b: string)
    ensures BuildReply(CheckStepFunctionExecution(Returned(b, "RUNNING"))) ==
      Reply(NodeRunning, if b == "" then "running" else b, Some(60))
  {
  }
}
