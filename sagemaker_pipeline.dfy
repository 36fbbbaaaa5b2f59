/** The two-argument SageMaker Pipelines operations (amazon_sagemaker_pipeline.go), which
    record a started execution in the plugin's map. The numeric statuses are the file's own:
    1 for success, 2 for failure, 3 for still running. */
module SageMakerPipeline {
  import opened Options
  import opened Errors
  import opened Response
  import opened Aws
  import opened Plugin
  import opened Reply
  import Status

  /** amazon_sagemaker_pipeline.go: `CheckIfSageMakerPipelineExists`, given the outcome of
      `DescribePipeline` on the request's ARN. */
  function CheckIfSageMakerPipelineExists(out: CallOutcome<()>): (r: PluginResponse)
    ensures r.executionError.Some? <==> !out.Returned?
    ensures r.requestError.None? && !r.shouldRequeue && r.requeueDuration.None?
    ensures out.Returned? ==> r.message == out.serialized && r.status == 1
    ensures !out.Returned? ==> r.status == 2
    ensures !out.Returned? ==>
      r.executionError.value.Message() == FailureText(out, "failed to describe amazon sagemaker pipeline: ",
        "failed to pack amazon sagemaker pipeline check response: ")
  {
    if out.Returned? then EmptyResponse.(message := out.serialized, status := 1)
    else ExecutionFailure(FailureText(out, "failed to describe amazon sagemaker pipeline: ",
                                      "failed to pack amazon sagemaker pipeline check response: "), 2)
  }

  /** The response `StartSageMakerPipelineExecution` gives for the outcome of
      `StartPipelineExecution`, whose value is the execution ARN. */
  function StartResponse(out: CallOutcome<string>): (r: PluginResponse)
    ensures r.executionError.Some? <==> !Started(out)
    ensures r.requestError.None?
    ensures r.shouldRequeue <==> Started(out)
    ensures Started(out) ==>
      r.message == out.serialized && r.requeueDuration == Some(PollRequeueSeconds) && r.status == 3
    ensures out.SessionFailed? ==> r.status == Status.UNKNOWN
    ensures !Started(out) && !out.SessionFailed? ==> r.status == 2
    ensures out.Returned? && out.value == "" ==>
      r.executionError.value.Message() == "amazon sagemaker pipeline start response has no execution ARN"
  {
    match out
    case SessionFailed(e) => ExecutionFailure(SessionFailureText + e, Status.UNKNOWN)
    case CallFailed(e) => ExecutionFailure("failed to start amazon sagemaker pipeline: " + e, 2)
    case PackFailed(e) => ExecutionFailure("failed to pack amazon sagemaker pipeline start response: " + e, 2)
    case Returned(b, executionArn) =>
      if executionArn == "" then ExecutionFailure("amazon sagemaker pipeline start response has no execution ARN", 2)
      else EmptyResponse.(message := b, shouldRequeue := true, requeueDuration := Some(PollRequeueSeconds), status := 3)
  }

  /** amazon_sagemaker_pipeline.go: `StartSageMakerPipelineExecution`. A start that returns an
      execution ARN records it under the workflow run's uid, replacing any earlier record and
      leaving every other entry alone; any failure leaves the map as it was. */
  method StartSageMakerPipelineExecution(ex: ExecutorPlugin, workflowID: string, out: CallOutcome<string>)
    returns (r: PluginResponse)
    requires Started(out) ==> ex.workflows.Some?
    modifies ex`workflows
    ensures r == StartResponse(out)
    ensures Started(out) ==> ex.Lookup(workflowID).Some? && fresh(ex.Lookup(workflowID).value)
    ensures Started(out) ==> ex.Lookup(workflowID).value.id == out.value
    ensures Started(out) ==> ex.Lookup(workflowID).value.status == "" && ex.Lookup(workflowID).value.message == ""
    ensures Started(out) ==> ex.workflows == Some(old(ex.workflows.value)[workflowID := ex.Lookup(workflowID).value])
    ensures !Started(out) ==> ex.workflows == old(ex.workflows)
  {
    match out {
      case SessionFailed(e) =>
        return ExecutionFailure(SessionFailureText + e, Status.UNKNOWN);
      case CallFailed(e) =>
        return ExecutionFailure("failed to start amazon sagemaker pipeline: " + e, 2);
      case PackFailed(e) =>
        return ExecutionFailure("failed to pack amazon sagemaker pipeline start response: " + e, 2);
      case Returned(b, executionArn) =>
        if executionArn == "" {
          return ExecutionFailure("amazon sagemaker pipeline start response has no execution ARN", 2);
        }
        var wf := new PluginWorkflow(executionArn, "", "");
        ex.Put(workflowID, wf);
        return EmptyResponse.(message := b, shouldRequeue := true, requeueDuration := Some(PollRequeueSeconds), status := 3);
    }
  }

  const SucceededStatus := "Succeeded"
  const FailedStatuses: set<string> := {"Stopped", "Failed"}

  /** amazon_sagemaker_pipeline.go: `CheckSageMakerPipelineExecution`, given the outcome of
      `DescribePipelineExecution` on the recorded ARN, whose value is the execution status.
      Matching is exact: "Succeeded" is a success, "Stopped" and "Failed" are failures, and
      every other status (Executing, Stopping, or an unknown one) is polled again. */
  function CheckSageMakerPipelineExecution(out: CallOutcome<string>): (r: PluginResponse)
    ensures r.executionError.Some? <==> !out.Returned?
    ensures r.requestError.None?
    ensures !out.Returned? ==> r.status == 2 && !r.shouldRequeue
    ensures !out.Returned? ==>
      r.executionError.value.Message() == FailureText(out, "failed to describe amazon sagemaker pipeline execution: ",
        "failed to pack amazon sagemaker pipeline execution response: ")
    ensures out.Returned? ==> r.message == out.serialized
    ensures out.Returned? ==> (r.status == 1 <==> out.value == SucceededStatus)
    ensures out.Returned? ==> (r.status == 2 <==> out.value in FailedStatuses)
    ensures out.Returned? ==> (r.status == 3 <==> out.value != SucceededStatus && out.value !in FailedStatuses)
    ensures r.shouldRequeue <==> out.Returned? && r.status == 3
    ensures r.requeueDuration == (if r.shouldRequeue then Some(PollRequeueSeconds) else None)
  {
    match out
    case SessionFailed(_) | CallFailed(_) | PackFailed(_) =>
      ExecutionFailure(FailureText(out, "failed to describe amazon sagemaker pipeline execution: ",
                                   "failed to pack amazon sagemaker pipeline execution response: "), 2)
    case Returned(b, executionStatus) =>
      if executionStatus == SucceededStatus then EmptyResponse.(message := b, status := 1)
      else if executionStatus in FailedStatuses then EmptyResponse.(message := b, status := 2)
      else EmptyResponse.(message := b, shouldRequeue := true, requeueDuration := Some(PollRequeueSeconds), status := 3)
  }

  /** The existence check fails the node exactly when a call fails. */
  lemma ExistenceReply(out: CallOutcome<()>)
    ensures BuildReply(CheckIfSageMakerPipelineExists(out)).Reply?
    ensures BuildReply(CheckIfSageMakerPipelineExists(out)).phase == (if out.Returned? then NodeSucceeded else NodeError)
  {
  }

  /** A started execution keeps the node running; a failed start fails it. */
  lemma StartReply(out: CallOutcome<string>)
    ensures BuildReply(StartResponse(out)).Reply?
    ensures BuildReply(StartResponse(out)).phase == (if Started(out) then NodeRunning else NodeError)
  {
  }

  /** A stopped or failed execution carries no execution error, so the node is reported as
      succeeded even though the pipeline failed. */
  lemma FailedExecutionReportedSucceeded(b: string, executionStatus: string)
    requires executionStatus in FailedStatuses
    ensures CheckSageMakerPipelineExecution(Returned(b, executionStatus)).status == 2
    ensures BuildReply(CheckSageMakerPipelineExecution(Returned(b, executionStatus))).phase == NodeSucceeded
  {
  }

  /** With a start that records, the poll after a successful start finds the record and checks
      that execution by its ARN instead of starting the pipeline again. */
  method StartThenPoll(ex: ExecutorPlugin, workflowID: string, startOut: CallOutcome<string>,
                       describe: string -> CallOutcome<string>)
    returns (first: PluginResponse, second: PluginResponse)
    requires ex.workflows.Some?
    modifies ex`workflows
    ensures first == StartResponse(startOut)
    ensures Started(startOut) ==> second == CheckSageMakerPipelineExecution(describe(startOut.value))
    ensures !Started(startOut) && old(ex.Lookup(workflowID)).None? ==> second == first
  {
    first := StartSageMakerPipelineExecution(ex, workflowID, startOut);
    var record := ex.Lookup(workflowID);
    if record.Some? {
      second := CheckSageMakerPipelineExecution(describe(record.value.id));
    } else {
      second := StartSageMakerPipelineExecution(ex, workflowID, startOut);
    }
  }
}
