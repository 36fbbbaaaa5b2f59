/** The AWS Glue job operations (aws_glue_job.go). A started job run is recorded in the
    plugin's map. The numeric statuses are the file's own: 1 for success, 2 for failure, 3 for
    still running. */
module GlueJob {
  import opened Options
  import opened Errors
  import opened Response
  import opened Aws
  import opened Plugin
  import opened Reply
  import Status

  /** aws_glue_job.go: `CheckIfGlueJobExists`, given the outcome of `GetJob` on the
      request's ARN, which the source passes as the job name. */
  function CheckIfGlueJobExists(out: CallOutcome<()>): (r: PluginResponse)
    ensures r.executionError.Some? <==> !out.Returned?
    ensures r.requestError.None? && !r.shouldRequeue && r.requeueDuration.None?
    ensures out.Returned? ==> r.message == out.serialized && r.status == 1
    ensures !out.Returned? ==> r.status == 2
    ensures !out.Returned? ==>
      r.executionError.value.Message() == FailureText(out, "failed to describe aws glue job: ",
        "failed to pack aws glue job check response: ")
  {
    if out.Returned? then EmptyResponse.(message := out.serialized, status := 1)
    else ExecutionFailure(FailureText(out, "failed to describe aws glue job: ",
                                      "failed to pack aws glue job check response: "), 2)
  }

  /** The response `StartGlueJobExecution` gives for the outcome of `StartJobRun`, whose
      value is the job run id. */
  function StartResponse(out: CallOutcome<string>): (r: PluginResponse)
    ensures r.executionError.Some? <==> !Started(out)
    ensures r.requestError.None?
    ensures r.shouldRequeue <==> Started(out)
    ensures Started(out) ==>
      r.message == out.serialized && r.requeueDuration == Some(PollRequeueSeconds) && r.status == 3
    ensures out.SessionFailed? ==> r.status == Status.UNKNOWN
    ensures !Started(out) && !out.SessionFailed? ==> r.status == 2
    ensures out.Returned? && out.value == "" ==>
      r.executionError.value.Message() == "aws glue job start response has no job run id"
  {
    match out
    case SessionFailed(e) => ExecutionFailure(SessionFailureText + e, Status.UNKNOWN)
    case CallFailed(e) => ExecutionFailure("failed to start aws glue job: " + e, 2)
    case PackFailed(e) => ExecutionFailure("failed to pack aws glue job start response: " + e, 2)
    case Returned(b, jobRunId) =>
      if jobRunId == "" then ExecutionFailure("aws glue job start response has no job run id", 2)
      else EmptyResponse.(message := b, shouldRequeue := true, requeueDuration := Some(PollRequeueSeconds), status := 3)
  }

  /** aws_glue_job.go: `StartGlueJobExecution`. A start that returns a job run id records it
      under the workflow run's uid, replacing any earlier record and
      leaving every other entry alone; any failure leaves the map as it was. */
  method StartGlueJobExecution(ex: ExecutorPlugin, workflowID: string, out: CallOutcome<string>)
    returns (r: PluginResponse)
    requires Started(out) ==> ex.workflows.Some?
    modifies ex`workflows
    ensures r == StartResponse(out)
    ensures Started(out) ==> ex.Lookup(workflowID).Some? && fresh(ex.Lookup(workflowID).value)
    ensures Started(out) ==> ex.Lookup(workflowID).value.id == out.value
    ensures Started(out) ==> ex.Lookup(workflowID).value.status == "" && ex.Lookup(workflowID).value.message == ""
    ensures Started(out) ==> ex.workflows == Some(old(ex.workflows.value)[workflowID := ex.Lookup(workflowID).value])
    ensures !Started(out) ==> ex.workflows == old(ex.workflows)
  {
    match out {
      case SessionFailed(e) =>
        return ExecutionFailure(SessionFailureText + e, Status.UNKNOWN);
      case CallFailed(e) =>
        return ExecutionFailure("failed to start aws glue job: " + e, 2);
      case PackFailed(e) =>
        return ExecutionFailure("failed to pack aws glue job start response: " + e, 2);
      case Returned(b, jobRunId) =>
        if jobRunId == "" {
          return ExecutionFailure("aws glue job start response has no job run id", 2);
        }
        var wf := new PluginWorkflow(jobRunId, "", "");
        ex.Put(workflowID, wf);
        return EmptyResponse.(message := b, shouldRequeue := true, requeueDuration := Some(PollRequeueSeconds), status := 3);
    }
  }

  const SucceededStatus := "SUCCEEDED"
  const FailedStatuses: set<string> := {"STOPPED", "FAILED", "ERROR", "TIMEOUT"}

  /** aws_glue_job.go: `CheckGlueJobExecution`, given the outcome of `GetJobRun` on the
      recorded run id, whose value is the job run state. Matching is exact: "SUCCEEDED" is a
      success, "STOPPED", "FAILED", "ERROR" and "TIMEOUT" are failures, and every other state
      is polled again. */
  function CheckGlueJobExecution(out: CallOutcome<string>): (r: PluginResponse)
    ensures r.executionError.Some? <==> !out.Returned?
    ensures r.requestError.None?
    ensures !out.Returned? ==> r.status == 2 && !r.shouldRequeue
    ensures !out.Returned? ==>
      r.executionError.value.Message() == FailureText(out, "failed to get aws glue job run: ",
        "failed to pack aws glue job execution response: ")
    ensures out.Returned? ==> r.message == out.serialized
    ensures out.Returned? ==> (r.status == 1 <==> out.value == SucceededStatus)
    ensures out.Returned? ==> (r.status == 2 <==> out.value in FailedStatuses)
    ensures out.Returned? ==> (r.status == 3 <==> out.value != SucceededStatus && out.value !in FailedStatuses)
    ensures r.shouldRequeue <==> out.Returned? && r.status == 3
    ensures r.requeueDuration == (if r.shouldRequeue then Some(PollRequeueSeconds) else None)
  {
    match out
    case SessionFailed(_) | CallFailed(_) | PackFailed(_) =>
      ExecutionFailure(FailureText(out, "failed to get aws glue job run: ",
                                   "failed to pack aws glue job execution response: "), 2)
    case Returned(b, runState) =>
      if runState == SucceededStatus then EmptyResponse.(message := b, status := 1)
      else if runState in FailedStatuses then EmptyResponse.(message := b, status := 2)
      else EmptyResponse.(message := b, shouldRequeue := true, requeueDuration := Some(PollRequeueSeconds), status := 3)
  }

  /** The existence check fails the node exactly when a call fails. */
  lemma ExistenceReply(out: CallOutcome<()>)
    ensures BuildReply(CheckIfGlueJobExists(out)).Reply?
    ensures BuildReply(CheckIfGlueJobExists(out)).phase == (if out.Returned? then NodeSucceeded else NodeError)
  {
  }

  /** A started execution keeps the node running; a failed start fails it. */
  lemma StartReply(out: CallOutcome<string>)
    ensures BuildReply(StartResponse(out)).Reply?
    ensures BuildReply(StartResponse(out)).phase == (if Started(out) then NodeRunning else NodeError)
  {
  }

  /** A stopped, failed, errored or timed-out run carries no execution error, so the node is
      reported as succeeded even though the job failed. */
  lemma FailedExecutionReportedSucceeded(b: string, runState: string)
    requires runState in FailedStatuses
    ensures CheckGlueJobExecution(Returned(b, runState)).status == 2
    ensures BuildReply(CheckGlueJobExecution(Returned(b, runState))).phase == NodeSucceeded
  {
  }

  /** The states a run passes through before it ends are all polled again after 60 seconds. */
  lemma PendingRunStatesRequeue(b: string, runState: string)
    requires runState in {"STARTING", "RUNNING", "STOPPING", "WAITING"}
    ensures BuildReply(CheckGlueJobExecution(Returned(b, runState))) ==
      Reply(NodeRunning, if b == "" then "running" else b, Some(60))
  {
  }
}
