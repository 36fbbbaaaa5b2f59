/** The one-argument SageMaker Pipelines operations (amazon_sagemaker_pipelines.go), the ones
    the template-execute handler calls. None of them touches the plugin's records. */
module SageMakerPipelines {
  import opened Options
  import opened Errors
  import opened Response
  import opened Aws
  import opened Reply
  import Status

  /** The SageMaker calls, each as a function of the ARN or id it is given. An execution's
      status comes back as a `*string`. */
  datatype SageMakerService = SageMakerService(
    describePipeline: string -> CallOutcome<()>,
    startPipelineExecution: string -> CallOutcome<()>,
    describePipelineExecution: string -> CallOutcome<StringPointer?>)

  /** The response for a failed call, with the status left at zero. */
  function CallFailure<T>(out: CallOutcome<T>, callText: string, packText: string): (r: PluginResponse)
    requires !out.Returned?
    ensures r.executionError == Some(Errorf(FailureText(out, callText, packText)))
    ensures r.requestError.None? && r.message == "" && !r.shouldRequeue
    ensures r.status == Status.UNKNOWN && r.requeueDuration.None?
  {
    ExecutionFailure(FailureText(out, callText, packText), Status.UNKNOWN)
  }

  /** amazon_sagemaker_pipelines.go: `CheckIfSageMakerPipelineExists`, given the outcome of
      `DescribePipeline` on the request's ARN. */
  function CheckIfSageMakerPipelineExists(out: CallOutcome<()>): (r: PluginResponse)
    ensures r.executionError.Some? <==> !out.Returned?
    ensures r.requestError.None? && !r.shouldRequeue && r.requeueDuration.None? && r.status == Status.UNKNOWN
    ensures out.Returned? ==> r.message == out.serialized
    ensures out.SessionFailed? ==> r.executionError.value.Message() == SessionFailureText + out.err
    ensures out.CallFailed? ==>
      r.executionError.value.Message() == "failed to describe amazon sagemaker pipeline: " + out.err
    ensures out.PackFailed? ==>
      r.executionError.value.Message() == "failed to pack amazon sagemaker pipeline response: " + out.err
  {
    if out.Returned? then EmptyResponse.(message := out.serialized)
    else CallFailure(out, "failed to describe amazon sagemaker pipeline: ",
                     "failed to pack amazon sagemaker pipeline response: ")
  }

  /** amazon_sagemaker_pipelines.go: `StartSageMakerPipelineExecution`, given the outcome of
      `StartPipelineExecution` on the request's ARN. Nothing is recorded. */
  function StartSageMakerPipelineExecution(out: CallOutcome<()>): (r: PluginResponse)
    ensures r.executionError.Some? <==> !out.Returned?
    ensures r.requestError.None? && r.status == Status.UNKNOWN
    ensures r.shouldRequeue <==> out.Returned?
    ensures out.Returned? ==> r.message == out.serialized && r.requeueDuration == Some(PollRequeueSeconds)
    ensures !out.Returned? ==> r.requeueDuration.None?
    ensures out.SessionFailed? ==> r.executionError.value.Message() == SessionFailureText + out.err
    ensures out.CallFailed? ==>
      r.executionError.value.Message() == "failed to start amazon sagemaker pipeline: " + out.err
    ensures out.PackFailed? ==>
      r.executionError.value.Message() == "failed to pack amazon sagemaker pipeline response: " + out.err
  {
    if out.Returned? then
      EmptyResponse.(message := out.serialized, shouldRequeue := true, requeueDuration := Some(PollRequeueSeconds))
    else CallFailure(out, "failed to start amazon sagemaker pipeline: ",
                     "failed to pack amazon sagemaker pipeline response: ")
  }

  /** The response `CheckSageMakerPipelineExecution` gives: whatever status the execution
      reports, a returned description is passed on with status 3 and no requeue. */
  function ExecutionResponse(out: CallOutcome<StringPointer?>): (r: PluginResponse)
    ensures r.executionError.Some? <==> !out.Returned?
    ensures r.requestError.None? && !r.shouldRequeue && r.requeueDuration.None?
    ensures out.Returned? ==> r.message == out.serialized && r.status == Status.ERROR
    ensures !out.Returned? ==> r.status == Status.UNKNOWN
    ensures out.SessionFailed? ==> r.executionError.value.Message() == SessionFailureText + out.err
    ensures out.CallFailed? ==>
      r.executionError.value.Message() == "failed to describe amazon sagemaker pipeline execution: " + out.err
    ensures out.PackFailed? ==>
      r.executionError.value.Message() == "failed to pack amazon sagemaker pipeline response: " + out.err
  {
    if out.Returned? then EmptyResponse.(message := out.serialized, status := 3)
    else CallFailure(out, "failed to describe amazon sagemaker pipeline execution: ",
                     "failed to pack amazon sagemaker pipeline response: ")
  }

  /** amazon_sagemaker_pipelines.go: `CheckSageMakerPipelineExecution`, given the outcome of
      `DescribePipelineExecution` on the recorded execution id. Each case label is a pointer
      freshly made by `aws.String`, compared by reference with the one the SDK returned, so
      no label ever matches and the default case is taken. */
  method CheckSageMakerPipelineExecution(out: CallOutcome<StringPointer?>) returns (r: PluginResponse)
    ensures r == ExecutionResponse(out)
  {
    match out {
      case SessionFailed(e) =>
        return ExecutionFailure(SessionFailureText + e, Status.UNKNOWN);
      case CallFailed(e) =>
        return ExecutionFailure("failed to describe amazon sagemaker pipeline execution: " + e, Status.UNKNOWN);
      case PackFailed(e) =>
        return ExecutionFailure("failed to pack amazon sagemaker pipeline response: " + e, Status.UNKNOWN);
      case Returned(b, executionStatus) =>
        var inProgress := new StringPointer("InProgress");
        var stopping := new StringPointer("Stopping");
        if executionStatus == inProgress || executionStatus == stopping {
          // The requeue case (message, requeue 60s, status 2) is never reached.
          assert false;
        }
        var succeeded := new StringPointer("Succeeded");
        if executionStatus == succeeded {
          // The success case (message, status 1) is never reached.
          assert false;
        }
        return EmptyResponse.(message := b, status := 3);
    }
  }

  /** The status table the case labels spell out, applied to the status text: what the check
      would give if it compared the strings rather than the pointers. A nil status matches no
      label. */
  function IntendedExecutionResponse(out: CallOutcome<Option<string>>): (r: PluginResponse)
    ensures r.executionError.Some? <==> !out.Returned?
    ensures out.Returned? ==> r.message == out.serialized
    ensures out.Returned? ==> (r.shouldRequeue <==> out.value in {Some("InProgress"), Some("Stopping")})
    ensures out.Returned? ==> (r.status == Status.SUCCESS <==> out.value == Some("Succeeded"))
    ensures r.shouldRequeue <==> r.requeueDuration == Some(PollRequeueSeconds)
  {
    match out
    case SessionFailed(e) => ExecutionFailure(SessionFailureText + e, Status.UNKNOWN)
    case CallFailed(e) => ExecutionFailure("failed to describe amazon sagemaker pipeline execution: " + e, Status.UNKNOWN)
    case PackFailed(e) => ExecutionFailure("failed to pack amazon sagemaker pipeline response: " + e, Status.UNKNOWN)
    case Returned(b, s) =>
      if s == Some("InProgress") || s == Some("Stopping") then
        EmptyResponse.(message := b, shouldRequeue := true, requeueDuration := Some(PollRequeueSeconds), status := 2)
      else if s == Some("Succeeded") then EmptyResponse.(message := b, status := 1)
      else EmptyResponse.(message := b, status := 3)
  }

  /** As written, a pipeline execution that is still in progress is reported to the workflow
      as finished successfully, and is never polled again. */
  lemma InProgressExecutionReportedFinished(b: string, p: StringPointer?)
    requires b != ""
    ensures BuildReply(ExecutionResponse(Returned(b, p))) == Reply(NodeSucceeded, b, None)
  {
  }

  /** Compared by value, an execution in progress or stopping is polled again after 60
      seconds, and only a finished one ends the node. */
  lemma IntendedExecutionIsPolledUntilDone(b: string, s: Option<string>)
    ensures s == Some("InProgress") || s == Some("Stopping") ==>
      BuildReply(IntendedExecutionResponse(Returned(b, s))).phase == NodeRunning &&
      BuildReply(IntendedExecutionResponse(Returned(b, s))).requeue == Some(60)
    ensures s != Some("InProgress") && s != Some("Stopping") ==>
      BuildReply(IntendedExecutionResponse(Returned(b, s))).phase == NodeSucceeded
    ensures IntendedExecutionResponse(Returned(b, Some("Succeeded"))).status == Status.SUCCESS
  {
  }
}
