/** The plugin's internal response (response.go), which the reply builder turns into a node result. */
module Response {
  import opened Options
  import opened Errors
  import Status

  /** `PluginResponse`; a requeue duration is a number of seconds, nil being `None`. */
  datatype PluginResponse = PluginResponse(
    message: string,
    status: Status.PluginWorkflowStatus,
    shouldRequeue: bool,
    requeueDuration: Option<int>,
    requestError: Option<Error>,
    executionError: Option<Error>)

  /** `&PluginResponse{}`: every field at its zero value. */
  const EmptyResponse := PluginResponse("", Status.UNKNOWN, false, None, None, None)

  /** A response carrying only a `fmt.Errorf` execution error and a status. */
  function ExecutionFailure(msg: string, status: Status.PluginWorkflowStatus): (r: PluginResponse)
    ensures r.executionError == Some(Errorf(msg)) && r.requestError.None?
    ensures r.message == "" && !r.shouldRequeue && r.requeueDuration.None? && r.status == status
  {
    EmptyResponse.(executionError := Some(Errorf(msg)), status := status)
  }
}
