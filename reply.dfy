/** The reply builder deferred in the template-execute handler (plugin.go): it turns the
    handler's final `PluginResponse` into the reply Argo Workflows receives. */
module Reply {
  import opened Options
  import opened Errors
  import opened Response
  import Status

  /** The node phases the plugin reports. */
  datatype NodePhase = NodeSucceeded | NodeRunning | NodeError

  /** The requeue interval every running reply carries, in seconds. */
  const ReplyRequeueSeconds := 60

  /** What goes back on the wire: HTTP 400 without a body, or an `ExecuteTemplateReply`
      holding the node result and the requeue interval (nil being `None`). */
  datatype TemplateReply = BadRequest | Reply(phase: NodePhase, message: string, requeue: Option<int>)

  /** plugin.go: the deferred reply builder. */
  function BuildReply(resp: PluginResponse): (reply: TemplateReply)
    // A request error always gives a bare 400, and only a request error does.
    ensures reply.BadRequest? <==> resp.requestError.Some?
    // An execution error wins over a requeue request.
    ensures reply.Reply? ==> (reply.phase == NodeError <==> resp.executionError.Some?)
    ensures reply.Reply? ==> (reply.phase == NodeRunning <==> resp.executionError.None? && resp.shouldRequeue)
    // The requeue interval is fixed, and present exactly on running replies.
    ensures reply.Reply? ==> (reply.requeue.Some? <==> reply.phase == NodeRunning)
    ensures reply.Reply? && reply.requeue.Some? ==> reply.requeue.value == ReplyRequeueSeconds
    // A message the response carries is passed on unchanged; an empty one is replaced.
    ensures reply.Reply? && resp.message != "" ==> reply.message == resp.message
    ensures reply.Reply? && resp.message == "" ==>
      reply.message == (match reply.phase
        case NodeRunning => "running"
        case NodeSucceeded => "success"
        case NodeError => resp.executionError.value.Message())
  {
    if resp.requestError.Some? then BadRequest
    else if resp.executionError.None? then
      if resp.shouldRequeue then Reply(NodeRunning, if resp.message == "" then "running" else resp.message, Some(60))
      else Reply(NodeSucceeded, if resp.message == "" then "success" else resp.message, None)
    else Reply(NodeError, if resp.message == "" then resp.executionError.value.Message() else resp.message, None)
  }

  /** Neither the status nor the requeue duration of a response reaches the reply. */
  lemma ReplyIgnoresStatusAndDuration(resp: PluginResponse, status: Status.PluginWorkflowStatus, duration: Option<int>)
    ensures BuildReply(resp.(status := status, requeueDuration := duration)) == BuildReply(resp)
  {
  }

  /** A response without errors whose status says the execution failed, and which asks for no
      requeue, is reported as a success. */
  lemma FailureStatusWithoutErrorSucceeds(message: string)
    ensures BuildReply(EmptyResponse.(message := message, status := Status.RUNNING)).Reply?
    ensures BuildReply(EmptyResponse.(message := message, status := Status.RUNNING)).phase == NodeSucceeded
    ensures BuildReply(EmptyResponse.(message := message, status := Status.ERROR)).phase == NodeSucceeded
  {
  }

  /** The zero response is a success with message "success"; asking only for a requeue gives a
      running reply with message "running" and 60 seconds. */
  lemma ZeroResponses()
    ensures BuildReply(EmptyResponse) == Reply(NodeSucceeded, "success", None)
    ensures BuildReply(EmptyResponse.(shouldRequeue := true)) == Reply(NodeRunning, "running", Some(60))
  {
  }
}
