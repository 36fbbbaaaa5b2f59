/** The template-execute handler (plugin.go): the request gates, the mock short-circuit, the
    SageMaker Pipelines dispatch with its lookup of recorded executions, and the reply. */
module TemplateExecute {
  import opened Options
  import opened Errors
  import opened Response
  import opened Plugin
  import opened Reply
  import Request
  import SMP = SageMakerPipelines

  const ErrMalformedRequest := GenericError("malformed request: %s")
  const ErrUnsupportedContentType := GenericError("content type header value is unsupported")
  const ErrRequestReaderError := GenericError("failed to read request body: %v")
  const ErrRequestParserError := GenericError("failed to parse request body: %v")
  const ErrRequestInputMalformedError := GenericError("malformed plugin input: %v")
  const ErrExecutionError := GenericError("failed execution: %v")

  /** The key under which the template's plugin section carries this plugin's input. */
  const PluginKey := "awf-aws-plugin"

  /** The parts of the workflow's object metadata the handler uses. */
  datatype WorkflowMeta = WorkflowMeta(name: string, namespace: string, uid: string)

  /** The template's plugin section: re-serialising it may fail, decoding it as a map of plugin
      requests may fail, or it decodes. */
  datatype PluginInput =
    | MarshalFailed(err: string)
    | UnmarshalFailed(err: string)
    | Decoded(inputs: map<string, Request.Request>)

  datatype TemplateMeta = TemplateMeta(name: string, plugin: PluginInput)

  /** The request body: reading it may fail, decoding it as `ExecuteTemplateArgs` may fail, or
      it decodes, possibly without a workflow or a template (nil pointers). */
  datatype Body =
    | ReadFailed(err: string)
    | Unparsable(err: string)
    | Parsed(workflow: Option<WorkflowMeta>, template: Option<TemplateMeta>)

  /** An HTTP request to the template-execute endpoint. */
  datatype HttpRequest = HttpRequest(httpMethod: string, contentType: string, body: Body)

  /** A `WithArgs` result stored in an `error` field. */
  function AsError(d: Option<DetailedError>): (e: Option<Error>)
    ensures e.Some? <==> d.Some?
    ensures d.Some? ==> e.value.Message() == d.value.Error()
  {
    match d
    case None => None
    case Some(x) => Some(Detailed(x))
  }

  /** Where the gates leave a request: the request error set on the first gate that fails
      (`None` when the stored error is nil), or the workflow run's uid and the validated
      plugin input. */
  datatype Gate = Rejected(requestError: Option<Error>) | Accepted(workflowID: string, input: Request.Request)

  predicate MissingWorkflowOrTemplate(req: HttpRequest) {
    req.body.Parsed? && (req.body.workflow.None? || req.body.template.None?)
  }

  /** The gates, in order, with the arguments given to `WithArgs` when the body decodes
      without a workflow or a template left as a parameter. */
  function Gates(req: HttpRequest, missingArgs: seq<Arg>): Gate {
    if req.httpMethod != "POST" then
      Rejected(AsError(DetailedOrNil(ErrMalformedRequest, [StrArg("method is not POST")])))
    else if req.contentType != "application/json" then Rejected(Some(Generic(ErrUnsupportedContentType)))
    else BodyGate(req.body, missingArgs)
  }

  /** The gates on the request body: it must be read, and decode with a workflow and a
      template. */
  function BodyGate(body: Body, missingArgs: seq<Arg>): Gate {
    match body
    case ReadFailed(e) => Rejected(AsError(DetailedOrNil(ErrRequestReaderError, [ErrArg(e)])))
    case Unparsable(e) => Rejected(AsError(DetailedOrNil(ErrRequestParserError, [ErrArg(e)])))
    case Parsed(workflow, template) =>
      if workflow.None? || template.None? then Rejected(AsError(DetailedOrNil(ErrRequestParserError, missingArgs)))
      else PluginGate(workflow.value.uid, template.value.plugin)
  }

  /** The gates on the template's plugin section: it must re-serialise and decode. */
  function PluginGate(workflowID: string, plugin: PluginInput): Gate {
    match plugin
    case MarshalFailed(e) => Rejected(AsError(DetailedOrNil(ErrRequestParserError, [ErrArg(e)])))
    case UnmarshalFailed(e) => Rejected(AsError(DetailedOrNil(ErrRequestParserError, [ErrArg(e)])))
    case Decoded(inputs) => InputGate(workflowID, inputs)
  }

  /** The last two gates, on the decoded plugin section: the plugin's key must be present and
      its request must validate. */
  function InputGate(workflowID: string, inputs: map<string, Request.Request>): Gate {
    if PluginKey !in inputs then
      Rejected(AsError(DetailedOrNil(ErrRequestInputMalformedError, [StrArg("plugin input not found")])))
    else match Request.ValidationError(inputs[PluginKey])
      case Some(e) => Rejected(AsError(DetailedOrNil(ErrRequestInputMalformedError, [ErrArg(e.Message())])))
      case None => Accepted(workflowID, Request.Validated(inputs[PluginKey]))
  }

  /** The gates as written: a body without a workflow or a template passes its parse error,
      which is nil, to `WithArgs`. */
  function RequestGate(req: HttpRequest): Gate {
    Gates(req, [NilArg])
  }

  /** The gates with the missing workflow or template reported as an error of its own. */
  function IntendedRequestGate(req: HttpRequest): Gate {
    Gates(req, [StrArg("workflow or template is missing")])
  }

  /** The id of the execution recorded for a workflow run, if any. */
  function RecordedId(ex: ExecutorPlugin, workflowID: string): (id: Option<string>)
    reads ex, ex.Records()
    ensures id.Some? <==> ex.Lookup(workflowID).Some?
  {
    match ex.Lookup(workflowID)
    case None => None
    case Some(w) =>
      assert w in ex.workflows.value.Values;
      Some(w.id)
  }

  /** What the handler does with an accepted input: the mock short-circuit, then the
      SageMaker Pipelines dispatch; every other service is answered with the zero response. */
  function Dispatch(input: Request.Request, recorded: Option<string>, sm: SMP.SageMakerService): PluginResponse {
    if input.mock && input.mockState == "success" then EmptyResponse
    else if input.mock && input.mockState == "running" then EmptyResponse.(shouldRequeue := true)
    else if input.mock && input.mockState == "error" then
      EmptyResponse.(executionError := AsError(DetailedOrNil(ErrExecutionError, [StrArg("expected mock error")])))
    else if input.serviceName == Request.SageMakerPipelines then
      if input.action == "validate" then SMP.CheckIfSageMakerPipelineExists(sm.describePipeline(input.resourceArn))
      else if input.action == "execute" then
        if recorded.Some? then SMP.ExecutionResponse(sm.describePipelineExecution(recorded.value))
        else SMP.StartSageMakerPipelineExecution(sm.startPipelineExecution(input.resourceArn))
      else EmptyResponse
    else EmptyResponse
  }

  /** The response the handler ends with. */
  function HandlerResponse(ex: ExecutorPlugin, req: HttpRequest, sm: SMP.SageMakerService): PluginResponse
    reads ex, ex.Records()
  {
    match RequestGate(req)
    case Rejected(err) => EmptyResponse.(requestError := err)
    case Accepted(workflowID, input) => Dispatch(input, RecordedId(ex, workflowID), sm)
  }

  /** The body of the handler in plugin.go: each gate stores its error and returns; an accepted
      request is validated in place and dispatched. The plugin's records are only read. */
  method ExecuteTemplate(ex: ExecutorPlugin, req: HttpRequest, sm: SMP.SageMakerService) returns (resp: PluginResponse)
    ensures resp == HandlerResponse(ex, req, sm)
  {
    resp := EmptyResponse;
    if req.httpMethod != "POST" {
      var e := WithArgs(ErrMalformedRequest, [StrArg("method is not POST")]);
      return resp.(requestError := AsError(e));
    }
    if req.contentType != "application/json" {
      return resp.(requestError := Some(Generic(ErrUnsupportedContentType)));
    }
    if req.body.ReadFailed? {
      var e := WithArgs(ErrRequestReaderError, [ErrArg(req.body.err)]);
      return resp.(requestError := AsError(e));
    }
    if req.body.Unparsable? || req.body.workflow.None? || req.body.template.None? {
      // The parse error is nil when the body decoded but lacks a workflow or a template.
      var parseError := if req.body.Unparsable? then ErrArg(req.body.err) else NilArg;
      var e := WithArgs(ErrRequestParserError, [parseError]);
      return resp.(requestError := AsError(e));
    }
    var workflowID := req.body.workflow.value.uid;
    var plugin := req.body.template.value.plugin;
    if !plugin.Decoded? {
      var e := WithArgs(ErrRequestParserError, [ErrArg(plugin.err)]);
      return resp.(requestError := AsError(e));
    }
    if PluginKey !in plugin.inputs {
      var e := WithArgs(ErrRequestInputMalformedError, [StrArg("plugin input not found")]);
      return resp.(requestError := AsError(e));
    }
    var pluginInput := new Request.PluginRequest(plugin.inputs[PluginKey]);
    var validationError := pluginInput.Validate();
    if validationError.Some? {
      var e := WithArgs(ErrRequestInputMalformedError, [ErrArg(validationError.value.Message())]);
      return resp.(requestError := AsError(e));
    }

    if pluginInput.mock {
      if pluginInput.mockState == "success" {
        return resp;
      } else if pluginInput.mockState == "running" {
        return resp.(shouldRequeue := true);
      } else if pluginInput.mockState == "error" {
        // Validation has already rejected this mock state.
        assert false;
      }
    }

    if pluginInput.serviceName == Request.SageMakerPipelines {
      if pluginInput.action == "validate" {
        return SMP.CheckIfSageMakerPipelineExists(sm.describePipeline(pluginInput.resourceArn));
      } else if pluginInput.action == "execute" {
        var record := ex.Lookup(workflowID);
        if record.Some? {
          assert record.value in ex.workflows.value.Values;
          resp := SMP.CheckSageMakerPipelineExecution(sm.describePipelineExecution(record.value.id));
          return resp;
        }
        return SMP.StartSageMakerPipelineExecution(sm.startPipelineExecution(pluginInput.resourceArn));
      }
    }
  }

  /** plugin.go: the template-execute handler, its body followed by the deferred reply builder. */
  method HandleTemplateExecute(ex: ExecutorPlugin, req: HttpRequest, sm: SMP.SageMakerService) returns (reply: TemplateReply)
    ensures reply == BuildReply(HandlerResponse(ex, req, sm))
  {
    var resp := ExecuteTemplate(ex, req, sm);
    reply := BuildReply(resp);
  }

  /** The request-error formats are a plain text followed by one verb. */
  lemma FormatShapes()
    ensures NoPercent("malformed request: ") && ErrMalformedRequest.text == "malformed request: " + ['%', 's']
    ensures NoPercent("malformed plugin input: ") &&
      ErrRequestInputMalformedError.text == "malformed plugin input: " + ['%', 'v']
  {
  }

  /** The first gate: a method other than POST is a bad request whatever else the request
      holds. */
  lemma MethodGate(req: HttpRequest)
    requires req.httpMethod != "POST"
    ensures RequestGate(req).Rejected? && RequestGate(req).requestError.Some?
    ensures RequestGate(req).requestError.value.Message() == "malformed request: " + "method is not POST"
  {
    var prefix, arg := "malformed request: ", StrArg("method is not POST");
    assert RequestGate(req) == Rejected(AsError(DetailedOrNil(ErrMalformedRequest, [arg])));
    FormatShapes();
    WithOneArgMessage(ErrMalformedRequest, prefix, 's', arg);
  }

  /** The second gate: after the method, a content type other than application/json is a bad
      request whatever the body holds. */
  lemma ContentTypeGate(req: HttpRequest)
    requires req.httpMethod == "POST" && req.contentType != "application/json"
    ensures RequestGate(req) == Rejected(Some(Generic(ErrUnsupportedContentType)))
  {
  }

  /** Whatever the records and the collaborators, a request failing either of the first two
      gates gets a 400. */
  lemma FirstGatesAnswerBadRequest(ex: ExecutorPlugin, req: HttpRequest, sm: SMP.SageMakerService)
    requires req.httpMethod != "POST" || req.contentType != "application/json"
    ensures BuildReply(HandlerResponse(ex, req, sm)) == BadRequest
  {
    if req.httpMethod != "POST" {
      MethodGate(req);
    }
  }

  /** A request that passes the first gates and whose plugin section decodes is gated on that
      section alone. */
  lemma DecodedBodyGate(req: HttpRequest)
    requires req.httpMethod == "POST" && req.contentType == "application/json"
    requires req.body.Parsed? && req.body.workflow.Some? && req.body.template.Some?
    requires req.body.template.value.plugin.Decoded?
    ensures RequestGate(req) == InputGate(req.body.workflow.value.uid, req.body.template.value.plugin.inputs)
  {
    assert RequestGate(req) == BodyGate(req.body, [NilArg]);
    assert BodyGate(req.body, [NilArg]) == PluginGate(req.body.workflow.value.uid, req.body.template.value.plugin);
  }

  /** On the decoded plugin section, a request that fails validation is rejected with an error
      carrying the validation message. */
  lemma InvalidInputRejected(workflowID: string, inputs: map<string, Request.Request>)
    requires PluginKey in inputs && Request.ValidationError(inputs[PluginKey]).Some?
    ensures InputGate(workflowID, inputs).Rejected? && InputGate(workflowID, inputs).requestError.Some?
    ensures InputGate(workflowID, inputs).requestError.value.Message() ==
      "malformed plugin input: " + Request.ValidationError(inputs[PluginKey]).value.Message()
  {
    var arg := ErrArg(Request.ValidationError(inputs[PluginKey]).value.Message());
    assert InputGate(workflowID, inputs) == Rejected(AsError(DetailedOrNil(ErrRequestInputMalformedError, [arg])));
    FormatShapes();
    WithOneArgMessage(ErrRequestInputMalformedError, "malformed plugin input: ", 'v', arg);
  }

  /** A validation failure is a bad request whose error carries the validation message. */
  lemma ValidationFailureGate(req: HttpRequest)
    requires req.httpMethod == "POST" && req.contentType == "application/json"
    requires req.body.Parsed? && req.body.workflow.Some? && req.body.template.Some?
    requires req.body.template.value.plugin.Decoded? && PluginKey in req.body.template.value.plugin.inputs
    requires Request.ValidationError(req.body.template.value.plugin.inputs[PluginKey]).Some?
    ensures RequestGate(req).Rejected? && RequestGate(req).requestError.Some?
    ensures RequestGate(req).requestError.value.Message() ==
      "malformed plugin input: " + Request.ValidationError(req.body.template.value.plugin.inputs[PluginKey]).value.Message()
  {
    DecodedBodyGate(req);
    InvalidInputRejected(req.body.workflow.value.uid, req.body.template.value.plugin.inputs);
  }

  /** An accepted input has passed validation, so a mock input's state is "running" or
      "success" and the mock-error branch is never taken. */
  lemma MockErrorUnreachable(req: HttpRequest)
    requires RequestGate(req).Accepted? && RequestGate(req).input.mock
    ensures RequestGate(req).input.mockState in Request.AllowedMockStates
    ensures RequestGate(req).input.mockState != "error"
  {
  }

  /** With mock set, the reply depends only on the mock state: neither the records nor SageMaker
      are consulted. */
  lemma MockShortCircuit(ex: ExecutorPlugin, req: HttpRequest, sm: SMP.SageMakerService)
    requires RequestGate(req).Accepted? && RequestGate(req).input.mock
    ensures RequestGate(req).input.mockState == "success" ==>
      BuildReply(HandlerResponse(ex, req, sm)) == Reply(NodeSucceeded, "success", None)
    ensures RequestGate(req).input.mockState == "running" ==>
      BuildReply(HandlerResponse(ex, req, sm)) == Reply(NodeRunning, "running", Some(60))
  {
  }

  /** Without mock, only SageMaker Pipelines requests reach a collaborator; every other
      service is answered as a success with message "success" without contacting AWS. */
  lemma OtherServicesSucceedWithoutCall(ex: ExecutorPlugin, req: HttpRequest, sm: SMP.SageMakerService)
    requires RequestGate(req).Accepted? && !RequestGate(req).input.mock
    requires RequestGate(req).input.serviceName != Request.SageMakerPipelines
    ensures BuildReply(HandlerResponse(ex, req, sm)) == Reply(NodeSucceeded, "success", None)
  {
  }

  /** For a SageMaker Pipelines execute, a recorded execution is checked by its id; without a
      record the pipeline is started. Validate runs the existence check. */
  lemma SageMakerDispatch(ex: ExecutorPlugin, req: HttpRequest, sm: SMP.SageMakerService)
    requires RequestGate(req).Accepted? && !RequestGate(req).input.mock
    requires RequestGate(req).input.serviceName == Request.SageMakerPipelines
    ensures RequestGate(req).input.action == "validate" ==>
      HandlerResponse(ex, req, sm) == SMP.CheckIfSageMakerPipelineExists(sm.describePipeline(RequestGate(req).input.resourceArn))
    ensures RequestGate(req).input.action == "execute" && RecordedId(ex, RequestGate(req).workflowID).Some? ==>
      HandlerResponse(ex, req, sm) ==
        SMP.ExecutionResponse(sm.describePipelineExecution(RecordedId(ex, RequestGate(req).workflowID).value))
    ensures RequestGate(req).input.action == "execute" && RecordedId(ex, RequestGate(req).workflowID).None? ==>
      HandlerResponse(ex, req, sm) == SMP.StartSageMakerPipelineExecution(sm.startPipelineExecution(RequestGate(req).input.resourceArn))
  {
  }

  /** As written, a body that decodes without a workflow or a template is answered as a
      success: the nil parse error makes `WithArgs` return nil, so no request error is set. */
  lemma MissingWorkflowRepliesSuccess(ex: ExecutorPlugin, req: HttpRequest, sm: SMP.SageMakerService)
    requires req.httpMethod == "POST" && req.contentType == "application/json"
    requires MissingWorkflowOrTemplate(req)
    ensures RequestGate(req) == Rejected(None)
    ensures BuildReply(HandlerResponse(ex, req, sm)) == Reply(NodeSucceeded, "success", None)
  {
    NilArgumentIsDropped(ErrRequestParserError);
  }

  /** With the missing workflow or template reported, every rejected request carries an error
      and so gets a 400, and every other request is gated as before. */
  lemma IntendedGateRejectsWithError(req: HttpRequest)
    ensures IntendedRequestGate(req).Rejected? ==> IntendedRequestGate(req).requestError.Some?
    ensures IntendedRequestGate(req).Rejected? ==>
      BuildReply(EmptyResponse.(requestError := IntendedRequestGate(req).requestError)) == BadRequest
    ensures !MissingWorkflowOrTemplate(req) ==> IntendedRequestGate(req) == RequestGate(req)
    ensures req.httpMethod == "POST" && req.contentType == "application/json" && MissingWorkflowOrTemplate(req) ==>
      IntendedRequestGate(req).Rejected? && IntendedRequestGate(req).requestError.Some?
  {
    forall g: GenericError, a: Arg | !a.NilArg?
      ensures DetailedOrNil(g, [a]).Some?
    {
      DetailedOrNilWithoutNil(g, [a]);
    }
  }

  /** As written, the one-argument start records nothing, so a SageMaker Pipelines execute
      request that is polled again finds no record and starts the pipeline again: the handler
      changes no state, and both polls start. */
  method PollTwice(ex: ExecutorPlugin, req: HttpRequest, sm: SMP.SageMakerService)
    returns (first: TemplateReply, second: TemplateReply)
    requires RequestGate(req).Accepted? && !RequestGate(req).input.mock
    requires RequestGate(req).input.serviceName == Request.SageMakerPipelines
    requires RequestGate(req).input.action == "execute"
    requires RecordedId(ex, RequestGate(req).workflowID).None?
    ensures first == second
    ensures second == BuildReply(SMP.StartSageMakerPipelineExecution(sm.startPipelineExecution(RequestGate(req).input.resourceArn)))
  {
    first := HandleTemplateExecute(ex, req, sm);
    second := HandleTemplateExecute(ex, req, sm);
  }
}
