# argo-workflows-aws-plugin: a Dafny model of the executor plugin core

This project models the core of the Argo Workflows executor plugin. The plugin drives AWS
services from workflow steps:

- Amazon SageMaker Pipelines
- AWS Glue jobs
- AWS Step Functions
- AWS Lambda functions

The model covers these parts:

- **Status** (`status.dfy`): the workflow status enumeration and its `String()` form.
- **Errors** (`errors.dfy`):
  - the `GenericError` / `DetailedError` pair;
  - `WithArgs` with its nil-argument rule;
  - the part of `fmt.Sprintf` the error formats use.
- **Request** (`request.dfy`):
  - the plugin request;
  - `Validate`, which checks fields in a fixed order and writes the ARN of the named resource.
- **Plugin** (`plugin.dfy`):
  - the plugin object and its map of recorded executions (keyed by the workflow run's uid);
  - `Configure`.
- **Reply** (`reply.dfy`): the reply builder deferred in the template-execute handler. It
  maps a `PluginResponse` to HTTP 400 or to a node phase, a message and a requeue interval.
- **Services**: one module per service file (`sagemaker_pipelines.dfy`,
  `sagemaker_pipeline.dfy`, `glue_job.dfy`, `step_function.dfy`, `lambda_function.dfy`).
  - Each AWS SDK call is a parameter: its outcome is session failure, call failure,
    serialisation failure, or a returned value with its JSON text.
  - Each operation is the response the source builds from that outcome.
  - The operations that record an execution are methods on the plugin object.
  - The Lambda runner updates its record in place.
- **TemplateExecute** (`template_execute.dfy`): the template-execute handler.
  - The gates run in order: method, content type, body read, body parse,
    plugin-input decode, plugin key, validation.
  - Then come the mock short-circuit, the SageMaker Pipelines dispatch through the record
    lookup, and the reply.

In these places the code does something other than its names and comments suggest; the model follows the code:

- A mock state of "error" is rejected by validation (request.go:26-29, 99-106). The handler's
  mock-error branch is therefore unreachable (`TemplateExecute.MockErrorUnreachable`).
- The reply builder ignores `Status` and `RequeueDuration` (plugin.go:141-176):
  - a running reply always asks for a 60-second requeue, even where a service asked for 5 seconds;
  - a response whose status says the execution failed, but which carries no execution error,
    ends the node as succeeded.
- A validation failure is a request error, answered with HTTP 400. It is not an execution
  error that fails the node.
- Only `amazon_sagemaker_pipelines` requests are dispatched by the handler (plugin.go:273-288).
  Every other service is answered as a success without any AWS call.
- The handler calls the one-argument SageMaker operations of `amazon_sagemaker_pipelines.go`.
  They record nothing and use status numbers of their own.
  - The two-argument operations of `amazon_sagemaker_pipeline.go` declare the same method
    names, so the two files cannot be built into one package.
  - Both are modelled, in separate modules.

## Model

| member | source | states |
|---|---|---|
| Status.String | status.go:36-46 | SUCCESS, RUNNING and ERROR print by name, every other value as `PluginWorkflowStatus(n)`; stated by StringRoundTrip, NamedStringsAreDistinct and UnknownIsNumbered |
| Status.DigitsValueOfDecimal | status.go:45 | the decimal digits `%d` prints for a natural number denote that number |
| Status.DecimalRoundTrip | status.go:45 | `%d` of any integer, sign included, parses back to that integer |
| Status.StringRoundTrip | status.go:36-46 | `String()` is injective: every status, named or numbered, parses back from its text |
| Status.NamedStringsAreDistinct | status.go:38-45 | SUCCESS, RUNNING and ERROR print as success, running and error; every other value prints with the `PluginWorkflowStatus(` prefix and never as one of the three names |
| Status.UnknownIsNumbered | status.go:45 | UNKNOWN (zero) has no name and prints as `PluginWorkflowStatus(0)` |
| Errors.GenericError.Error | error.go:25-27 | a GenericError's message is its text; stated by GenericErrorPrintsItsText |
| Errors.DetailedError.Error | error.go:63-65 | the wrapped error's text formatted with the stored arguments; stated by DetailedOrNilWithoutNil, WithOneArgMessage and DetailedErrorExample |
| Errors.Format | error.go:63-65 | `fmt.Sprintf` for the `%v`, `%s` and `%%` verbs; stated by FormatPlainPrefix, FormatWithoutVerbs and FormatOneArg |
| Errors.WithArgs | error.go:30-54 | the loop's result is nil exactly when some argument is nil and none is an error; otherwise it is a DetailedError over exactly the given arguments that unwraps to the receiver |
| Errors.DetailedError.Unwrap | error.go:67-70 | unwrapping gives back a GenericError with the same text |
| Errors.GenericErrorPrintsItsText | error.go:22-27 | a GenericError prints its own text; wrapped with no arguments, a text without verbs prints unchanged |
| Errors.FormatPlainPrefix | error.go:62-65 | formatting leaves text without `%` unchanged and carries on with the rest of the format |
| Errors.FormatWithoutVerbs | error.go:62-65 | a format without `%` prints as itself whatever the arguments |
| Errors.FormatOneArg | error.go:62-65 | a plain prefix followed by one `%v` or `%s` prints as the prefix followed by the argument's text |
| Errors.WithOneArgMessage | error.go:48-65 | wrapping a plain-prefix, one-verb GenericError with one non-nil argument gives a DetailedError whose message is the prefix followed by the argument |
| Errors.DetailedErrorExample | error_test.go:40-44 | `this is detailed error: %v` with `foo` prints `this is detailed error: foo` |
| Errors.DetailedOrNilWithoutNil | error.go:44-53 | with no nil argument the result is always a DetailedError, printed by formatting the text with the arguments |
| Errors.NilArgumentIsDropped | error.go:44-46 | a single nil argument makes `WithArgs` return nil instead of an error (error_test.go:45-49 skips this case) |
| Response.ExecutionFailure | aws_glue_job.go:48-53 | a failure response carries only the execution error with the given message, plus its status |
| Aws.StringPointer.constructor | amazon_sagemaker_pipelines.go:135 | `aws.String` gives a pointer to the given text |
| Request.ValidationError | request.go:54-108 | the error `Validate` returns, checks in source order; stated by ValidationAcceptsExactly, EmptyFieldsInOrder, UnsupportedValuesRejected, MissingNameFieldRejected, MockStateChecked and MockStateIgnoredWithoutMock |
| Request.Validated | request.go:76-97 | the request after `Validate`, with the ARN written once the service and its name pass; stated by AcceptedRequestArn and ValidateIdempotent |
| Request.ArnFor | request.go:81-96 | the ARN template of each service; stated by ArnNamesItsService and AcceptedRequestArn |
| Request.MissingNameMessage | request.go:78-95 | the message for a missing name is that name's field key followed by ` is empty` |
| Request.PluginRequest.constructor | request.go:37-51 | a decoded request holds exactly the decoded field values |
| Request.PluginRequest.Validate | request.go:54-108 | the error returned is the first failing check in source order; the new state is the old one with only the ARN replaced, and only once the service and its name have passed |
| Request.FirstEmptyFindsEmpty | request.go:55-66 | the first-empty search finds nothing exactly when every field is non-empty |
| Request.EmptyFieldsInOrder | request.go:55-66 | when any of account_id, service, action and region is empty, the error names the first empty one in that order |
| Request.ValidationAcceptsExactly | request.go:54-108 | a request is accepted exactly when the four fields are set, the service and action are supported, the service's name field is set, and a mock request has a supported mock state |
| Request.UnsupportedValuesRejected | request.go:68-74 | an unsupported service, and then an unsupported action, is rejected with a message quoting it |
| Request.MissingNameFieldRejected | request.go:76-95 | an empty name field of the chosen service is rejected with a message naming that field |
| Request.AcceptedRequestArn | request.go:76-97 | an accepted request carries its service's ARN, built from region, account and name |
| Request.ValidateIdempotent | request.go:76-97 | validation changes only the ARN, ignores a caller-supplied ARN, and validating twice equals validating once |
| Request.MockStateChecked | request.go:99-106 | with mock set, an empty state and an unsupported one (including "error") are rejected, and only running and success are accepted |
| Request.MockStateIgnoredWithoutMock | request.go:99 | with mock unset, the mock state changes neither the verdict nor the ARN |
| Request.StartsWithConcat | request.go:81-96 | each ARN template is a prefix of the ARN built from it |
| Request.DiffersAt | request.go:81-96 | two prefixes that differ at one position cannot both start the same ARN |
| Request.PrefixedArnService | request.go:81-96 | each of the four ARN prefixes is read back as its own service, whatever follows it |
| Request.ArnNamesItsService | request.go:81-96 | the four ARN templates can be told apart: the service read back from a derived ARN is the service it was built for |
| Plugin.PluginWorkflow.constructor | amazon_sagemaker_pipeline.go:115-117 | a new record holds the given id, status and message |
| Plugin.ExecutorPlugin.constructor | plugin.go:50-59 | a new plugin has a nil map and no cluster client configuration |
| Plugin.ExecutorPlugin.Lookup | plugin.go:279 | a lookup finds a record exactly when the map exists and has the key; a nil map reads as empty |
| Plugin.ExecutorPlugin.Put | amazon_sagemaker_pipeline.go:115-117 | a write replaces the entry under its key and leaves every other entry unchanged |
| Plugin.ExecutorPlugin.Configure | plugin.go:62-103 | the in-cluster config and then the client are obtained only if missing; the error returned is the config failure, else the client failure, else nil; a config obtained before a client failure stays set; on success both are present and a nil map becomes an empty one, while existing records are kept |
| Reply.BuildReply | plugin.go:141-176 | 400 exactly on a request error; NodeError exactly on an execution error; NodeRunning exactly when a requeue is asked without an execution error, always with 60 seconds; a non-empty message passes through unchanged, an empty one is replaced by running, success or the error text |
| Reply.ReplyIgnoresStatusAndDuration | plugin.go:146-176 | the reply does not depend on the response's status or requeue duration |
| Reply.FailureStatusWithoutErrorSucceeds | plugin.go:149-165 | a response with status 2 or 3, no error and no requeue is reported as succeeded |
| Reply.ZeroResponses | plugin.go:149-165 | the zero response succeeds with message success; asking only for a requeue gives running with 60 seconds |
| SageMakerPipelines.CallFailure | amazon_sagemaker_pipelines.go:68-92 | a failed call gives only an execution error with the call's prefix and the cause, and status zero |
| SageMakerPipelines.CheckIfSageMakerPipelineExists | amazon_sagemaker_pipelines.go:29-61 | the check fails exactly when a call fails, with the message of that failure; a success passes on the pipeline's JSON |
| SageMakerPipelines.StartSageMakerPipelineExecution | amazon_sagemaker_pipelines.go:64-101 | a start asks for a 60-second requeue exactly when the call returns, and records nothing |
| SageMakerPipelines.ExecutionResponse | amazon_sagemaker_pipelines.go:104-155 | a returned description is passed on with status 3 and no requeue, whatever the execution status; failures carry their messages |
| SageMakerPipelines.CheckSageMakerPipelineExecution | amazon_sagemaker_pipelines.go:104-155 | the status switch compares freshly made pointers by reference, so only the default case is reached and the result is ExecutionResponse |
| SageMakerPipelines.IntendedExecutionResponse | amazon_sagemaker_pipelines.go:134-154 | compared by value, InProgress and Stopping requeue, Succeeded has status SUCCESS, and a returned description is passed on |
| SageMakerPipelines.InProgressExecutionReportedFinished | amazon_sagemaker_pipelines.go:134-154 | an execution still in progress ends the node as succeeded and is not polled again |
| SageMakerPipelines.IntendedExecutionIsPolledUntilDone | amazon_sagemaker_pipelines.go:134-154 | compared by value, an execution in progress or stopping is polled again after 60 seconds, and only a finished one ends the node |
| SageMakerPipeline.CheckIfSageMakerPipelineExists | amazon_sagemaker_pipeline.go:30-67 | the check fails exactly when a call fails, with status 2 and that failure's message; otherwise status 1 with the pipeline's JSON |
| SageMakerPipeline.StartResponse | amazon_sagemaker_pipeline.go:70-127 | a start succeeds exactly when an execution ARN comes back, and then asks for a 60-second requeue with status 3; a session failure has status 0, other failures 2, and an empty ARN carries its own message |
| SageMakerPipeline.StartSageMakerPipelineExecution | amazon_sagemaker_pipeline.go:70-127 | the response is StartResponse; a successful start records a new record holding the execution ARN, with empty status and message, under the workflow run's uid and changes no other entry; a failed start leaves the map as it was |
| SageMakerPipeline.CheckSageMakerPipelineExecution | amazon_sagemaker_pipeline.go:130-191 | matching is exact: status 1 exactly for Succeeded, 2 exactly for Stopped and Failed, and 3 with a 60-second requeue for anything else; call failures carry their messages |
| SageMakerPipeline.ExistenceReply | amazon_sagemaker_pipeline.go:30-67 | the existence check fails the node exactly when a call fails |
| SageMakerPipeline.StartReply | amazon_sagemaker_pipeline.go:70-127 | a start keeps the node running exactly when it returned an execution ARN, and fails it otherwise |
| SageMakerPipeline.FailedExecutionReportedSucceeded | amazon_sagemaker_pipeline.go:175-179 | a stopped or failed execution has status 2 but ends the node as succeeded |
| SageMakerPipeline.StartThenPoll | amazon_sagemaker_pipeline.go:115-117 | with a start that records, the next poll checks the recorded execution and does not start again |
| GlueJob.CheckIfGlueJobExists | aws_glue_job.go:30-67 | the check fails exactly when a call fails, with status 2 and that failure's message; otherwise status 1 |
| GlueJob.StartResponse | aws_glue_job.go:70-127 | a start succeeds exactly when a run id comes back, and then asks for a 60-second requeue with status 3 |
| GlueJob.StartGlueJobExecution | aws_glue_job.go:70-127 | a successful start records the run id, with empty status and message, under the workflow run's uid and changes nothing else; a failed one leaves the map alone |
| GlueJob.CheckGlueJobExecution | aws_glue_job.go:130-194 | status 1 exactly for SUCCEEDED, 2 exactly for STOPPED, FAILED, ERROR and TIMEOUT, 3 with a requeue for others |
| GlueJob.ExistenceReply | aws_glue_job.go:30-67 | the existence check fails the node exactly when a call fails |
| GlueJob.StartReply | aws_glue_job.go:70-127 | a start keeps the node running exactly when it returned a run id |
| GlueJob.FailedExecutionReportedSucceeded | aws_glue_job.go:178-182 | a failed run has status 2 but ends the node as succeeded |
| GlueJob.PendingRunStatesRequeue | aws_glue_job.go:183-192 | STARTING, RUNNING, STOPPING and WAITING keep the node running with a 60-second requeue |
| StepFunction.CheckIfStepFunctionExists | aws_step_function.go:30-67 | the check fails exactly when a call fails, with status 2 and that failure's message; otherwise status 1 |
| StepFunction.StartResponse | aws_step_function.go:70-127 | a start succeeds exactly when an execution ARN comes back, and then asks for a 60-second requeue with status 3 |
| StepFunction.StartStepFunctionExecution | aws_step_function.go:70-127 | a successful start records the execution ARN, with empty status and message, under the workflow run's uid and changes nothing else; a failed one leaves the map alone |
| StepFunction.CheckStepFunctionExecution | aws_step_function.go:130-193 | status 1 exactly for SUCCEEDED, 2 exactly for TIMED_OUT, FAILED and ABORTED, 3 with a requeue for others |
| StepFunction.ExistenceReply | aws_step_function.go:30-67 | the existence check fails the node exactly when a call fails |
| StepFunction.StartReply | aws_step_function.go:70-127 | a start keeps the node running exactly when it returned an execution ARN |
| StepFunction.FailedExecutionReportedSucceeded | aws_step_function.go:177-181 | a failed execution has status 2 but ends the node as succeeded |
| StepFunction.RunningExecutionRequeues | aws_step_function.go:182-191 | a RUNNING execution keeps the node running with a 60-second requeue |
| LambdaFunction.CheckIfLambdaFunctionExists | aws_lambda_function.go:30-67 | the check fails exactly when a call fails, with status 2 and that failure's message; otherwise status 1 |
| LambdaFunction.StartedResponse | aws_lambda_function.go:157-164 | the started response: message, requeue with 5 seconds, status 3; stated by StartedReplyRequeue and StartLambdaFunctionExecution |
| LambdaFunction.StartLambdaFunctionExecution | aws_lambda_function.go:144-165 | a start records a new RUNNING record under the workflow run's uid and answers started with a 5-second requeue and status 3 |
| LambdaFunction.Payload | aws_lambda_function.go:92-103 | the payload is `{}` without parameters and their JSON otherwise |
| LambdaFunction.RunnerOutcome | aws_lambda_function.go:70-141 | every run ends SUCCEEDED or FAILED; SUCCEEDED exactly when session, payload and invocation all succeed, and then the message is the serialised output |
| LambdaFunction.InvokeLambdaFunctionAsync | aws_lambda_function.go:70-141 | the runner leaves its record with RunnerOutcome's status and message |
| LambdaFunction.RecordResponse | aws_lambda_function.go:173-197 | a record's message is passed on; status 1 exactly for SUCCEEDED, 2 exactly for FAILED, and a 5-second requeue exactly otherwise |
| LambdaFunction.CheckLambdaFunctionExecution | aws_lambda_function.go:168-198 | a poll reports the record's message, with 1 and 2 for the terminal states and a requeue otherwise |
| LambdaFunction.RecordLifecycle | aws_lambda_function.go:70-198 | a just-started record keeps the node running; after the runner the poll asks no requeue, and the node succeeds even when the invocation failed |
| LambdaFunction.StartedReplyRequeue | aws_lambda_function.go:157-164 | the 5-second requeue of the start becomes 60 seconds in the reply |
| LambdaFunction.StartRunAndPoll | aws_lambda_function.go:144-198 | start, runner and poll in sequence: the record under the uid holds the runner's outcome, and the poll reports it without requeue |
| TemplateExecute.Gates | plugin.go:191-252 | the request gates in order, each storing its error; stated by MethodGate, ContentTypeGate, FirstGatesAnswerBadRequest, DecodedBodyGate, ValidationFailureGate, MissingWorkflowRepliesSuccess and IntendedGateRejectsWithError |
| TemplateExecute.BodyGate | plugin.go:201-215 | the body must be read and decode with a workflow and a template; stated by DecodedBodyGate and MissingWorkflowRepliesSuccess |
| TemplateExecute.PluginGate | plugin.go:227-239 | the plugin section must re-serialise and decode; stated by DecodedBodyGate |
| TemplateExecute.InputGate | plugin.go:241-252 | the plugin key must be present and its request must validate; stated by InvalidInputRejected and MockErrorUnreachable |
| TemplateExecute.Dispatch | plugin.go:260-288 | the mock short-circuit, then the SageMaker Pipelines dispatch; stated by MockShortCircuit, MockErrorUnreachable, OtherServicesSucceedWithoutCall and SageMakerDispatch |
| TemplateExecute.HandlerResponse | plugin.go:190-288 | the handler's final response; ExecuteTemplate is proved equal to it, and the gate and dispatch lemmas characterise it |
| TemplateExecute.AsError | plugin.go:192 | a stored `WithArgs` result is an error exactly when one was returned, with the same message |
| TemplateExecute.ExecuteTemplate | plugin.go:190-288 | the imperative handler body gives HandlerResponse: gates in order, validation in place, mock short-circuit, SageMaker dispatch through the record lookup |
| TemplateExecute.HandleTemplateExecute | plugin.go:138-289 | the handler's reply is the reply builder applied to the handler's response |
| TemplateExecute.RecordedId | plugin.go:279-281 | a recorded id exists exactly when the map holds a record for the workflow run |
| TemplateExecute.FormatShapes | plugin.go:37-45 | the malformed-request and malformed-input formats are a plain prefix followed by one verb |
| TemplateExecute.MethodGate | plugin.go:191-194 | a method other than POST is rejected with `malformed request: method is not POST` |
| TemplateExecute.ContentTypeGate | plugin.go:196-199 | a POST whose content type is not application/json is rejected with the unsupported-content-type error |
| TemplateExecute.FirstGatesAnswerBadRequest | plugin.go:191-199 | failing either of the first two gates gives 400, whatever the records and the services |
| TemplateExecute.DecodedBodyGate | plugin.go:201-247 | a POST with a JSON body that decodes with a workflow, a template and a decodable plugin section is gated on that section alone |
| TemplateExecute.InvalidInputRejected | plugin.go:241-252 | on a decoded plugin section, an input that fails validation is rejected with `malformed plugin input: ` followed by the validation message |
| TemplateExecute.ValidationFailureGate | plugin.go:248-252 | a validation failure is rejected with `malformed plugin input: ` followed by the validation message |
| TemplateExecute.MockErrorUnreachable | plugin.go:260-270 | an accepted mock input has state running or success, never error |
| TemplateExecute.MockShortCircuit | plugin.go:260-266 | a mock input is answered from its state alone, without records or service calls |
| TemplateExecute.OtherServicesSucceedWithoutCall | plugin.go:273-288 | a non-mock request for a service other than SageMaker Pipelines is answered as success without a call |
| TemplateExecute.SageMakerDispatch | plugin.go:273-286 | validate runs the existence check; execute checks a recorded execution by its id and otherwise starts the pipeline |
| TemplateExecute.MissingWorkflowRepliesSuccess | plugin.go:211-215 | a body without a workflow or a template sets no request error, and the reply is a success |
| TemplateExecute.IntendedGateRejectsWithError | plugin.go:211-215 | with the missing part reported as a non-nil argument, every rejection carries an error and gets 400; other requests are gated as before |
| TemplateExecute.PollTwice | plugin.go:278-285 | with no record, two polls of a SageMaker execute both start the pipeline and reply alike, since the start records nothing |

## Left out

- The HTTP server, its health-check handler, the command line and flags (main.go), and all
  logging are not modelled.
- The JSON encoding is not modelled at the byte level:
  - decoding a body, a template's plugin section or an SDK output is an outcome given as a parameter;
  - `Parameters` values are their JSON text.
- AWS SDK calls and session creation are parameters whose outcome is given. Region and
  credentials handling inside the SDK is left out.
- Concurrency is left out:
  - the Lambda runner goroutine is run to completion, in sequence, before the next poll;
  - the record's mutex is not modelled;
  - a poll that overlaps a running invocation is not modelled.
- Panics are left out:
  - the runner's recovery is an invocation outcome carrying the panic's message, and the `r.(error)` assertion is not modelled;
  - a nil pointer dereference (a nil `*string` in an SDK output, a nil plugin-request entry in the decoded map) is not modelled;
  - `flags.GetBool` panicking in `Configure` is not modelled.
- Plugin.ExecutorPlugin.Configure: the logger construction inside it is left out, and the
  cluster configuration and client are represented only by whether they are present.
- The definition of `PluginWorkflow` is not part of this model. It is modelled with the three
  fields the core reads and writes: id, status and message.
- `fmt` verbs other than `%v`, `%s` and `%%` are not modelled, and neither is the
  `%!(EXTRA …)` suffix for surplus arguments.
- Errors.WithArgs: the typed-nil error branch (error.go:35-37) is not modelled, because an
  argument is either a nil interface, an error or a string.
- Durations are whole seconds.
- The model does not express that `amazon_sagemaker_pipeline.go` and
  `amazon_sagemaker_pipelines.go` cannot be built together. Each is modelled on its own.

## Findings

| source | as written | input that shows it | evidently intended | confidence | as-written member | corrected member |
|---|---|---|---|---|---|---|
| plugin.go:211-215 | `WithArgs(err)` is called with the parse error even when decoding succeeded, so `err` is nil and `WithArgs` returns nil | a POST with content type application/json and body `{}` (no workflow, no template) | a 400 with a parse error | not executed | TemplateExecute.MissingWorkflowRepliesSuccess | TemplateExecute.IntendedGateRejectsWithError |
| amazon_sagemaker_pipelines.go:134-154 | `switch output.PipelineExecutionStatus` compares the SDK's `*string` with newly allocated `aws.String(...)` pointers, so no case matches | an execution whose status is InProgress | by-value comparison: InProgress and Stopping requeue, Succeeded succeeds | not executed | SageMakerPipelines.InProgressExecutionReportedFinished | SageMakerPipelines.IntendedExecutionIsPolledUntilDone |
| amazon_sagemaker_pipelines.go:94-100 | the one-argument start the handler calls never stores the execution in `ex.Workflows`, so the record lookup at plugin.go:279-285 never finds one | two successive execute requests for the same workflow run | the first start records the execution and later polls check it | not executed | TemplateExecute.PollTwice | SageMakerPipeline.StartThenPoll |
