/** The plugin input and its validation (request.go). */
module Request {
  import opened Options
  import opened Errors

  const SageMakerPipelines := "amazon_sagemaker_pipelines"
  const Glue := "aws_glue"
  const StepFunctions := "aws_step_functions"
  const Lambda := "aws_lambda"

  const AllowedServiceNames: set<string> := {SageMakerPipelines, Glue, StepFunctions, Lambda}
  const AllowedMockStates: set<string> := {"running", "success"}
  const AllowedActions: set<string> := {"validate", "execute"}

  /** The value of a `PluginRequest`, field by field. `parameters` is the free-form map
      handed to a lambda function; each value is kept as its JSON text. */
  datatype Request = Request(
    kind: string,
    accountId: string,
    serviceName: string,
    action: string,
    pipelineName: string,
    jobName: string,
    stepFunctionName: string,
    lambdaFunctionName: string,
    parameters: Option<map<string, string>>,
    resourceArn: string,
    regionName: string,
    mock: bool,
    mockState: string)

  /** The name field the request's service requires. */
  function ResourceName(r: Request): string {
    if r.serviceName == SageMakerPipelines then r.pipelineName
    else if r.serviceName == Glue then r.jobName
    else if r.serviceName == StepFunctions then r.stepFunctionName
    else if r.serviceName == Lambda then r.lambdaFunctionName
    else ""
  }

  /** The JSON key of the name field a service requires. */
  function ResourceNameKey(service: string): string {
    if service == SageMakerPipelines then "pipeline_name"
    else if service == Glue then "job_name"
    else if service == StepFunctions then "step_function_name"
    else if service == Lambda then "lambda_function_name"
    else ""
  }

  /** The error an empty name field gives, naming its JSON key. */
  function MissingNameMessage(service: string): (m: string)
    ensures m == ResourceNameKey(service) + " is empty"
  {
    if service == SageMakerPipelines then "pipeline_name is empty"
    else if service == Glue then "job_name is empty"
    else if service == StepFunctions then "step_function_name is empty"
    else if service == Lambda then "lambda_function_name is empty"
    else " is empty"
  }

  /** The resource ARN template of each service. */
  function ArnFor(service: string, region: string, account: string, name: string): string {
    if service == SageMakerPipelines then "arn:aws:sagemaker:" + region + ":" + account + ":pipeline/" + name
    else if service == Glue then "arn:aws:glue:" + region + ":" + account + ":job/" + name
    else if service == StepFunctions then "arn:aws:states:" + region + ":" + account + ":stateMachine:" + name
    else if service == Lambda then "arn:aws:lambda:" + region + ":" + account + ":function:" + name
    else ""
  }

  /** The error `Validate` returns for a request, nil being `None`. */
  function ValidationError(r: Request): Option<Error> {
    if r.accountId == "" then Some(Errorf("account_id is empty"))
    else if r.serviceName == "" then Some(Errorf("service is empty"))
    else if r.action == "" then Some(Errorf("action is empty"))
    else if r.regionName == "" then Some(Errorf("region name is empty"))
    else if r.serviceName !in AllowedServiceNames then
      Some(Errorf("service '" + r.serviceName + "' is not supported"))
    else if r.action !in AllowedActions then Some(Errorf("action '" + r.action + "' is not supported"))
    else if ResourceName(r) == "" then Some(Errorf(MissingNameMessage(r.serviceName)))
    else if r.mock && r.mockState == "" then Some(Errorf("mock state is empty"))
    else if r.mock && r.mockState !in AllowedMockStates then
      Some(Errorf("mock state '" + r.mockState + "' is not supported"))
    else None
  }

  /** Whether `Validate` gets as far as assigning the resource ARN. */
  predicate ReachesArn(r: Request) {
    && r.accountId != "" && r.serviceName != "" && r.action != "" && r.regionName != ""
    && r.serviceName in AllowedServiceNames && r.action in AllowedActions
    && ResourceName(r) != ""
  }

  /** The request as `Validate` leaves it: the derived ARN once the name checks pass,
      otherwise as it was. */
  function Validated(r: Request): Request {
    if ReachesArn(r) then r.(resourceArn := ArnFor(r.serviceName, r.regionName, r.accountId, ResourceName(r)))
    else r
  }

  /** `*PluginRequest`: the decoded plugin input, which `Validate` updates in place. */
  class PluginRequest {
    var kind: string
    var accountId: string
    var serviceName: string
    var action: string
    var pipelineName: string
    var jobName: string
    var stepFunctionName: string
    var lambdaFunctionName: string
    var parameters: Option<map<string, string>>
    var resourceArn: string
    var regionName: string
    var mock: bool
    var mockState: string

    /** The current value of every field. */
    function View(): Request
      reads this
    {
      Request(kind, accountId, serviceName, action, pipelineName, jobName, stepFunctionName,
              lambdaFunctionName, parameters, resourceArn, regionName, mock, mockState)
    }

    /** A request decoded from its JSON value. */
    constructor (r: Request)
      ensures View() == r
    {
      kind, accountId, serviceName, action := r.kind, r.accountId, r.serviceName, r.action;
      pipelineName, jobName, stepFunctionName := r.pipelineName, r.jobName, r.stepFunctionName;
      lambdaFunctionName, parameters, resourceArn := r.lambdaFunctionName, r.parameters, r.resourceArn;
      regionName, mock, mockState := r.regionName, r.mock, r.mockState;
    }

    /** request.go: `Validate`. Checks the fields in order, returning at the first failure,
        and writes only `resourceArn`. */
    method Validate() returns (err: Option<Error>)
      modifies this`resourceArn
      ensures err == ValidationError(old(View()))
      ensures View() == Validated(old(View()))
    {
      if accountId == "" {
        return Some(Errorf("account_id is empty"));
      }
      if serviceName == "" {
        return Some(Errorf("service is empty"));
      }
      if action == "" {
        return Some(Errorf("action is empty"));
      }
      if regionName == "" {
        return Some(Errorf("region name is empty"));
      }
      if serviceName !in AllowedServiceNames {
        return Some(Errorf("service '" + serviceName + "' is not supported"));
      }
      if action !in AllowedActions {
        return Some(Errorf("action '" + action + "' is not supported"));
      }
      if serviceName == SageMakerPipelines {
        if pipelineName == "" {
          return Some(Errorf("pipeline_name is empty"));
        }
        resourceArn := "arn:aws:sagemaker:" + regionName + ":" + accountId + ":pipeline/" + pipelineName;
      } else if serviceName == Glue {
        if jobName == "" {
          return Some(Errorf("job_name is empty"));
        }
        resourceArn := "arn:aws:glue:" + regionName + ":" + accountId + ":job/" + jobName;
      } else if serviceName == StepFunctions {
        if stepFunctionName == "" {
          return Some(Errorf("step_function_name is empty"));
        }
        resourceArn := "arn:aws:states:" + regionName + ":" + accountId + ":stateMachine:" + stepFunctionName;
      } else if serviceName == Lambda {
        if lambdaFunctionName == "" {
          return Some(Errorf("lambda_function_name is empty"));
        }
        resourceArn := "arn:aws:lambda:" + regionName + ":" + accountId + ":function:" + lambdaFunctionName;
      }
      if mock {
        if mockState == "" {
          return Some(Errorf("mock state is empty"));
        }
        if mockState !in AllowedMockStates {
          return Some(Errorf("mock state '" + mockState + "' is not supported"));
        }
      }
      return None;
    }
  }

  /** The four fields every request needs, with the names their errors use, in checking order. */
  function RequiredFields(r: Request): seq<(string, string)> {
    [("account_id", r.accountId), ("service", r.serviceName), ("action", r.action), ("region name", r.regionName)]
  }

  /** The name of the first field in the list whose value is empty. */
  function FirstEmpty(fields: seq<(string, string)>): Option<string> {
    if fields == [] then None
    else if fields[0].1 == "" then Some(fields[0].0)
    else FirstEmpty(fields[1..])
  }

  lemma {:induction false} FirstEmptyFindsEmpty(fields: seq<(string, string)>)
    ensures FirstEmpty(fields).None? <==> forall i :: 0 <= i < |fields| ==> fields[i].1 != ""
    decreases |fields|
  {
    if fields != [] {
      FirstEmptyFindsEmpty(fields[1..]);
      assert forall i :: 1 <= i < |fields| ==> fields[i] == fields[1..][i - 1];
    }
  }

  /** The empty-field checks run in a fixed order: when any of account_id, service, action
      and region is empty, the error names the first empty one in that order. */
  lemma EmptyFieldsInOrder(r: Request)
    requires r.accountId == "" || r.serviceName == "" || r.action == "" || r.regionName == ""
    ensures FirstEmpty(RequiredFields(r)).Some?
    ensures ValidationError(r) == Some(Errorf(FirstEmpty(RequiredFields(r)).value + " is empty"))
  {
    var f := RequiredFields(r);
    assert f[1..] == [f[1], f[2], f[3]];
    assert f[1..][1..] == [f[2], f[3]];
    assert f[1..][1..][1..] == [f[3]];
    if r.accountId == "" {
      assert FirstEmpty(f) == Some("account_id");
      assert "account_id" + " is empty" == "account_id is empty";
    } else if r.serviceName == "" {
      assert FirstEmpty(f) == FirstEmpty(f[1..]) == Some("service");
      assert "service" + " is empty" == "service is empty";
    } else if r.action == "" {
      assert FirstEmpty(f) == FirstEmpty(f[1..]) == FirstEmpty(f[1..][1..]) == Some("action");
      assert "action" + " is empty" == "action is empty";
    } else {
      assert FirstEmpty(f) == FirstEmpty(f[1..]) == FirstEmpty(f[1..][1..]) == FirstEmpty(f[1..][1..][1..]) == Some("region name");
      assert "region name" + " is empty" == "region name is empty";
    }
  }

  /** A request is accepted exactly when every check passes. */
  lemma ValidationAcceptsExactly(r: Request)
    ensures ValidationError(r).None? <==>
      && r.accountId != "" && r.serviceName != "" && r.action != "" && r.regionName != ""
      && r.serviceName in AllowedServiceNames && r.action in AllowedActions
      && ResourceName(r) != ""
      && (r.mock ==> r.mockState in AllowedMockStates)
  {
  }

  /** A service outside the four supported ones, or an action other than validate and
      execute, is rejected with an error naming it. */
  lemma UnsupportedValuesRejected(r: Request)
    requires r.accountId != "" && r.serviceName != "" && r.action != "" && r.regionName != ""
    ensures r.serviceName !in AllowedServiceNames ==>
      ValidationError(r) == Some(Errorf("service '" + r.serviceName + "' is not supported"))
    ensures r.serviceName in AllowedServiceNames && r.action !in AllowedActions ==>
      ValidationError(r) == Some(Errorf("action '" + r.action + "' is not supported"))
  {
  }

  /** An empty name field of the chosen service is rejected with an error naming that field. */
  lemma MissingNameFieldRejected(r: Request)
    requires r.accountId != "" && r.action != "" && r.regionName != "" && r.action in AllowedActions
    ensures r.serviceName == SageMakerPipelines && r.pipelineName == "" ==>
      ValidationError(r) == Some(Errorf("pipeline_name is empty"))
    ensures r.serviceName == Glue && r.jobName == "" ==>
      ValidationError(r) == Some(Errorf("job_name is empty"))
    ensures r.serviceName == StepFunctions && r.stepFunctionName == "" ==>
      ValidationError(r) == Some(Errorf("step_function_name is empty"))
    ensures r.serviceName == Lambda && r.lambdaFunctionName == "" ==>
      ValidationError(r) == Some(Errorf("lambda_function_name is empty"))
  {
  }

  /** An accepted request carries the ARN template of its service, whatever ARN the caller
      supplied. */
  lemma AcceptedRequestArn(r: Request)
    requires ValidationError(r).None?
    ensures r.serviceName == SageMakerPipelines ==>
      Validated(r).resourceArn == "arn:aws:sagemaker:" + r.regionName + ":" + r.accountId + ":pipeline/" + r.pipelineName
    ensures r.serviceName == Glue ==>
      Validated(r).resourceArn == "arn:aws:glue:" + r.regionName + ":" + r.accountId + ":job/" + r.jobName
    ensures r.serviceName == StepFunctions ==>
      Validated(r).resourceArn == "arn:aws:states:" + r.regionName + ":" + r.accountId + ":stateMachine:" + r.stepFunctionName
    ensures r.serviceName == Lambda ==>
      Validated(r).resourceArn == "arn:aws:lambda:" + r.regionName + ":" + r.accountId + ":function:" + r.lambdaFunctionName
  {
  }

  /** Validation changes only the ARN, ignores the ARN it is given, and is idempotent. */
  lemma ValidateIdempotent(r: Request, callerArn: string)
    ensures Validated(r) == r.(resourceArn := Validated(r).resourceArn)
    ensures ValidationError(Validated(r)) == ValidationError(r)
    ensures Validated(Validated(r)) == Validated(r)
    ensures ReachesArn(r) ==> Validated(r.(resourceArn := callerArn)) == Validated(r)
  {
  }

  /** With mock set, an empty or unsupported mock state (including "error") is rejected,
      after the ARN has been assigned. */
  lemma MockStateChecked(r: Request)
    requires ReachesArn(r) && r.mock
    ensures r.mockState == "" ==> ValidationError(r) == Some(Errorf("mock state is empty"))
    ensures r.mockState == "error" ==>
      ValidationError(r) == Some(Errorf("mock state 'error' is not supported"))
    ensures ValidationError(r).None? <==> r.mockState == "running" || r.mockState == "success"
    ensures Validated(r).resourceArn == ArnFor(r.serviceName, r.regionName, r.accountId, ResourceName(r))
  {
    assert "mock state '" + "error" + "' is not supported" == "mock state 'error' is not supported";
  }

  /** With mock unset, the mock state is never inspected. */
  lemma MockStateIgnoredWithoutMock(r: Request, state: string)
    requires !r.mock
    ensures ValidationError(r.(mockState := state)) == ValidationError(r)
    ensures Validated(r.(mockState := state)).resourceArn == Validated(r).resourceArn
  {
  }

  predicate StartsWith(s: string, p: string) {
    |p| <= |s| && s[..|p|] == p
  }

  /** The service an ARN belongs to, read from its service segment. */
  function ServiceOfArn(arn: string): Option<string> {
    if StartsWith(arn, "arn:aws:sagemaker:") then Some(SageMakerPipelines)
    else if StartsWith(arn, "arn:aws:glue:") then Some(Glue)
    else if StartsWith(arn, "arn:aws:states:") then Some(StepFunctions)
    else if StartsWith(arn, "arn:aws:lambda:") then Some(Lambda)
    else None
  }

  lemma StartsWithConcat(p: string, rest: string)
    ensures StartsWith(p + rest, p)
  {
    assert (p + rest)[..|p|] == p;
  }

  lemma DiffersAt(s: string, p: string, q: string, i: nat)
    requires StartsWith(s, p) && i < |p| && i < |q| && p[i] != q[i]
    ensures !StartsWith(s, q)
  {
    assert s[i] == s[..|p|][i] == p[i];
  }

  /** Each ARN template's service segment is read back as its service. */
  lemma PrefixedArnService(rest: string)
    ensures ServiceOfArn("arn:aws:sagemaker:" + rest) == Some(SageMakerPipelines)
    ensures ServiceOfArn("arn:aws:glue:" + rest) == Some(Glue)
    ensures ServiceOfArn("arn:aws:states:" + rest) == Some(StepFunctions)
    ensures ServiceOfArn("arn:aws:lambda:" + rest) == Some(Lambda)
  {
    var sm, gl, st, la := "arn:aws:sagemaker:", "arn:aws:glue:", "arn:aws:states:", "arn:aws:lambda:";
    StartsWithConcat(sm, rest);
    StartsWithConcat(gl, rest);
    DiffersAt(gl + rest, gl, sm, 8);
    StartsWithConcat(st, rest);
    DiffersAt(st + rest, st, sm, 9);
    DiffersAt(st + rest, st, gl, 8);
    StartsWithConcat(la, rest);
    DiffersAt(la + rest, la, sm, 8);
    DiffersAt(la + rest, la, gl, 8);
    DiffersAt(la + rest, la, st, 8);
  }

  /** The four ARN templates are told apart by their service segment: the ARN derived for a
      service names that service. */
  lemma ArnNamesItsService(service: string, region: string, account: string, name: string)
    requires service in AllowedServiceNames
    ensures ServiceOfArn(ArnFor(service, region, account, name)) == Some(service)
  {
    var arn := ArnFor(service, region, account, name);
    if service == SageMakerPipelines {
      var rest := region + ":" + account + ":pipeline/" + name;
      assert arn == "arn:aws:sagemaker:" + rest;
      PrefixedArnService(rest);
    } else if service == Glue {
      var rest := region + ":" + account + ":job/" + name;
      assert arn == "arn:aws:glue:" + rest;
      PrefixedArnService(rest);
    } else if service == StepFunctions {
      var rest := region + ":" + account + ":stateMachine:" + name;
      assert arn == "arn:aws:states:" + rest;
      PrefixedArnService(rest);
    } else {
      var rest := region + ":" + account + ":function:" + name;
      assert arn == "arn:aws:lambda:" + rest;
      PrefixedArnService(rest);
    }
  }
}
