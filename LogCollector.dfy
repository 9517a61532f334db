/**
  The driver of deviceLogCollector.py: it creates a template project, renders
  and collapses the EEM script, creates, commits and versions a template that
  carries it, deploys the latest version to the one device given by IP address
  and polls the deployment's status.

  The controller is an oracle: the reply to the k-th request of the run is
  `oracle[k]`, and a request past the end of the oracle is one whose transport
  failed. Printing is not modelled; each `time.sleep(30)` is counted.
*/
module LogCollector {
  import opened Wrappers
  import opened Json
  import opened TemplateSelection
  import opened TemplateHelpers
  import opened EemScript

  /** The settings the driver reads (dnac_config.py); the controller address
      and credentials belong to the transport and are not part of the model. */
  datatype Config = Config(
    templateName: string, productFamily: string, deviceIp: string, processName: string,
    ftpServer: string, ftpUsername: string, ftpPassword: string, queryInterval: string)

  /** How a run ends: the poll saw SUCCESS, the poll gave up (the fail
      message), or some step exited or raised. */
  datatype Outcome = Deployed | TimedOut | Aborted(failure: Failure)

  /** What a run did: the requests it sent, in order, how often it slept and
      how it ended. */
  datatype Run = Run(trace: seq<Request>, sleeps: nat, outcome: Outcome)

  /** The reply to the k-th request of the run. */
  function ReplyAt(oracle: seq<Response>, k: nat): (r: Option<Response>)
    ensures r.Some? <==> k < |oracle|
    ensures r.Some? ==> r.value == oracle[k]
  {
    if k < |oracle| then Some(oracle[k]) else None
  }

  /** The endpoint the k-th request of a run goes to. */
  function CallOrder(k: nat): Endpoint {
    match k
    case 0 => CreateProject
    case 1 => ProjectId
    case 2 => CreateTemplate
    case 3 => ParentTemplate
    case 4 => CommitTemplate
    case 5 => TemplateId
    case 6 => TemplateVersion
    case 7 => DeviceId
    case 8 => Deploy
    case _ => DeployStatus
  }

  /** The k-th request was answered with the status its helper expects. */
  predicate Accepted(oracle: seq<Response>, k: nat, e: Endpoint) {
    k < |oracle| && oracle[k].status == ExpectedStatus(e)
  }

  /** check_status on the k-th reply: the parsed reply, once its status is
      the expected 202. */
  function Check(oracle: seq<Response>, k: nat): (r: Result<Value, Failure>)
    ensures r.Ok? <==> Accepted(oracle, k, DeployStatus)
    ensures r.Ok? ==> r.value == oracle[k].body
    ensures r.Err? ==>
      r.error == if k < |oracle| then UnexpectedStatus(DeployStatus, oracle[k].status, oracle[k].text) else Transport
  {
    match Gate(DeployStatus, ReplyAt(oracle, k))
    case Err(f) => Err(f)
    case Ok(resp) => Ok(resp.body)
  }

  /** The loop's test `status["status"] != "SUCCESS"`, negated: whether the
      deployment reports SUCCESS. Indexing raises on a reply that is not a
      dict (`TypeError`) or lacks the key (`KeyError`). */
  function ReportsSuccess(status: Value): (r: Result<bool, PyError>)
    ensures r.Ok? <==> status.Obj? && Lookup(status.fields, "status").Some?
    ensures r == Ok(true) <==> Field(status, "status") == Ok(Str("SUCCESS"))
  {
    match Field(status, "status")
    case Err(x) => Err(x)
    case Ok(v) => Ok(v == Str("SUCCESS"))
  }

  /** The five script parameters, from the settings. */
  function ScriptParamsOf(cfg: Config): ScriptParams {
    ScriptParams(cfg.processName, cfg.ftpServer, cfg.ftpUsername, cfg.ftpPassword, cfg.queryInterval)
  }

  /** The text create_template uploads: the rendered script, collapsed. */
  function UploadedScript(cfg: Config): string {
    Collapse(CreateEemScript(ScriptParamsOf(cfg)))
  }

  /** The poll, from `max_tries = 10` to the fail message. `first` is the
      status the first check_status returned, the reply to the last request
      of `trace0`; the k-th reply of the run is then `Check(oracle, k)`. While
      the counter is positive the status is examined: SUCCESS ends the loop,
      anything else sleeps, checks again and counts down. So at most ten
      re-checks follow the first check, each after one sleep; the eleventh
      status is never examined, and the run times out even if it says SUCCESS. */
  method PollDeployment(oracle: seq<Response>, trace0: seq<Request>, request: Request, first: Value)
    returns (trace: seq<Request>, sleeps: nat, outcome: Outcome)
    requires |trace0| >= 1 && Check(oracle, |trace0| - 1) == Ok(first)
    ensures |trace0| <= |trace| <= |trace0| + 10
    ensures trace[..|trace0|] == trace0
    ensures forall i :: |trace0| <= i < |trace| ==> trace[i] == request
    ensures sleeps == |trace| - |trace0|
    ensures forall k :: |trace0| - 1 <= k < |trace| - 1 ==>
      Check(oracle, k).Ok? && ReportsSuccess(Check(oracle, k).value) == Ok(false)
    ensures outcome == Deployed <==>
      |trace| < |trace0| + 10 && Check(oracle, |trace| - 1).Ok?
      && ReportsSuccess(Check(oracle, |trace| - 1).value) == Ok(true)
    ensures outcome == TimedOut <==>
      |trace| == |trace0| + 10 && Check(oracle, |trace| - 1).Ok?
    ensures outcome.Aborted? ==>
      || (Check(oracle, |trace| - 1).Err? && outcome.failure == Check(oracle, |trace| - 1).error)
      || (&& Check(oracle, |trace| - 1).Ok? && |trace| < |trace0| + 10
          && ReportsSuccess(Check(oracle, |trace| - 1).value).Err?
          && outcome.failure == Uncaught(ReportsSuccess(Check(oracle, |trace| - 1).value).error))
  {
    trace := trace0;
    sleeps := 0;
    var status := first;
    var maxTries := 10;
    while maxTries != 0
      invariant 0 <= maxTries <= 10
      invariant |trace| == |trace0| + (10 - maxTries)
      invariant trace[..|trace0|] == trace0
      invariant forall i :: |trace0| <= i < |trace| ==> trace[i] == request
      invariant sleeps == 10 - maxTries
      invariant Check(oracle, |trace| - 1) == Ok(status)
      invariant forall k :: |trace0| - 1 <= k < |trace| - 1 ==>
        Check(oracle, k).Ok? && ReportsSuccess(Check(oracle, k).value) == Ok(false)
    {
      var done := ReportsSuccess(status);
      if done.Err? {
        outcome := Aborted(Uncaught(done.error));
        return;
      }
      if done.value {
        break;
      }
      sleeps := sleeps + 1;
      trace := trace + [request];
      var next := Check(oracle, |trace| - 1);
      if next.Err? {
        outcome := Aborted(next.error);
        return;
      }
      status := next.value;
      maxTries := maxTries - 1;
    }
    outcome := if maxTries == 0 then TimedOut else Deployed;
  }

  // ---------------------------------------------------------------------------
  // What each helper of the driver returns, as a function of the replies

  /** The body of the k-th reply; `null` when there is none, in which case the
      status gate has already stopped the helper and the body is never read. */
  function Body(oracle: seq<Response>, k: nat): (v: Value)
    ensures k < |oracle| ==> v == oracle[k].body
  {
    if k < |oracle| then oracle[k].body else Null
  }

  /** What the helper that sends the k-th request returns: the failure its
      status gate reports, or else the value it extracts from the reply, an
      exception raised by the extraction going uncaught. */
  function Answer(oracle: seq<Response>, k: nat, e: Endpoint, extracted: Result<Value, PyError>)
    : (r: Result<Value, Failure>)
    ensures r.Ok? <==> Accepted(oracle, k, e) && extracted.Ok?
    ensures r.Ok? ==> r.value == extracted.value
    ensures !Accepted(oracle, k, e) ==>
      r == Err(if k < |oracle| then UnexpectedStatus(e, oracle[k].status, oracle[k].text) else Transport)
    ensures Accepted(oracle, k, e) && extracted.Err? ==> r == Err(Uncaught(extracted.error))
  {
    match Gate(e, ReplyAt(oracle, k))
    case Err(f) => Err(f)
    case Ok(_) => (match extracted case Err(x) => Err(Uncaught(x)) case Ok(v) => Ok(v))
  }

  /** create_template_project: the task id of reply 0. */
  function ProjectCreated(oracle: seq<Response>): (r: Result<Value, Failure>)
    ensures r.Ok? <==> Accepted(oracle, 0, CreateProject) && TaskIdOf(Body(oracle, 0)).Ok?
    ensures r.Ok? ==> r.value == TaskIdOf(Body(oracle, 0)).value
  {
    Answer(oracle, 0, CreateProject, TaskIdOf(Body(oracle, 0)))
  }

  /** get_template_project_id: the project id, from reply 1. */
  function ProjectFound(oracle: seq<Response>): (r: Result<Value, Failure>)
    ensures r.Ok? <==> Accepted(oracle, 1, ProjectId) && ProjectIdOf(Body(oracle, 1)).Ok?
    ensures r.Ok? ==> r.value == ProjectIdOf(Body(oracle, 1)).value
  {
    Answer(oracle, 1, ProjectId, ProjectIdOf(Body(oracle, 1)))
  }

  /** create_template's request, built from the project id; building it raises
      when the id is not a string. */
  function UploadRequest(cfg: Config, oracle: seq<Response>, script: string): (r: Result<Request, Failure>)
    ensures r.Ok? <==> ProjectFound(oracle).Ok? && ProjectFound(oracle).value.Str?
    ensures r.Ok? ==>
      Ok(r.value) == CreateTemplateRequest(ProjectFound(oracle).value, script, cfg.templateName, cfg.productFamily)
    ensures ProjectFound(oracle).Err? ==> r == Err(ProjectFound(oracle).error)
    ensures ProjectFound(oracle).Ok? && !ProjectFound(oracle).value.Str? ==> r == Err(Uncaught(TypeError))
  {
    match ProjectFound(oracle)
    case Err(f) => Err(f)
    case Ok(id) =>
      match CreateTemplateRequest(id, script, cfg.templateName, cfg.productFamily)
      case Err(x) => Err(Uncaught(x))
      case Ok(request) => Ok(request)
  }

  /** create_template: the task id of reply 2. */
  function TemplateCreated(oracle: seq<Response>): (r: Result<Value, Failure>)
    ensures r.Ok? <==> Accepted(oracle, 2, CreateTemplate) && TaskIdOf(Body(oracle, 2)).Ok?
    ensures r.Ok? ==> r.value == TaskIdOf(Body(oracle, 2)).value
  {
    Answer(oracle, 2, CreateTemplate, TaskIdOf(Body(oracle, 2)))
  }

  /** get_parent_template_id: the scan of reply 3 for the template name. */
  function ParentFound(cfg: Config, oracle: seq<Response>): (r: Result<Value, Failure>)
    ensures r.Ok? <==> Accepted(oracle, 3, ParentTemplate) && ParentIdOf(Body(oracle, 3), cfg.templateName).Ok?
    ensures r.Ok? ==> r.value == ParentIdOf(Body(oracle, 3), cfg.templateName).value
  {
    Answer(oracle, 3, ParentTemplate, ParentIdOf(Body(oracle, 3), cfg.templateName))
  }

  /** commit_template: it extracts nothing and returns `None`. */
  function Committed(oracle: seq<Response>): (r: Result<Value, Failure>)
    ensures r.Ok? <==> Accepted(oracle, 4, CommitTemplate)
    ensures r.Ok? ==> r.value == Null
  {
    Answer(oracle, 4, CommitTemplate, Ok(Null))
  }

  /** get_templateid: the scan of reply 5 for the configured template name,
      whatever the driver passed it. */
  function TemplateFound(cfg: Config, oracle: seq<Response>): (r: Result<Value, Failure>)
    ensures r.Ok? <==> Accepted(oracle, 5, TemplateId) && TemplateIdOf(Body(oracle, 5), cfg.templateName).Ok?
    ensures r.Ok? ==> r.value == TemplateIdOf(Body(oracle, 5), cfg.templateName).value
  {
    Answer(oracle, 5, TemplateId, TemplateIdOf(Body(oracle, 5), cfg.templateName))
  }

  /** get_template_version's request, built from the template id. */
  function VersionsRequest(cfg: Config, oracle: seq<Response>): (r: Result<Request, Failure>)
    ensures r.Ok? <==> TemplateFound(cfg, oracle).Ok? && TemplateFound(cfg, oracle).value.Str?
    ensures r.Ok? ==> Ok(r.value) == VersionRequest(TemplateFound(cfg, oracle).value)
    ensures TemplateFound(cfg, oracle).Err? ==> r == Err(TemplateFound(cfg, oracle).error)
    ensures TemplateFound(cfg, oracle).Ok? && !TemplateFound(cfg, oracle).value.Str? ==> r == Err(Uncaught(TypeError))
  {
    match TemplateFound(cfg, oracle)
    case Err(f) => Err(f)
    case Ok(id) => (match VersionRequest(id) case Err(x) => Err(Uncaught(x)) case Ok(request) => Ok(request))
  }

  /** get_template_version: the latest version's id, from reply 6. */
  function VersionFound(oracle: seq<Response>): (r: Result<Value, Failure>)
    ensures r.Ok? <==> Accepted(oracle, 6, TemplateVersion) && LatestVersionId(Body(oracle, 6)).Ok?
    ensures r.Ok? ==> r.value == LatestVersionId(Body(oracle, 6)).value
  {
    Answer(oracle, 6, TemplateVersion, LatestVersionId(Body(oracle, 6)))
  }

  /** get_network_device_id: the device's UUID, from reply 7. */
  function DeviceFound(oracle: seq<Response>): (r: Result<Value, Failure>)
    ensures r.Ok? <==> Accepted(oracle, 7, DeviceId) && DeviceUuidOf(Body(oracle, 7)).Ok?
    ensures r.Ok? ==> r.value == DeviceUuidOf(Body(oracle, 7)).value
  {
    Answer(oracle, 7, DeviceId, DeviceUuidOf(Body(oracle, 7)))
  }

  /** deploy_template: the deployment id of reply 8. */
  function DeploymentStarted(oracle: seq<Response>): (r: Result<Value, Failure>)
    ensures r.Ok? <==> Accepted(oracle, 8, Deploy) && DeploymentIdOf(Body(oracle, 8)).Ok?
    ensures r.Ok? ==> r.value == DeploymentIdOf(Body(oracle, 8)).value
  {
    Answer(oracle, 8, Deploy, DeploymentIdOf(Body(oracle, 8)))
  }

  /** check_status's request, built from the deployment id. */
  function StatusPath(oracle: seq<Response>): (r: Result<Request, Failure>)
    ensures r.Ok? <==> DeploymentStarted(oracle).Ok? && DeploymentStarted(oracle).value.Str?
    ensures r.Ok? ==> Ok(r.value) == StatusRequest(DeploymentStarted(oracle).value)
    ensures DeploymentStarted(oracle).Err? ==> r == Err(DeploymentStarted(oracle).error)
    ensures DeploymentStarted(oracle).Ok? && !DeploymentStarted(oracle).value.Str? ==> r == Err(Uncaught(TypeError))
  {
    match DeploymentStarted(oracle)
    case Err(f) => Err(f)
    case Ok(id) => (match StatusRequest(id) case Err(x) => Err(Uncaught(x)) case Ok(request) => Ok(request))
  }

  // ---------------------------------------------------------------------------
  // The driver

  /** The request the driver sends once it has sent `sent`, given the replies:
      the default project, then the upload of `script` into the project
      found, the parent lookup in that project, the commit of the parent id,
      the template listing, the versions of the template found, the
      configured device, the deployment of the latest version to that device
      and the status of that deployment, which the poll re-sends unchanged.
      Each is sent only when the value it is built from was extracted. */
  ghost predicate Sends(cfg: Config, oracle: seq<Response>, script: string, sent: seq<Request>, request: Request) {
    if |sent| >= 10 then request == sent[9]
    else match |sent|
    case 0 => request == CreateProjectRequest(DefaultProjectName)
    case 1 => ProjectCreated(oracle).Ok? && request == ProjectIdRequest(DefaultProjectName)
    case 2 => UploadRequest(cfg, oracle, script) == Ok(request)
    case 3 =>
      && ProjectFound(oracle).Ok? && TemplateCreated(oracle).Ok?
      && ParentTemplateRequest(ProjectFound(oracle).value) == Ok(request)
    case 4 => ParentFound(cfg, oracle).Ok? && request == CommitRequest(ParentFound(cfg, oracle).value)
    case 5 => Committed(oracle).Ok? && request == TemplateIdRequest()
    case 6 => VersionsRequest(cfg, oracle) == Ok(request)
    case 7 => VersionFound(oracle).Ok? && request == DeviceRequest(cfg.deviceIp)
    case 8 =>
      && VersionFound(oracle).Ok? && DeviceFound(oracle).Ok?
      && request == DeployRequest(VersionFound(oracle).value, DeviceFound(oracle).value)
    case 9 => StatusPath(oracle) == Ok(request)
  }

  /** A run so far, as the driver makes it: each request is the one the driver
      sends after the ones before it, and every request but the last was
      answered with its expected status. */
  ghost predicate FollowsDriver(cfg: Config, oracle: seq<Response>, script: string, trace: seq<Request>)
    decreases |trace|
  {
    && 1 <= |trace|
    && Sends(cfg, oracle, script, trace[..|trace| - 1], trace[|trace| - 1])
    && (|trace| > 1 ==>
          && Accepted(oracle, |trace| - 2, CallOrder(|trace| - 2))
          && FollowsDriver(cfg, oracle, script, trace[..|trace| - 1]))
  }

  /** A run that follows the driver goes on following it with the request
      the driver sends next, once the last reply was accepted. */
  lemma Extend(cfg: Config, oracle: seq<Response>, script: string, sent: seq<Request>, request: Request)
    requires FollowsDriver(cfg, oracle, script, sent)
    requires Accepted(oracle, |sent| - 1, CallOrder(|sent| - 1))
    requires Sends(cfg, oracle, script, sent, request)
    ensures FollowsDriver(cfg, oracle, script, sent + [request])
  {
    var trace := sent + [request];
    assert trace[..|trace| - 1] == sent;
    assert trace[|trace| - 1] == request;
  }

  /** Why a run that sent `n` requests stops before the poll: the helper that
      sent the last one failed with `f`, or the next helper raised `f` while
      building its request from the value just extracted. */
  ghost predicate StoppedAt(cfg: Config, oracle: seq<Response>, script: string, n: nat, f: Failure) {
    match n
    case 1 => ProjectCreated(oracle) == Err(f)
    case 2 => UploadRequest(cfg, oracle, script) == Err(f)
    case 3 => TemplateCreated(oracle) == Err(f)
    case 4 => ParentFound(cfg, oracle) == Err(f)
    case 5 => Committed(oracle) == Err(f)
    case 6 => VersionsRequest(cfg, oracle) == Err(f)
    case 7 => VersionFound(oracle) == Err(f)
    case 8 => DeviceFound(oracle) == Err(f)
    case 9 => StatusPath(oracle) == Err(f)
    case 10 => Check(oracle, 9) == Err(f)
    case _ => false
  }

  /** Every request of a run that follows the driver is the one the driver
      sends after the requests before it, and every one but the last was
      accepted. */
  lemma {:induction false} SentAt(cfg: Config, oracle: seq<Response>, script: string, trace: seq<Request>, k: nat)
    requires FollowsDriver(cfg, oracle, script, trace) && k < |trace|
    ensures Sends(cfg, oracle, script, trace[..k], trace[k])
    ensures k + 1 < |trace| ==> Accepted(oracle, k, CallOrder(k))
    decreases |trace|
  {
    if k + 1 < |trace| {
      var sent := trace[..|trace| - 1];
      SentAt(cfg, oracle, script, sent, k);
      assert sent[..k] == trace[..k];
    }
  }

  /** What the requests of the project half of a run carry: the project id
      read from reply 1 goes into the upload's and the parent lookup's paths,
      and the id scanned out of reply 3 into the commit. */
  lemma ProjectRequests(cfg: Config, oracle: seq<Response>, script: string, trace: seq<Request>)
    requires FollowsDriver(cfg, oracle, script, trace)
    ensures trace[0] == CreateProjectRequest(DefaultProjectName)
    ensures |trace| > 1 ==> TaskIdOf(Body(oracle, 0)).Ok? && trace[1] == ProjectIdRequest(DefaultProjectName)
    ensures |trace| > 2 ==>
      && ProjectIdOf(Body(oracle, 1)).Ok?
      && CreateTemplateRequest(ProjectIdOf(Body(oracle, 1)).value, script, cfg.templateName, cfg.productFamily)
         == Ok(trace[2])
    ensures |trace| > 3 ==>
      && TaskIdOf(Body(oracle, 2)).Ok? && ProjectIdOf(Body(oracle, 1)).Ok?
      && ParentTemplateRequest(ProjectIdOf(Body(oracle, 1)).value) == Ok(trace[3])
    ensures |trace| > 4 ==>
      && ParentIdOf(Body(oracle, 3), cfg.templateName).Ok?
      && trace[4] == CommitRequest(ParentIdOf(Body(oracle, 3), cfg.templateName).value)
  {
    SentAt(cfg, oracle, script, trace, 0);
    if |trace| > 1 { SentAt(cfg, oracle, script, trace, 1); }
    if |trace| > 2 { SentAt(cfg, oracle, script, trace, 2); }
    if |trace| > 3 { SentAt(cfg, oracle, script, trace, 3); }
    if |trace| > 4 { SentAt(cfg, oracle, script, trace, 4); }
  }

  /** What the requests of the deployment half of a run carry: the template
      id scanned out of reply 5 goes into the versions path, the latest
      version of reply 6 and the UUID of reply 7 into the deployment, and the
      deployment id of reply 8 into the status path, which the poll re-sends
      unchanged. */
  lemma DeployRequests(cfg: Config, oracle: seq<Response>, script: string, trace: seq<Request>)
    requires FollowsDriver(cfg, oracle, script, trace)
    ensures |trace| > 5 ==> trace[5] == TemplateIdRequest()
    ensures |trace| > 6 ==>
      && TemplateIdOf(Body(oracle, 5), cfg.templateName).Ok?
      && VersionRequest(TemplateIdOf(Body(oracle, 5), cfg.templateName).value) == Ok(trace[6])
    ensures |trace| > 7 ==> trace[7] == DeviceRequest(cfg.deviceIp)
    ensures |trace| > 8 ==>
      && LatestVersionId(Body(oracle, 6)).Ok? && DeviceUuidOf(Body(oracle, 7)).Ok?
      && trace[8] == DeployRequest(LatestVersionId(Body(oracle, 6)).value, DeviceUuidOf(Body(oracle, 7)).value)
    ensures |trace| > 9 ==>
      && DeploymentIdOf(Body(oracle, 8)).Ok?
      && StatusRequest(DeploymentIdOf(Body(oracle, 8)).value) == Ok(trace[9])
    ensures forall i :: 9 <= i < |trace| ==> trace[i] == trace[9]
  {
    if |trace| > 5 { SentAt(cfg, oracle, script, trace, 5); }
    if |trace| > 6 { SentAt(cfg, oracle, script, trace, 6); }
    if |trace| > 7 { SentAt(cfg, oracle, script, trace, 7); }
    if |trace| > 8 { SentAt(cfg, oracle, script, trace, 8); }
    if |trace| > 9 { SentAt(cfg, oracle, script, trace, 9); }
    forall i | 9 <= i < |trace| ensures trace[i] == trace[9] {
      SentAt(cfg, oracle, script, trace, i);
      if i > 9 {
        assert trace[..i][9] == trace[9];
      }
    }
  }

  /** Why a run stops before the poll, in terms of the last reply: a missing
      reply is a transport failure, one with another status is reported with
      its status and text, and one that was accepted stopped the run only
      because reading a value out of it, or splicing that value into the next
      request, raised. */
  lemma StoppedAtCause(cfg: Config, oracle: seq<Response>, script: string, n: nat, f: Failure)
    requires StoppedAt(cfg, oracle, script, n, f)
    ensures 1 <= n <= 10
    ensures n - 1 >= |oracle| ==> f == Transport
    ensures n - 1 < |oracle| && !Accepted(oracle, n - 1, CallOrder(n - 1)) ==>
      f == UnexpectedStatus(CallOrder(n - 1), oracle[n - 1].status, oracle[n - 1].text)
    ensures Accepted(oracle, n - 1, CallOrder(n - 1)) ==> f.Uncaught?
  {
  }

  /** Why the poll stops with a failure at its k-th request: the status check
      failed, or its status was not a dict with a "status" key. */
  ghost predicate PollStopped(oracle: seq<Response>, k: nat, f: Failure) {
    || Check(oracle, k) == Err(f)
    || (&& Check(oracle, k).Ok? && ReportsSuccess(Check(oracle, k).value).Err?
        && f == Uncaught(ReportsSuccess(Check(oracle, k).value).error))
  }

  /** create_template_project, then get_template_project_id. */
  method StartProject(cfg: Config, oracle: seq<Response>, script: string)
    returns (trace: seq<Request>, projectId: Result<Value, Failure>)
    ensures FollowsDriver(cfg, oracle, script, trace)
    ensures ProjectCreated(oracle).Err? ==> |trace| == 1 && projectId == ProjectCreated(oracle)
    ensures ProjectCreated(oracle).Ok? ==> |trace| == 2 && projectId == ProjectFound(oracle)
  {
    trace := [CreateProjectRequest(DefaultProjectName)];
    var created := Gate(CreateProject, ReplyAt(oracle, 0));
    if created.Err? {
      return trace, Err(created.error);
    }
    var taskId := TaskIdOf(created.value.body);
    if taskId.Err? {
      return trace, Err(Uncaught(taskId.error));
    }

    trace := trace + [ProjectIdRequest(DefaultProjectName)];
    var project := Gate(ProjectId, ReplyAt(oracle, 1));
    if project.Err? {
      return trace, Err(project.error);
    }
    var id := ProjectIdOf(project.value.body);
    if id.Err? {
      return trace, Err(Uncaught(id.error));
    }
    return trace, Ok(id.value);
  }

  /** create_template: the script goes up as the body of a new template in
      the project; splicing the project id into the path raises unless it is
      a string, before anything is sent. */
  method CreateTemplateStage(cfg: Config, oracle: seq<Response>, script: string, trace0: seq<Request>, projectId: Value)
    returns (trace: seq<Request>, taskId: Result<Value, Failure>)
    requires FollowsDriver(cfg, oracle, script, trace0) && |trace0| == 2 && ProjectFound(oracle) == Ok(projectId)
    ensures FollowsDriver(cfg, oracle, script, trace)
    ensures UploadRequest(cfg, oracle, script).Err? ==>
      trace == trace0 && taskId == Err(UploadRequest(cfg, oracle, script).error)
    ensures UploadRequest(cfg, oracle, script).Ok? ==>
      trace == trace0 + [UploadRequest(cfg, oracle, script).value] && taskId == TemplateCreated(oracle)
  {
    trace := trace0;
    var create := CreateTemplateRequest(projectId, script, cfg.templateName, cfg.productFamily);
    if create.Err? {
      return trace, Err(Uncaught(create.error));
    }
    Extend(cfg, oracle, script, trace, create.value);
    trace := trace + [create.value];
    var created := Gate(CreateTemplate, ReplyAt(oracle, 2));
    if created.Err? {
      return trace, Err(created.error);
    }
    var id := TaskIdOf(created.value.body);
    if id.Err? {
      return trace, Err(Uncaught(id.error));
    }
    return trace, Ok(id.value);
  }

  /** get_parent_template_id, on the project the template was created in. */
  method ParentStage(cfg: Config, oracle: seq<Response>, script: string, trace0: seq<Request>, projectId: Value)
    returns (trace: seq<Request>, parentId: Result<Value, Failure>)
    requires FollowsDriver(cfg, oracle, script, trace0) && |trace0| == 3
    requires ProjectFound(oracle) == Ok(projectId) && TemplateCreated(oracle).Ok?
    ensures FollowsDriver(cfg, oracle, script, trace) && |trace| == 4
    ensures parentId == ParentFound(cfg, oracle)
  {
    // The project id already went into a path, so it is a string.
    assert Sends(cfg, oracle, script, trace0[..2], trace0[2]);
    assert projectId.Str?;
    var parent := ParentTemplateRequest(projectId).value;
    Extend(cfg, oracle, script, trace0, parent);
    trace := trace0 + [parent];
    var templates := Gate(ParentTemplate, ReplyAt(oracle, 3));
    if templates.Err? {
      return trace, Err(templates.error);
    }
    var id := ParentIdOf(templates.value.body, cfg.templateName);
    if id.Err? {
      return trace, Err(Uncaught(id.error));
    }
    return trace, Ok(id.value);
  }

  /** commit_template, then get_templateid, which is handed the parent
      template's id but filters on the configured template name. */
  method CommitStage(cfg: Config, oracle: seq<Response>, script: string, trace0: seq<Request>, parentId: Value)
    returns (trace: seq<Request>, templateId: Result<Value, Failure>)
    requires FollowsDriver(cfg, oracle, script, trace0) && |trace0| == 4 && ParentFound(cfg, oracle) == Ok(parentId)
    ensures FollowsDriver(cfg, oracle, script, trace)
    ensures Committed(oracle).Err? ==> |trace| == 5 && templateId == Committed(oracle)
    ensures Committed(oracle).Ok? ==> |trace| == 6 && templateId == TemplateFound(cfg, oracle)
  {
    Extend(cfg, oracle, script, trace0, CommitRequest(parentId));
    trace := trace0 + [CommitRequest(parentId)];
    var committed := Gate(CommitTemplate, ReplyAt(oracle, 4));
    if committed.Err? {
      return trace, Err(committed.error);
    }

    assert Committed(oracle).Ok?;
    Extend(cfg, oracle, script, trace, TemplateIdRequest());
    trace := trace + [TemplateIdRequest()];
    var templates := Gate(TemplateId, ReplyAt(oracle, 5));
    if templates.Err? {
      return trace, Err(templates.error);
    }
    var id := TemplateIdOf(templates.value.body, cfg.templateName);
    if id.Err? {
      return trace, Err(Uncaught(id.error));
    }
    return trace, Ok(id.value);
  }

  /** get_template_version: the id of the template's latest version; splicing
      the template id into the path raises unless it is a string. */
  method VersionStage(cfg: Config, oracle: seq<Response>, script: string, trace0: seq<Request>, templateId: Value)
    returns (trace: seq<Request>, versionId: Result<Value, Failure>)
    requires FollowsDriver(cfg, oracle, script, trace0) && |trace0| == 6 && TemplateFound(cfg, oracle) == Ok(templateId)
    ensures FollowsDriver(cfg, oracle, script, trace)
    ensures VersionsRequest(cfg, oracle).Err? ==>
      |trace| == 6 && versionId == Err(VersionsRequest(cfg, oracle).error)
    ensures VersionsRequest(cfg, oracle).Ok? ==> |trace| == 7 && versionId == VersionFound(oracle)
  {
    trace := trace0;
    var version := VersionRequest(templateId);
    if version.Err? {
      return trace, Err(Uncaught(version.error));
    }
    Extend(cfg, oracle, script, trace, version.value);
    trace := trace + [version.value];
    var versions := Gate(TemplateVersion, ReplyAt(oracle, 6));
    if versions.Err? {
      return trace, Err(versions.error);
    }
    var id := FilteredVersion(versions.value.body);
    if id.Err? {
      return trace, Err(Uncaught(id.error));
    }
    return trace, Ok(id.value);
  }

  /** get_network_device_id: the UUID of the device at the configured
      address. */
  method DeviceStage(cfg: Config, oracle: seq<Response>, script: string, trace0: seq<Request>)
    returns (trace: seq<Request>, uuid: Result<Value, Failure>)
    requires FollowsDriver(cfg, oracle, script, trace0) && |trace0| == 7 && VersionFound(oracle).Ok?
    ensures FollowsDriver(cfg, oracle, script, trace) && |trace| == 8
    ensures uuid == DeviceFound(oracle)
  {
    Extend(cfg, oracle, script, trace0, DeviceRequest(cfg.deviceIp));
    trace := trace0 + [DeviceRequest(cfg.deviceIp)];
    var device := Gate(DeviceId, ReplyAt(oracle, 7));
    if device.Err? {
      return trace, Err(device.error);
    }
    var id := DeviceUuidOf(device.value.body);
    if id.Err? {
      return trace, Err(Uncaught(id.error));
    }
    return trace, Ok(id.value);
  }

  /** deploy_template of the version to the device, and the first
      check_status of the deployment it started. */
  method DeployStage(cfg: Config, oracle: seq<Response>, script: string, trace0: seq<Request>,
                     versionId: Value, uuid: Value)
    returns (trace: seq<Request>, ready: Result<(Request, Value), Failure>)
    requires FollowsDriver(cfg, oracle, script, trace0) && |trace0| == 8
    requires VersionFound(oracle) == Ok(versionId) && DeviceFound(oracle) == Ok(uuid)
    ensures FollowsDriver(cfg, oracle, script, trace)
    ensures StatusPath(oracle).Err? ==> |trace| == 9 && ready == Err(StatusPath(oracle).error)
    ensures StatusPath(oracle).Ok? ==>
      && |trace| == 10
      && ready == match Check(oracle, 9) case Err(f) => Err(f) case Ok(v) => Ok((trace[9], v))
  {
    Extend(cfg, oracle, script, trace0, DeployRequest(versionId, uuid));
    trace := trace0 + [DeployRequest(versionId, uuid)];
    var deployed := Gate(Deploy, ReplyAt(oracle, 8));
    if deployed.Err? {
      return trace, Err(deployed.error);
    }
    var deployId := DeploymentIdOf(deployed.value.body);
    if deployId.Err? {
      return trace, Err(Uncaught(deployId.error));
    }

    var statusRequest := StatusRequest(deployId.value);
    if statusRequest.Err? {
      return trace, Err(Uncaught(statusRequest.error));
    }
    assert DeploymentStarted(oracle) == Ok(deployId.value);
    Extend(cfg, oracle, script, trace, statusRequest.value);
    trace := trace + [statusRequest.value];
    var first := Check(oracle, 9);
    if first.Err? {
      return trace, Err(first.error);
    }
    return trace, Ok((statusRequest.value, first.value));
  }

  /** The first helpers of the driver: the project, the template that
      carries the script, and its parent's id; the run stops at the first
      one that fails, with its failure. */
  method UploadScript(cfg: Config, oracle: seq<Response>, script: string)
    returns (trace: seq<Request>, parentId: Result<Value, Failure>)
    ensures FollowsDriver(cfg, oracle, script, trace) && |trace| <= 4
    ensures parentId.Err? ==> StoppedAt(cfg, oracle, script, |trace|, parentId.error)
    ensures parentId.Ok? ==> |trace| == 4 && parentId == ParentFound(cfg, oracle)
  {
    var projectId;
    trace, projectId := StartProject(cfg, oracle, script);
    if projectId.Err? {
      return trace, Err(projectId.error);
    }
    var taskId;
    trace, taskId := CreateTemplateStage(cfg, oracle, script, trace, projectId.value);
    if taskId.Err? {
      return trace, Err(taskId.error);
    }
    trace, parentId := ParentStage(cfg, oracle, script, trace, projectId.value);
  }

  /** The last helpers before the poll: the template's latest version goes
      to the device, and the deployment's status is checked once; the run
      stops at the first one that fails, with its failure. */
  method DeployLatest(cfg: Config, oracle: seq<Response>, script: string, trace0: seq<Request>, templateId: Value)
    returns (trace: seq<Request>, ready: Result<(Request, Value), Failure>)
    requires FollowsDriver(cfg, oracle, script, trace0) && |trace0| == 6 && TemplateFound(cfg, oracle) == Ok(templateId)
    ensures FollowsDriver(cfg, oracle, script, trace) && 6 <= |trace| <= 10
    ensures ready.Err? ==> StoppedAt(cfg, oracle, script, |trace|, ready.error)
    ensures ready.Ok? ==> |trace| == 10 && trace[9] == ready.value.0 && Check(oracle, 9) == Ok(ready.value.1)
  {
    var versionId;
    trace, versionId := VersionStage(cfg, oracle, script, trace0, templateId);
    if versionId.Err? {
      return trace, Err(versionId.error);
    }
    var uuid;
    trace, uuid := DeviceStage(cfg, oracle, script, trace);
    if uuid.Err? {
      return trace, Err(uuid.error);
    }
    trace, ready := DeployStage(cfg, oracle, script, trace, versionId.value, uuid.value);
  }

  /** The helpers in the driver's order, up to and including the first
      check_status: the run goes on exactly while each helper succeeds, and
      stops at the first one that fails, with its failure. */
  method Prepare(cfg: Config, oracle: seq<Response>, script: string)
    returns (trace: seq<Request>, ready: Result<(Request, Value), Failure>)
    ensures FollowsDriver(cfg, oracle, script, trace) && |trace| <= 10
    ensures ready.Err? ==> StoppedAt(cfg, oracle, script, |trace|, ready.error)
    ensures ready.Ok? ==> |trace| == 10 && trace[9] == ready.value.0 && Check(oracle, 9) == Ok(ready.value.1)
  {
    var parentId;
    trace, parentId := UploadScript(cfg, oracle, script);
    if parentId.Err? {
      return trace, Err(parentId.error);
    }
    var templateId;
    trace, templateId := CommitStage(cfg, oracle, script, trace, parentId.value);
    if templateId.Err? {
      return trace, Err(templateId.error);
    }
    trace, ready := DeployLatest(cfg, oracle, script, trace, templateId.value);
  }

  /** One more round of the poll: re-sending the status request after an
      answered check keeps the run on the driver's course. */
  lemma PollStep(cfg: Config, oracle: seq<Response>, script: string, sent: seq<Request>)
    requires FollowsDriver(cfg, oracle, script, sent) && |sent| >= 10
    requires Check(oracle, |sent| - 1).Ok?
    ensures FollowsDriver(cfg, oracle, script, sent + [sent[9]])
  {
    assert Accepted(oracle, |sent| - 1, CallOrder(|sent| - 1));
    Extend(cfg, oracle, script, sent, sent[9]);
  }

  /** The poll only re-sends the first status request, and every check but
      the last was answered, so the run still follows the driver. */
  lemma {:induction false} PollFollowsDriver(cfg: Config, oracle: seq<Response>, script: string,
                                             trace0: seq<Request>, trace: seq<Request>)
    requires FollowsDriver(cfg, oracle, script, trace0) && |trace0| == 10
    requires 10 <= |trace| && trace[..10] == trace0
    requires forall i :: 10 <= i < |trace| ==> trace[i] == trace0[9]
    requires forall k :: 9 <= k < |trace| - 1 ==> Check(oracle, k).Ok?
    ensures FollowsDriver(cfg, oracle, script, trace)
    decreases |trace|
  {
    if |trace| == 10 {
      assert trace == trace0;
    } else {
      var sent := trace[..|trace| - 1];
      assert sent[..10] == trace0;
      PollFollowsDriver(cfg, oracle, script, trace0, sent);
      PollStep(cfg, oracle, script, sent);
      assert trace == sent + [sent[9]];
    }
  }

  /** The poll after the first check, as a whole run. */
  method FinishPoll(oracle: seq<Response>, trace0: seq<Request>, request: Request, first: Value)
    returns (run: Run)
    requires |trace0| == 10 && Check(oracle, 9) == Ok(first)
    ensures 10 <= |run.trace| <= 20 && run.trace[..10] == trace0
    ensures forall i :: 10 <= i < |run.trace| ==> run.trace[i] == request
    ensures run.sleeps == |run.trace| - 10
    ensures forall k :: 9 <= k < |run.trace| - 1 ==>
      Check(oracle, k).Ok? && ReportsSuccess(Check(oracle, k).value) == Ok(false)
    ensures run.outcome == Deployed <==>
      |run.trace| < 20 && Check(oracle, |run.trace| - 1).Ok?
      && ReportsSuccess(Check(oracle, |run.trace| - 1).value) == Ok(true)
    ensures run.outcome == TimedOut <==> |run.trace| == 20 && Check(oracle, 19).Ok?
    ensures run.outcome.Aborted? ==>
      PollStopped(oracle, |run.trace| - 1, run.outcome.failure)
      && (|run.trace| == 20 ==> Check(oracle, 19).Err?)
  {
    var trace, sleeps, outcome := PollDeployment(oracle, trace0, request, first);
    return Run(trace, sleeps, outcome);
  }

  /** The `__main__` block: each helper in turn, each one aborting the run
      when its reply is missing or carries another status or its value cannot
      be read, then the poll. */
  method RunWorkflow(cfg: Config, oracle: seq<Response>) returns (run: Run)
    ensures FollowsDriver(cfg, oracle, UploadedScript(cfg), run.trace) && |run.trace| <= 20
    ensures run.sleeps == if |run.trace| > 10 then |run.trace| - 10 else 0
    ensures forall k :: 9 <= k < |run.trace| - 1 ==>
      Check(oracle, k).Ok? && ReportsSuccess(Check(oracle, k).value) == Ok(false)
    ensures run.outcome == Deployed <==>
      10 <= |run.trace| < 20 && Check(oracle, |run.trace| - 1).Ok?
      && ReportsSuccess(Check(oracle, |run.trace| - 1).value) == Ok(true)
    ensures run.outcome == TimedOut <==> |run.trace| == 20 && Check(oracle, 19).Ok?
    ensures run.outcome.Aborted? ==>
      || StoppedAt(cfg, oracle, UploadedScript(cfg), |run.trace|, run.outcome.failure)
      || (&& 10 <= |run.trace| && PollStopped(oracle, |run.trace| - 1, run.outcome.failure)
          && (|run.trace| == 20 ==> Check(oracle, 19).Err?))
  {
    var script := CreateEemScript(ScriptParamsOf(cfg));
    script := Collapse(script);
    var trace, ready := Prepare(cfg, oracle, script);
    if ready.Err? {
      return Run(trace, 0, Aborted(ready.error));
    }
    run := FinishPoll(oracle, trace, ready.value.0, ready.value.1);
    PollFollowsDriver(cfg, oracle, script, trace, run.trace);
  }
}
