/**
  The request helpers (dnac_template_helper.py, plus get_network_device_id of
  deviceLogCollector.py): each sends one request to the controller, aborts
  unless the reply carries the one status code it expects, and otherwise pulls
  one value out of the parsed reply. The transport (tokens, HTTPS) is outside
  the model: a reply is given, or is missing when the request itself failed.
*/
module TemplateHelpers {
  import opened Wrappers
  import opened Json
  import opened TemplateSelection

  /** The controller endpoints, one per request helper. */
  datatype Endpoint =
    | CreateProject    // create_template_project
    | ProjectId        // get_template_project_id
    | CreateTemplate   // create_template
    | ParentTemplate   // get_parent_template_id
    | CommitTemplate   // commit_template
    | TemplateId       // get_templateid
    | TemplateVersion  // get_template_version
    | DeviceId         // get_network_device_id
    | Deploy           // deploy_template
    | DeployStatus     // check_status

  /** A reply: HTTP status, raw text and the text parsed as JSON. */
  datatype Response = Response(status: int, text: string, body: Value)

  /** A request as sent: the endpoint it is for, the path after `/api/v1/`
      and, for a POST, the JSON payload. */
  datatype Request =
    | Get(endpoint: Endpoint, path: string)
    | Post(endpoint: Endpoint, path: string, payload: Value)

  /** Why a run ends early. */
  datatype Failure =
    | Transport                                               // get()/post() could not complete and exited
    | UnexpectedStatus(endpoint: Endpoint, status: int, text: string)  // the text is printed, then sys.exit()
    | NoDevice                                                // "No network device found" exit
    | Uncaught(error: PyError)                                // an exception nothing catches

  /** The one status each helper accepts: 202 for the asynchronous writes and,
      unusually, for the deployment-status read; 200 for the other reads. */
  function ExpectedStatus(e: Endpoint): (s: int)
    ensures s == 200 || s == 202
  {
    match e
    case CreateProject | CreateTemplate | CommitTemplate | Deploy | DeployStatus => 202
    case ProjectId | ParentTemplate | TemplateId | TemplateVersion | DeviceId => 200
  }

  /** get_network_device_id's emptiness test `device == []`: `device` is the
      reply's text, a string, and a string never equals a list. */
  predicate TextIsEmptyList(text: string) {
    Str(text) == Arr([])
  }

  /** The part every helper shares: no reply is a transport failure; a status
      other than the expected one prints the reply text and exits; otherwise
      the reply goes on to have its value extracted. get_network_device_id
      also exits when its text equals `[]`, which a string never does. */
  function Gate(e: Endpoint, reply: Option<Response>): (r: Result<Response, Failure>)
    ensures r.Ok? <==> reply.Some? && reply.value.status == ExpectedStatus(e)
    ensures r.Ok? ==> r.value == reply.value
    ensures reply.None? ==> r == Err(Transport)
    ensures reply.Some? && reply.value.status != ExpectedStatus(e) ==>
      r == Err(UnexpectedStatus(e, reply.value.status, reply.value.text))
  {
    match reply
    case None => Err(Transport)
    case Some(resp) =>
      if resp.status != ExpectedStatus(e) then Err(UnexpectedStatus(e, resp.status, resp.text))
      else if e == DeviceId && TextIsEmptyList(resp.text) then Err(NoDevice)
      else Ok(resp)
  }

  /** `body["response"]["taskId"]`: what create_template_project and
      create_template return. */
  function TaskIdOf(body: Value): (r: Result<Value, PyError>)
    ensures r.Ok? <==> body.Obj? && (exists resp :: Lookup(body.fields, "response") == Some(resp)
                                                 && resp.Obj? && Lookup(resp.fields, "taskId").Some?)
    ensures r.Ok? ==> (&& body.Obj? && Lookup(body.fields, "response").Some?
                       && Lookup(body.fields, "response").value.Obj?
                       && Lookup(Lookup(body.fields, "response").value.fields, "taskId") == Some(r.value))
  {
    match Field(body, "response") case Err(x) => Err(x) case Ok(r) => Field(r, "taskId")
  }

  /** `body[0]["id"]`: get_template_project_id takes the first project of the
      reply, whatever its name; a reply listing no project raises `IndexError`. */
  function ProjectIdOf(body: Value): (r: Result<Value, PyError>)
    ensures body.Arr? && body.items != [] && body.items[0].Obj? ==>
      (r.Ok? <==> Lookup(body.items[0].fields, "id").Some?)
    ensures body.Arr? && body.items != [] ==> r == Field(body.items[0], "id")
    ensures body.Arr? && body.items == [] ==> r == Err(IndexError)
    ensures r.Ok? ==> body.Arr? && body.items != []
  {
    match First(body) case Err(x) => Err(x) case Ok(p) => Field(p, "id")
  }

  /** get_parent_template_id's scan over the reply's records. */
  function ParentIdOf(body: Value, templateName: string): (r: Result<Value, PyError>)
    ensures AsRecords(body).Err? ==> r == Err(TypeError)
    ensures AsRecords(body).Ok? && NoMatch(AsRecords(body).value, templateName) ==> r == Ok(Null)
    ensures forall i :: AsRecords(body).Ok? && IsFirstMatch(AsRecords(body).value, templateName, i) ==>
      r == Field(body.items[i], "id")
  {
    match AsRecords(body) case Err(x) => Err(x) case Ok(rs) => ParentTemplateId(rs, templateName)
  }

  /** get_templateid's scan, through get_filtered_templateID. */
  function TemplateIdOf(body: Value, templateName: string): (r: Result<Value, PyError>)
    ensures AsRecords(body).Err? ==> r == Err(TypeError)
    ensures AsRecords(body).Ok? && NoMatch(AsRecords(body).value, templateName) ==> r == Ok(Null)
    ensures forall i :: AsRecords(body).Ok? && IsFirstMatch(AsRecords(body).value, templateName, i) ==>
      r == Field(body.items[i], "templateId")
  {
    match AsRecords(body) case Err(x) => Err(x) case Ok(rs) => FilteredTemplateId(rs, templateName)
  }

  /** `body["response"]["instanceUuid"]`: the device's UUID. */
  function DeviceUuidOf(body: Value): (r: Result<Value, PyError>)
    ensures r.Ok? <==> body.Obj? && (exists resp :: Lookup(body.fields, "response") == Some(resp)
                                                 && resp.Obj? && Lookup(resp.fields, "instanceUuid").Some?)
    ensures r.Ok? ==> (&& body.Obj? && Lookup(body.fields, "response").Some?
                       && Lookup(body.fields, "response").value.Obj?
                       && Lookup(Lookup(body.fields, "response").value.fields, "instanceUuid") == Some(r.value))
  {
    match Field(body, "response") case Err(x) => Err(x) case Ok(r) => Field(r, "instanceUuid")
  }

  /** `body["deploymentId"]`. */
  function DeploymentIdOf(body: Value): (r: Result<Value, PyError>)
    ensures r.Ok? <==> body.Obj? && Lookup(body.fields, "deploymentId").Some?
    ensures r.Ok? ==> Lookup(body.fields, "deploymentId") == Some(r.value)
  {
    Field(body, "deploymentId")
  }

  /** Which helpers expect 202 and which 200. */
  lemma StatusCodes()
    ensures forall e :: ExpectedStatus(e) == 202 <==> e in {CreateProject, CreateTemplate, CommitTemplate, Deploy, DeployStatus}
    ensures forall e :: ExpectedStatus(e) == 200 <==> e in {ProjectId, ParentTemplate, TemplateId, TemplateVersion, DeviceId}
  {
  }

  /** get_network_device_id: any status but 200 aborts; a 200 reply is never
      taken for an empty inventory, whatever its text, because the emptiness
      test compares a string with a list, so the UUID is looked up straight
      away. */
  lemma DeviceLookup(reply: Response)
    ensures reply.status != 200 ==>
      Gate(DeviceId, Some(reply)) == Err(UnexpectedStatus(DeviceId, reply.status, reply.text))
    ensures reply.status == 200 ==> Gate(DeviceId, Some(reply)) == Ok(reply)
    ensures reply.status == 200 && reply.text == "[]" ==> Gate(DeviceId, Some(reply)) != Err(NoDevice)
    ensures DeviceUuidOf(reply.body).Ok? <==>
      reply.body.Obj? && exists r :: Lookup(reply.body.fields, "response") == Some(r)
                                     && r.Obj? && Lookup(r.fields, "instanceUuid").Some?
    ensures reply.body.Obj? && Lookup(reply.body.fields, "response").Some?
            && Lookup(reply.body.fields, "response").value.Obj? ==>
      DeviceUuidOf(reply.body) == Field(Lookup(reply.body.fields, "response").value, "instanceUuid")
  {
  }

  // ---------------------------------------------------------------------------
  // The requests each helper sends

  /** create_template_project's default project name. */
  const DefaultProjectName: string := "DNAC-Templates"

  function CreateProjectRequest(projectName: string): (r: Request)
    ensures r.Post? && r.endpoint == CreateProject
    ensures r.path == "template-programmer/project"
    ensures Field(r.payload, "name") == Ok(Str(projectName))
  {
    Post(CreateProject, "template-programmer/project",
      Obj([("name", Str(projectName)),
           ("description", Str("Collection of EEM Templates")),
           ("tags", Arr([Str("")]))]))
  }

  function ProjectIdRequest(projectName: string): (r: Request)
    ensures r.Get? && r.endpoint == ProjectId
    ensures r.path == "template-programmer/project?name=" + projectName
  {
    Get(ProjectId, "template-programmer/project?name=" + projectName)
  }

  /** The body create_template posts: the script travels as `templateContent`. */
  function TemplatePayload(script: string, templateName: string, productFamily: string): Value {
    Obj([("name", Str(templateName)),
         ("description", Str("")),
         ("tags", Arr([])),
         ("deviceTypes", Arr([Obj([("productFamily", Str(productFamily)),
                                   ("productSeries", Str("")),
                                   ("productType", Str(""))])])),
         ("softwareType", Str("IOS-XE")),
         ("containingTemplates", Arr([])),
         ("templateContent", Str(script)),
         ("templateParams", Arr([]))])
  }

  lemma TemplatePayloadCarriesScript(script: string, templateName: string, productFamily: string)
    ensures Field(TemplatePayload(script, templateName, productFamily), "templateContent") == Ok(Str(script))
  {
    var fs := TemplatePayload(script, templateName, productFamily).fields;
    assert fs[6..][0] == ("templateContent", Str(script));
    assert Lookup(fs[6..], "templateContent") == Some(Str(script));
    assert fs[5..][1..] == fs[6..];
    assert Lookup(fs[5..], "templateContent") == Some(Str(script));
    assert fs[4..][1..] == fs[5..];
    assert Lookup(fs[4..], "templateContent") == Some(Str(script));
    assert fs[3..][1..] == fs[4..];
    assert Lookup(fs[3..], "templateContent") == Some(Str(script));
    assert fs[2..][1..] == fs[3..];
    assert Lookup(fs[2..], "templateContent") == Some(Str(script));
    assert fs[1..][1..] == fs[2..];
    assert Lookup(fs[1..], "templateContent") == Some(Str(script));
    assert fs[0..] == fs;
  }

  /** create_template's request: the project id is spliced into the path, so
      anything but a string raises `TypeError` before the request is sent. */
  function CreateTemplateRequest(projectId: Value, script: string, templateName: string, productFamily: string)
    : (r: Result<Request, PyError>)
    ensures r.Ok? <==> projectId.Str?
    ensures r.Ok? ==> r.value.Post? && r.value.endpoint == CreateTemplate
    ensures r.Ok? ==> r.value.path == "template-programmer/project/" + projectId.s + "/template"
    ensures r.Ok? ==> Field(r.value.payload, "templateContent") == Ok(Str(script))
  {
    match Concat("template-programmer/project/", projectId)
    case Err(x) => Err(x)
    case Ok(path) =>
      TemplatePayloadCarriesScript(script, templateName, productFamily);
      Ok(Post(CreateTemplate, path + "/template", TemplatePayload(script, templateName, productFamily)))
  }

  /** get_parent_template_id's request, on the same path. */
  function ParentTemplateRequest(projectId: Value): (r: Result<Request, PyError>)
    ensures r.Ok? <==> projectId.Str?
    ensures r.Ok? ==> r.value == Get(ParentTemplate, "template-programmer/project/" + projectId.s + "/template")
  {
    match Concat("template-programmer/project/", projectId)
    case Err(x) => Err(x)
    case Ok(path) => Ok(Get(ParentTemplate, path + "/template"))
  }

  /** commit_template's request: the id goes into the JSON body, so `None`
      is sent as `null` rather than raising. */
  function CommitRequest(templateId: Value): (r: Request)
    ensures r.Post? && r.endpoint == CommitTemplate
    ensures r.path == "template-programmer/template/version"
    ensures Field(r.payload, "templateId") == Ok(templateId)
  {
    Post(CommitTemplate, "template-programmer/template/version",
      Obj([("templateId", templateId), ("comments", Str("Committing template"))]))
  }

  /** get_templateid's request: it takes no part of its argument. */
  function TemplateIdRequest(): (r: Request)
    ensures r.Get? && r.endpoint == TemplateId
    ensures r.path == "template-programmer/template"
  {
    Get(TemplateId, "template-programmer/template")
  }

  function VersionRequest(templateId: Value): (r: Result<Request, PyError>)
    ensures r.Ok? <==> templateId.Str?
    ensures r.Ok? ==> r.value == Get(TemplateVersion, "template-programmer/template/version/" + templateId.s)
  {
    match Concat("template-programmer/template/version/", templateId)
    case Err(x) => Err(x)
    case Ok(path) => Ok(Get(TemplateVersion, path))
  }

  function DeviceRequest(deviceIp: string): (r: Request)
    ensures r.Get? && r.endpoint == DeviceId
    ensures r.path == "network-device/ip-address/" + deviceIp
  {
    Get(DeviceId, "network-device/ip-address/" + deviceIp)
  }

  /** deploy_template's request: one managed device, by UUID. */
  function DeployRequest(versionId: Value, deviceUuid: Value): (r: Request)
    ensures r.Post? && r.endpoint == Deploy
    ensures r.path == "template-programmer/template/deploy"
    ensures Field(r.payload, "templateId") == Ok(versionId)
    ensures Field(r.payload, "targetInfo")
         == Ok(Arr([Obj([("type", Str("MANAGED_DEVICE_UUID")), ("id", deviceUuid)])]))
  {
    var target := Arr([Obj([("type", Str("MANAGED_DEVICE_UUID")), ("id", deviceUuid)])]);
    var fields := [("templateId", versionId), ("targetInfo", target)];
    assert fields[0].0 != "targetInfo" by { assert fields[0].0[1] != "targetInfo"[1]; }
    assert Lookup(fields[1..], "targetInfo") == Some(target);
    Post(Deploy, "template-programmer/template/deploy", Obj(fields))
  }

  function StatusRequest(deployId: Value): (r: Result<Request, PyError>)
    ensures r.Ok? <==> deployId.Str?
    ensures r.Ok? ==> r.value == Get(DeployStatus, "template-programmer/template/deploy/status/" + deployId.s)
  {
    match Concat("template-programmer/template/deploy/status/", deployId)
    case Err(x) => Err(x)
    case Ok(path) => Ok(Get(DeployStatus, path))
  }
}
