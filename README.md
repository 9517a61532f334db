# DNAC Easy Debug: a Dafny model of the log-collector deployment

DNAC-Easy-Debug-App pushes an Embedded Event Manager (EEM) applet to one
network device through Cisco DNA Center's Template Programmer. The applet
watches an IOS-XE process's error trace and ships the trace logs to an FTP
server. This project models:

- the driver in `deviceLogCollector.py`. It creates a template project, renders
  the EEM script and collapses its indentation, then creates, commits and
  versions a template that carries the script. It looks up the device by IP
  address, deploys the template's latest version to it and polls the
  deployment's status;
- the request helpers it calls (`dnac_template_helper.py` and
  `get_network_device_id`). Each one sends one request and exits unless the
  reply has the single status code it expects. All but `commit_template` then
  pull one value out of the JSON reply; `commit_template` returns `None`;
- the selection logic: the first-match scans of `get_filtered_templateID` and
  `get_parent_template_id`, and `get_filtered_version`, which picks the
  template's highest version number and returns its id.

Modules:

- `Wrappers`: `Option` and `Result`.
- `Json`: parsed JSON and the Python operations applied to it (`v["key"]`,
  `v[0]`, `int(...)`, `str(n)`, `"prefix" + v`). An operation that raises in
  Python yields `Err` with the exception's kind.
- `TemplateSelection`: the scans. Each is a specification function, and
  `get_filtered_version`'s two loops are also methods with loop invariants,
  proved equal to those functions.
- `TemplateHelpers`: the endpoints, the status gate each helper applies, the
  value each helper extracts, and the request each one sends.
- `EemScript`: the script template and `re.sub('\n\s+', '\n', …)`.
- `LogCollector`: the `__main__` block, as methods over a sequence of
  controller replies. The reply to the k-th request of a run is `oracle[k]`;
  a request past the end of the sequence is one whose transport failed.

## Model

| member | source | states |
|---|---|---|
| Json.Lookup | dnac_template_helper.py:166-167 | a dict lookup returns the value of the first pair with the key, and finds nothing exactly when no pair has that key |
| Json.LookupDistinct | dnac_template_helper.py:162-167 | on a record with distinct keys, as `json.loads` builds, the lookup finds a value exactly when that key-value pair is in the record |
| Json.Get | dnac_template_helper.py:167 | `record[key]` succeeds exactly when the key is present, and otherwise raises `KeyError` |
| Json.Field | dnac_template_helper.py:63 | `v[key]` on a dict is its lookup; on any other value it raises `TypeError` |
| Json.First | dnac_template_helper.py:92 | `v[0]` succeeds exactly on a non-empty list or string, and on a list gives the first item |
| Json.AsRecords | dnac_template_helper.py:164-165 | a reply is walked as records exactly when it is a list of dicts; record i is item i's fields |
| Json.Concat | dnac_template_helper.py:122 | `prefix + v` succeeds exactly when `v` is a string, and gives the concatenation |
| Json.Decimal | dnac_template_helper.py:334 | `str(n)` is a non-empty digit string with no leading zero |
| Json.ParseInt | dnac_template_helper.py:328 | `int(v)` gives an integer's own value and parses a string exactly when it is a signed or unsigned numeral; other kinds of value raise |
| Json.DecimalRoundTrip | dnac_template_helper.py:328-334 | `int(str(n)) == n` for every n >= 0 |
| Json.DecimalInjective | dnac_template_helper.py:334 | distinct numbers print as distinct numerals |
| TemplateSelection.HasFieldEqual | dnac_template_helper.py:317-318 | the inner loop finds a match exactly when some field's value is the target string |
| TemplateSelection.FirstMatchField | dnac_template_helper.py:316-321 | with no matching record the result is `None`; otherwise it is the wanted field of the first matching record, or `KeyError` when that record lacks it |
| TemplateSelection.FilteredTemplateId | dnac_template_helper.py:315-321 | `templateId` of the first record with a field equal to the filter, `None` when there is none |
| TemplateSelection.ParentTemplateId | dnac_template_helper.py:164-169 | `id` of the first record with a field equal to the template name, `None` when there is none |
| TemplateSelection.RunningMaxIsMaximum | dnac_template_helper.py:325-330 | the first loop fails exactly when some version does not convert with `int`; otherwise it ends at the start value or a converted version, and at least every version |
| TemplateSelection.MaxVersion | dnac_template_helper.py:325-330 | the version the first loop settles on is max(0, every `int(version)`), and the loop raises exactly when a conversion does |
| TemplateSelection.RunningMaxAppend | dnac_template_helper.py:326-330 | running the maximum over two stretches of entries is running it over the first, then from there over the second |
| TemplateSelection.RecordMax | dnac_template_helper.py:327-330 | the inner loop over one entry's fields raises the running maximum exactly as the specification function does |
| TemplateSelection.ComputeMaxVersion | dnac_template_helper.py:325-330 | the first loop, as the source runs it, computes `MaxVersion` |
| TemplateSelection.FindVersionId | dnac_template_helper.py:332-337 | the second loop returns `id` of the first entry with a field equal to `str(version)`, `None` when there is none |
| TemplateSelection.FilteredVersion | dnac_template_helper.py:324-337 | get_filtered_version, both loops as written, equals its specification `LatestVersionId` on every reply |
| TemplateSelection.NegativeVersionsGiveZero | dnac_template_helper.py:325-334 | when every version is negative the maximum stays 0 and the second loop looks for "0" |
| TemplateSelection.LatestVersionIsFirstMaximum | dnac_template_helper.py:324-337 | on entries with one canonical version numeral and an id each, whatever further fields they carry as long as none holds a non-empty digit string, the result is the id of the first entry holding the largest version |
| TemplateSelection.PicksHighestVersion | dnac_template_helper.py:324-337 | versions 1, 3, 2: the entry with version 3 is chosen |
| TemplateSelection.TieGoesToFirst | dnac_template_helper.py:332-337 | of two entries with the same highest version, the first listed is chosen |
| TemplateSelection.NonCanonicalVersionSelectsNothing | dnac_template_helper.py:328-334 | a version written "03" counts as 3 but never equals `str(3)`, so no id is found and the result is `None` |
| TemplateSelection.OnlyFirstElementConsulted | dnac_template_helper.py:326 | only `template_json[0]` is read; the rest of the reply makes no difference |
| TemplateSelection.SelectLatest | dnac_template_helper.py:324-337 | both loops over `versionsInfo`: a failed `int()` is passed on; otherwise the result is `id` of the first entry with a field equal to `str(max)`, or `None` when no entry has one |
| TemplateSelection.LatestVersionId | dnac_template_helper.py:324-337 | get_filtered_version on the whole reply: an empty list raises `IndexError`, and only a non-empty list whose first element is a dict can succeed; on such a list the result is `SelectLatest` of that element's `versionsInfo` records, `KeyError` when the key is missing, and `TypeError` when its value is not a list of dicts |
| TemplateHelpers.ExpectedStatus | dnac_template_helper.py:33-312 | every helper expects exactly one status, 200 or 202 (which one is given by `TemplateHelpers.StatusCodes`) |
| TemplateHelpers.Gate | dnac_template_helper.py:46-63 | a helper goes on exactly when a reply arrived with its expected status; no reply is a transport failure; another status is an exit carrying the status and text |
| TemplateHelpers.TaskIdOf | dnac_template_helper.py:62-63 | `body["response"]["taskId"]` succeeds exactly when the reply is a dict whose `response` is a dict with a `taskId`, and then returns that value |
| TemplateHelpers.ProjectIdOf | dnac_template_helper.py:91-92 | on a non-empty list the project id is `body[0]["id"]`, whatever the project's name; a reply listing no project raises `IndexError`; only a non-empty list whose first element is a dict with an `id` succeeds |
| TemplateHelpers.ParentIdOf | dnac_template_helper.py:162-169 | a reply that is not a list of dicts raises `TypeError`; otherwise the result is `id` of the first record with a field equal to the template name, or `None` when there is none |
| TemplateHelpers.TemplateIdOf | dnac_template_helper.py:219-224 | a reply that is not a list of dicts raises `TypeError`; otherwise the result is `templateId` of the first record with a field equal to the configured template name, or `None` when there is none |
| TemplateHelpers.DeploymentIdOf | dnac_template_helper.py:285-286 | `body["deploymentId"]` succeeds exactly when the reply is a dict with that key, and returns its value |
| TemplateHelpers.StatusCodes | dnac_template_helper.py:33-312 | create-project, create-template, commit, deploy and check_status expect 202; the other reads expect 200 |
| TemplateHelpers.DeviceUuidOf | deviceLogCollector.py:66 | `body["response"]["instanceUuid"]` succeeds exactly when the reply is a dict whose `response` is a dict with an `instanceUuid`, and returns that value |
| TemplateHelpers.DeviceLookup | deviceLogCollector.py:55-66 | any status but 200 exits; a 200 reply is accepted whatever its text, even "[]"; the UUID is found exactly when `response.instanceUuid` exists, and is `response["instanceUuid"]` |
| TemplateHelpers.CreateProjectRequest | dnac_template_helper.py:40-48 | create_template_project posts to `template-programmer/project` a payload whose `name` is the project name |
| TemplateHelpers.ProjectIdRequest | dnac_template_helper.py:77 | get_template_project_id reads the project endpoint with the project name as the query |
| TemplateHelpers.CommitRequest | dnac_template_helper.py:180-185 | commit_template posts to `template-programmer/template/version` a payload whose `templateId` is the id it was handed, whatever its kind |
| TemplateHelpers.TemplateIdRequest | dnac_template_helper.py:209 | get_templateid reads the template list; the request takes nothing from its argument |
| TemplateHelpers.DeviceRequest | deviceLogCollector.py:47 | get_network_device_id reads the device by its IP address |
| TemplateHelpers.DeployRequest | dnac_template_helper.py:262-271 | deploy_template posts to `template-programmer/template/deploy` a payload whose `templateId` is the version id and whose one target is the device UUID, typed `MANAGED_DEVICE_UUID` |
| TemplateHelpers.TemplatePayloadCarriesScript | dnac_template_helper.py:107-118 | the posted template's `templateContent` is the script |
| TemplateHelpers.CreateTemplateRequest | dnac_template_helper.py:122 | create_template's request is built exactly when the project id is a string; it posts the script to that project's template path |
| TemplateHelpers.ParentTemplateRequest | dnac_template_helper.py:150 | the parent lookup reads the same project's template path, and raises on a non-string id |
| TemplateHelpers.VersionRequest | dnac_template_helper.py:236 | the version request names the template id, and raises on a non-string id |
| TemplateHelpers.StatusRequest | dnac_template_helper.py:298 | the status request names the deployment id, and raises on a non-string id |
| EemScript.ScriptNamesApplet | deviceLogCollector.py:69-101 | create_eem_script's text begins with the line declaring the applet DNACGetLog; `EemScript.DeviceScriptLines` gives all its lines |
| EemScript.DropSpaces | deviceLogCollector.py:156 | the greedy `\s+` removes exactly the leading whitespace run |
| EemScript.CollapseRemovesIndentation | deviceLogCollector.py:156 | after the substitution no newline is followed by whitespace |
| EemScript.CollapseKeepsNonSpace | deviceLogCollector.py:156 | every character that is not whitespace survives, in order, and no other is added |
| EemScript.CollapseFixedPoints | deviceLogCollector.py:156 | the substitution leaves a text unchanged if and only if no newline in it is followed by whitespace |
| EemScript.CollapseIdempotent | deviceLogCollector.py:156 | substituting twice gives the same text as substituting once |
| EemScript.CollapseShortens | deviceLogCollector.py:156 | the substitution never lengthens the text |
| EemScript.CollapseJoin | deviceLogCollector.py:82-100 | lines joined by a newline plus indentation collapse to the same lines joined by bare newlines |
| EemScript.DeviceScriptLines | deviceLogCollector.py:69-101 | when no parameter holds a newline, the collapsed script splits into exactly the eighteen template lines, each parameter in place |
| EemScript.ActionsInOrder | deviceLogCollector.py:81-98 | after the two header lines, the script's lines are the actions labelled 001 to 180, in order, one label per line |
| EemScript.ActionNumbersIncrease | deviceLogCollector.py:83-98 | the labels are three-digit numerals from 001 to 180 whose values strictly increase |
| EemScript.CommandWords | deviceLogCollector.py:93-94 | the archive command begins `archive tar ` and the copy command begins `copy ` |
| EemScript.ArchiveSection | deviceLogCollector.py:92-95 | of the four actions inside the if-branch, 130 runs the archive command, 140 runs the copy, and 125 and 150 run neither |
| EemScript.PlainLines | deviceLogCollector.py:81-98 | no line outside actions 125-150 runs `archive tar` or `copy` |
| EemScript.ArchiveThenCopy | deviceLogCollector.py:81-98 | exactly one line runs `archive tar`, action 130, which archives the process's trace logs; exactly one runs `copy`, action 140, which copies that archive to `ftp://` and the server address |
| LogCollector.Check | dnac_template_helper.py:289-312 | a status check succeeds exactly when its reply arrived with status 202, and then yields the parsed reply; otherwise it fails with the status and text, or as a transport failure when no reply came |
| LogCollector.Answer | dnac_template_helper.py:46-63 | a helper returns its value exactly when its reply was accepted and the extraction succeeded; a rejected reply gives the gate's failure, and an extraction that raises gives that exception uncaught |
| LogCollector.ReportsSuccess | deviceLogCollector.py:178 | the loop's test reads `status["status"]`, raising unless the reply is a dict with that key, and is true exactly when the value is "SUCCESS" |
| LogCollector.PollDeployment | deviceLogCollector.py:175-186 | at most ten re-checks, each after one sleep, all re-sending the same request; every examined status before the last was not SUCCESS; Deployed exactly when SUCCESS is seen before the counter runs out; TimedOut exactly when ten re-checks were made, even if the eleventh status says SUCCESS; an abort is the failed check or the unreadable status |
| LogCollector.ProjectCreated | dnac_template_helper.py:48-63 | create_template_project succeeds exactly when reply 0 was accepted with `response.taskId`, and returns that task id |
| LogCollector.ProjectFound | dnac_template_helper.py:77-92 | get_template_project_id succeeds exactly when reply 1 was accepted and its `body[0]["id"]` exists, and returns that id |
| LogCollector.TemplateCreated | dnac_template_helper.py:122-137 | create_template succeeds exactly when reply 2 was accepted with `response.taskId`, and returns that task id |
| LogCollector.ParentFound | dnac_template_helper.py:150-169 | get_parent_template_id succeeds exactly when reply 3 was accepted and its scan for the template name does not raise, and returns that scan's result |
| LogCollector.Committed | dnac_template_helper.py:185-198 | commit_template succeeds exactly when reply 4 was accepted, and returns `None` |
| LogCollector.TemplateFound | dnac_template_helper.py:209-224 | get_templateid succeeds exactly when reply 5 was accepted and its scan under the configured name does not raise, and returns that scan's result |
| LogCollector.VersionFound | deviceLogCollector.py:125-144 | get_template_version succeeds exactly when reply 6 was accepted and get_filtered_version does not raise on it, and returns the latest version's id |
| LogCollector.DeviceFound | deviceLogCollector.py:47-66 | get_network_device_id succeeds exactly when reply 7 was accepted with `response.instanceUuid`, and returns that UUID |
| LogCollector.DeploymentStarted | dnac_template_helper.py:271-286 | deploy_template succeeds exactly when reply 8 was accepted with a `deploymentId`, and returns that id |
| LogCollector.Sends | deviceLogCollector.py:152-183 | the request the driver sends after a given prefix of the run: each is built from the values the earlier helpers returned, and the poll re-sends the tenth; a specification predicate, used by the lemmas and methods below |
| LogCollector.FollowsDriver | deviceLogCollector.py:152-186 | a run on the driver's course: every request is what `Sends` allows after the requests before it, and every reply but the last was accepted; a specification predicate |
| LogCollector.StoppedAt | deviceLogCollector.py:152-175 | why a run that sent n requests stopped before the poll: the helper of request n-1 failed, or building the next request from its value raised; a specification predicate, spelled out by `LogCollector.StoppedAtCause` |
| LogCollector.PollStopped | deviceLogCollector.py:176-182 | why the poll stopped with a failure: the status check failed, or its reply was not a dict with a `status` key; a specification predicate |
| LogCollector.UploadRequest | dnac_template_helper.py:122 | the upload is built exactly when get_template_project_id returned a string, and is then create_template's request for that project id; a failed lookup is passed on, and a non-string id raises `TypeError` |
| LogCollector.VersionsRequest | deviceLogCollector.py:128 | the versions request is built exactly when get_templateid returned a string, and then names that template id; a failed lookup is passed on, and a non-string id (`None` when no template matched) raises `TypeError` |
| LogCollector.StatusPath | dnac_template_helper.py:298 | the status request is built exactly when deploy_template returned a string, and then names that deployment id; a failure is passed on, and a non-string id raises `TypeError` |
| LogCollector.Extend | deviceLogCollector.py:152-175 | a run on the driver's course stays on it when the last reply was accepted and the next request is the one the driver builds |
| LogCollector.SentAt | deviceLogCollector.py:152-186 | in a run on the driver's course, each request is the one the driver builds from the replies before it, and every request but the last was accepted |
| LogCollector.ProjectRequests | deviceLogCollector.py:152-163 | request 0 creates the default project and request 1 looks it up, sent only after reply 0 carried a task id; the upload and the parent lookup go to the path of `body[0]["id"]` of reply 1; the commit carries the parent id scanned out of reply 3 |
| LogCollector.DeployRequests | deviceLogCollector.py:165-183 | request 5 lists templates; request 6 reads the versions of the template id scanned out of reply 5 under the configured name; request 7 looks up the configured address; request 8 deploys the latest version of reply 6 to the UUID of reply 7; request 9 and every poll request check the deployment id of reply 8 |
| LogCollector.StoppedAtCause | deviceLogCollector.py:152-175 | a run that stops before the poll stops after 1 to 10 requests: with a transport failure when the last reply is missing, with its status and text when the last reply was refused, and with an uncaught exception only when it was accepted |
| LogCollector.StartProject | deviceLogCollector.py:152-153 | the first request creates the default project; the second looks it up only when reply 0 was accepted with a task id; the result is the project id `body[0]["id"]` of reply 1, or the failure of the helper that stopped |
| LogCollector.CreateTemplateStage | deviceLogCollector.py:159 | the third request posts the script to the found project's template path, and is sent only when the project id is a string; the result is the task id of reply 2, or the failure |
| LogCollector.ParentStage | deviceLogCollector.py:161 | the fourth request reads the found project's templates; the result is the scan of reply 3 for the template name, or the failure |
| LogCollector.CommitStage | deviceLogCollector.py:163-165 | the fifth request commits the parent id; the sixth lists templates only after the commit was accepted; the result is the scan of reply 5 under the configured template name, whatever id get_templateid was handed, or the failure |
| LogCollector.VersionStage | deviceLogCollector.py:168 | the seventh request reads the found template's versions, sent only when the template id is a string; the result is the latest version id of reply 6, or the failure |
| LogCollector.DeviceStage | deviceLogCollector.py:171 | the eighth request looks up the configured device address; the result is the UUID of reply 7, or the failure; the no-device exit never happens |
| LogCollector.DeployStage | deviceLogCollector.py:174-175 | the ninth request deploys the version to the device; the tenth checks the deployment id of reply 8, and its result is handed on, or the failure |
| LogCollector.UploadScript | deviceLogCollector.py:152-161 | the first helpers run in order until one fails; the run stops after that helper's request with that helper's failure; on success four requests were sent and the parent id is the scan of reply 3 |
| LogCollector.DeployLatest | deviceLogCollector.py:168-175 | from the template id on, the helpers run in order until one fails, stopping with its failure; on success the tenth request is the first status check and its result is that check's |
| LogCollector.Prepare | deviceLogCollector.py:150-175 | the helpers run in the driver's order, each only after the previous reply was accepted; the run stops at the first helper that fails, with its failure; on success it reaches the first status check |
| LogCollector.PollStep | deviceLogCollector.py:180-182 | re-sending the status request after an answered check keeps the run on the driver's course |
| LogCollector.PollFollowsDriver | deviceLogCollector.py:176-186 | a poll that only re-sends the first status request, after answered checks, keeps the run on the driver's course |
| LogCollector.FinishPoll | deviceLogCollector.py:176-186 | the poll keeps the first ten requests and re-sends the status request: between ten and twenty requests, one sleep per re-check; Deployed exactly when SUCCESS is seen before the counter runs out; TimedOut exactly when the twentieth request was answered; an abort is the failed check or the unreadable status |
| LogCollector.RunWorkflow | deviceLogCollector.py:147-186 | requests follow the driver's order, each after the previous was accepted and carrying the ids extracted from earlier replies; the uploaded template carries the collapsed script; at most 20 requests; sleeps equal the re-checks; Deployed exactly when a SUCCESS is seen before the counter ran out; TimedOut exactly when the twentieth request was answered; an abort is the failure of the helper that stopped the run, or of the poll; the no-device exit is never taken |

## Left out

- The transport in `dnac_api_helper.py` (token, HTTPS, headers) is not part of this model. A reply is given by the oracle, and a missing reply stands for a request that failed and exited.
- `dnac_config.py` holds sample settings only; they become the fields of `LogCollector.Config`.
- Printing is not modelled, nor is the 30-second length of each `time.sleep`. Only the number of sleeps is counted.
- `sys.exit()` after a bad status is modelled as the end of the run with `Aborted`, not as a process exit.
- JSON text parsing (`json.loads`) is not modelled. Each reply carries its text and its parsed body independently, and the model does not relate the two.
- JSON floating-point numbers are not modelled.
- Json.ParseInt: modelled on integers, booleans and ASCII numerals with an optional sign. Surrounding whitespace, underscores and non-ASCII digits are not modelled, so `int(" 3")` is 3 in Python but `ValueError` in the model.
- Json.AsRecords: a reply that is not a list of dicts, where a scan expects one, raises `TypeError` in the model. Python may return before it reaches the bad element, so a scan of `[{"n":"X","id":"a"}, 5]` for "X" returns "a" in Python but `TypeError` in the model.
- Json.Lookup: a record may hold a key twice, and then the lookup takes the first pair, while `json.loads` keeps the last. The replies `json.loads` builds have distinct keys, and on those the two agree (`Json.LookupDistinct`).
- deviceLogCollector.py star-imports `dnac_template_helper` at line 29 and then defines `get_templateID` (line 104) and `get_template_version` (line 125) itself. `get_templateID` is never called: the driver calls the imported `get_templateid`. The local `get_template_version` replaces the imported one, so it is the one the driver runs. Its body is the same as dnac_template_helper.py:227-252, and `LogCollector.VersionFound` models it.
- The only parameters of `CreateEemScript` are the five script values. The defaults that read `dnac_config` are left to `LogCollector.ScriptParamsOf`.
- EemScript.DeviceScriptLines: assumes that no script parameter contains a newline. A parameter with one would add lines of its own.

Where the code and its documentation differ, the model follows the code:

- the poll checks the status up to eleven times, not ten;
- the project id is taken from the first element of the reply, without matching the name;
- a scan that finds nothing returns `None` rather than raising;
- the device-emptiness test compares a string with a list and so never fires.
