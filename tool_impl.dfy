/** The eight tools: each validates its payload against its input schema,
    drops the fields left as None, audits what remains, moves the path
    identifier into the URL, sends the request and wraps the outcome in the
    uniform envelope. */
module ToolImpl {
  import opened Wrappers
  import opened Json
  import opened LoggingUtils
  import opened Client

  datatype Tool =
    | ListWorkspaces
    | GetCurrentUser
    | ListProjects
    | GetTask
    | SearchTasks
    | CreateTask
    | UpdateTask
    | DeleteTask

  /** The audit event name of each tool. */
  function EventName(tool: Tool): string {
    match tool
    case ListWorkspaces => "asana.list_workspaces"
    case GetCurrentUser => "asana.get_current_user"
    case ListProjects => "asana.list_projects"
    case GetTask => "asana.get_task"
    case SearchTasks => "asana.search_tasks"
    case CreateTask => "asana.create_task"
    case UpdateTask => "asana.update_task"
    case DeleteTask => "asana.delete_task"
  }

  /** The declared type and constraint of an input field. Every field other
      than RequiredText is optional and defaults to None. */
  datatype FieldKind =
    | RequiredText      // str, at least one character
    | OptionalText      // Optional[str]
    | OptionalFlag      // Optional[bool]
    | OptionalLimit     // Optional[int], between 1 and 100
    | OptionalTextList  // Optional[list[str]]

  /** The fields of each tool's input class and their kinds. The required
      fields are exactly the tool's path identifier and create_task's name,
      and "limit" is the only bounded number. */
  function Schema(tool: Tool): (r: map<string, FieldKind>)
    ensures PathKey(tool).Some? ==> PathKey(tool).value in r
    ensures forall f | f in r :: r[f] == RequiredText <==> Some(f) == PathKey(tool) || (tool.CreateTask? && f == "name")
    ensures forall f | f in r :: r[f] == OptionalLimit <==> f == "limit"
  {
    match tool
    case ListWorkspaces => map["opt_fields" := OptionalText]
    case GetCurrentUser => map["opt_fields" := OptionalText]
    case ListProjects => map[
      "workspace_gid" := RequiredText, "archived" := OptionalFlag,
      "limit" := OptionalLimit, "opt_fields" := OptionalText]
    case GetTask => map["task_gid" := RequiredText, "opt_fields" := OptionalText]
    case SearchTasks => map[
      "workspace_gid" := RequiredText, "text" := OptionalText,
      "assignee" := OptionalText, "projects" := OptionalText,
      "completed_since" := OptionalText, "limit" := OptionalLimit,
      "sort_by" := OptionalText, "sort_ascending" := OptionalFlag,
      "opt_fields" := OptionalText]
    case CreateTask => map[
      "name" := RequiredText, "workspace" := OptionalText,
      "projects" := OptionalTextList, "notes" := OptionalText,
      "assignee" := OptionalText, "due_on" := OptionalText,
      "start_on" := OptionalText, "parent" := OptionalText]
    case UpdateTask => map[
      "task_gid" := RequiredText, "name" := OptionalText,
      "workspace" := OptionalText, "projects" := OptionalTextList,
      "notes" := OptionalText, "assignee" := OptionalText,
      "due_on" := OptionalText, "start_on" := OptionalText,
      "parent" := OptionalText]
    case DeleteTask => map["task_gid" := RequiredText]
  }

  /** The value a payload gives a field, None when the key is absent. */
  function Lookup(payload: map<string, Value>, name: string): Option<Value> {
    if name in payload then Some(payload[name]) else None
  }

  /** Whether a field of this kind accepts the given value (absent, or
      present with a value, None included). */
  predicate Accepts(kind: FieldKind, v: Option<Value>) {
    match kind
    case RequiredText => v.Some? && v.value.Str? && |v.value.s| >= 1
    case OptionalText => v.None? || v.value.Null? || v.value.Str?
    case OptionalFlag => v.None? || v.value.Null? || v.value.Bool?
    case OptionalLimit => v.None? || v.value.Null? || (v.value.Num? && 1 <= v.value.n <= 100)
    case OptionalTextList =>
      v.None? || v.value.Null? ||
      (v.value.List? && forall i | 0 <= i < |v.value.items| :: v.value.items[i].Str?)
  }

  /** Only a required field may not be left out or set to None. */
  lemma OnlyRequiredFieldsMandatory(kind: FieldKind)
    ensures Accepts(kind, None) <==> kind != RequiredText
    ensures Accepts(kind, Some(Null)) <==> kind != RequiredText
  {
  }

  /** The fields a validation error reports. */
  datatype ValidationError = ValidationError(fields: set<string>)

  /** `Input(**payload).model_dump(exclude_none=True)`: the payload is
      accepted exactly when every declared field accepts its value, and the
      data are then the declared fields whose value is not None, unchanged
      (empty strings included); undeclared keys are ignored. A rejection
      names every field that failed. */
  function Validate(tool: Tool, payload: map<string, Value>): (r: Result<map<string, Value>, ValidationError>)
    ensures r.Success? <==> forall f | f in Schema(tool) :: Accepts(Schema(tool)[f], Lookup(payload, f))
    ensures r.Success? ==> forall k :: k in r.value <==> k in Schema(tool) && k in payload && payload[k] != Null
    ensures r.Success? ==> forall k | k in r.value :: r.value[k] == payload[k]
    ensures r.Failure? ==> r.error.fields != {}
    ensures r.Failure? ==>
      forall f :: f in r.error.fields <==> f in Schema(tool) && !Accepts(Schema(tool)[f], Lookup(payload, f))
  {
    var schema := Schema(tool);
    if forall f | f in schema :: Accepts(schema[f], Lookup(payload, f)) then
      Success(map k | k in schema && k in payload && payload[k] != Null :: payload[k])
    else
      var f :| f in schema && !Accepts(schema[f], Lookup(payload, f));
      var rejected := set g | g in schema && !Accepts(schema[g], Lookup(payload, g));
      assert f in rejected;
      Failure(ValidationError(rejected))
  }

  /** The identifier each tool moves from the data into the URL path. */
  function PathKey(tool: Tool): Option<string> {
    match tool
    case ListProjects => Some("workspace_gid")
    case SearchTasks => Some("workspace_gid")
    case GetTask => Some("task_gid")
    case UpdateTask => Some("task_gid")
    case DeleteTask => Some("task_gid")
    case _ => None
  }

  /** The data carry the tool's path identifier as a string. */
  predicate HasPathId(tool: Tool, data: map<string, Value>) {
    PathKey(tool).Some? ==> PathKey(tool).value in data && data[PathKey(tool).value].Str?
  }

  /** Python `data or None` for query parameters. */
  function ParamsOrNone(data: map<string, Value>): (r: Option<map<string, Value>>)
    ensures r.Some? <==> data != map[]
    ensures r.Some? ==> r.value == data
  {
    if data == map[] then None else Some(data)
  }

  /** The request each tool sends for validated data. */
  function RequestFor(tool: Tool, data: map<string, Value>): (r: HttpRequest)
    requires HasPathId(tool, data)
    ensures r.verb == GET <==> !(tool.CreateTask? || tool.UpdateTask? || tool.DeleteTask?)
    ensures r.params.Some? ==> r.verb == GET && r.params.value != map[]
    ensures r.payload.Some? <==> tool.CreateTask? || tool.UpdateTask?
  {
    match tool
    case ListWorkspaces => HttpRequest(GET, "/workspaces", ParamsOrNone(data), None)
    case GetCurrentUser => HttpRequest(GET, "/users/me", ParamsOrNone(data), None)
    case ListProjects =>
      HttpRequest(GET, "/workspaces/" + data["workspace_gid"].s + "/projects",
        ParamsOrNone(data - {"workspace_gid"}), None)
    case GetTask =>
      HttpRequest(GET, "/tasks/" + data["task_gid"].s, ParamsOrNone(data - {"task_gid"}), None)
    case SearchTasks =>
      HttpRequest(GET, "/workspaces/" + data["workspace_gid"].s + "/tasks/search",
        ParamsOrNone(data - {"workspace_gid"}), None)
    case CreateTask =>
      HttpRequest(POST, "/tasks", None, Some(Object(map["data" := Object(data)])))
    case UpdateTask =>
      HttpRequest(PUT, "/tasks/" + data["task_gid"].s, None,
        Some(Object(map["data" := Object(data - {"task_gid"})])))
    case DeleteTask =>
      HttpRequest(DELETE, "/tasks/" + data["task_gid"].s, None, None)
  }

  /** The response envelope: a map whose "status" is "ok" or "error" and
      that carries exactly one of "data" and "error", the one its status
      names. */
  predicate IsEnvelope(v: Value) {
    && v.Object?
    && "status" in v.fields
    && ("data" in v.fields <==> "error" !in v.fields)
    && (v.fields["status"] == Str("ok") <==> "data" in v.fields)
    && (v.fields["status"] == Str("error") <==> "error" in v.fields)
  }

  /** `ok(data)`. */
  function Ok(data: Value): (r: Value)
    ensures IsEnvelope(r) && r.fields.Keys == {"status", "data"}
    ensures r.fields["data"] == data
  {
    Object(map["status" := Str("ok"), "data" := data])
  }

  /** `err(code, message, details)`: the error map holds the code and the
      message, and the details only when they are truthy. */
  function Err(code: string, message: string, details: Value): (r: Value)
    ensures IsEnvelope(r) && r.fields.Keys == {"status", "error"}
    ensures "error" in r.fields && r.fields["error"].Object? &&
      var e := r.fields["error"].fields;
      "code" in e && e["code"] == Str(code) && "message" in e && e["message"] == Str(message) &&
      ("details" in e <==> Truthy(details)) && e.Keys <= {"code", "message", "details"} &&
      (Truthy(details) ==> e["details"] == details)
  {
    var error := map["code" := Str(code), "message" := Str(message)];
    Object(map["status" := Str("error"), "error" := Object(if Truthy(details) then error["details" := details] else error)])
  }

  /** What a tool returns or raises: an envelope, the validation error
      (raised, never wrapped), or an exception other than AsanaError
      escaping from the client. */
  datatype ToolResult = Envelope(value: Value) | Rejected(error: ValidationError) | Propagated(exception: Unhandled)

  /** The error envelope's details for an AsanaError: its status code and
      its details, redacted again. */
  function ErrorDetails(e: AsanaError): (r: Value)
    ensures r.Object? && r.fields.Keys == {"status_code", "details"} && Truthy(r)
    ensures r.fields["status_code"] == Num(e.statusCode) && Masked(r.fields["details"])
  {
    Object(map["status_code" := Num(e.statusCode), "details" := Redact(e.details)])
  }

  /** The `try`/`except AsanaError` around each request: a returned body is
      wrapped by `ok`, an AsanaError by `err("asana_error", str(exc), ...)`,
      and anything else propagates. */
  function Wrap(outcome: Outcome): (r: ToolResult)
    ensures r.Envelope? <==> !outcome.Escaped?
    ensures r.Envelope? ==> IsEnvelope(r.value)
    ensures outcome.Returned? ==> r.Envelope? && CarriesData(r.value, outcome.body)
    ensures outcome.Raised? ==> r.Envelope? && CarriesApiError(r.value, outcome.error)
    ensures outcome.Escaped? ==> r == Propagated(outcome.exception)
  {
    match outcome
    case Returned(body) => Envelope(Ok(body))
    case Raised(e) => Envelope(Err("asana_error", e.message, ErrorDetails(e)))
    case Escaped(x) => Propagated(x)
  }

  /** An envelope carrying data. */
  predicate CarriesData(v: Value, data: Value) {
    v.Object? && "data" in v.fields && v.fields["data"] == data
  }

  /** An error envelope for an AsanaError: code "asana_error", the error's
      message, and details holding its status code and its details, masked. */
  predicate CarriesApiError(v: Value, e: AsanaError) {
    && v.Object? && "error" in v.fields && v.fields["error"].Object?
    && var err := v.fields["error"].fields;
      && "code" in err && err["code"] == Str("asana_error")
      && "message" in err && err["message"] == Str(e.message)
      && "details" in err && err["details"].Object?
      && var details := err["details"].fields;
        && "status_code" in details && details["status_code"] == Num(e.statusCode)
        && "details" in details && details["details"] == Redact(e.details)
        && Masked(details["details"])
  }

  /** One tool invocation, as each of the eight tool functions performs it:
      validate (a failure raises before anything is logged or sent), audit
      the data under the tool's event name with the path identifier still
      in it, pop the identifier into the path, send, and wrap the outcome. */
  method Invoke(tool: Tool, payload: map<string, Value>, log: AuditLog, client: AsanaClient, responses: seq<Response>)
    returns (result: ToolResult)
    requires log.Valid()
    modifies log, client
    ensures log.Valid()
    ensures Validate(tool, payload).Failure? ==>
      && result == Rejected(Validate(tool, payload).error)
      && log.records == old(log.records)
      && client.sent == old(client.sent) && client.slept == old(client.slept)
    ensures Validate(tool, payload).Success? ==>
      && HasPathId(tool, Validate(tool, payload).value)
      && log.records == old(log.records) + [AuditRecord(EventName(tool), Redact(Object(Validate(tool, payload).value)))]
      && client.sent == old(client.sent) +
           Repeat(RequestFor(tool, Validate(tool, payload).value), Execute(client.maxRetries, responses).calls)
      && client.slept == old(client.slept) + Execute(client.maxRetries, responses).delays
      && result == Wrap(Execute(client.maxRetries, responses).outcome)
  {
    var validated := Validate(tool, payload);
    if validated.Failure? {
      return Rejected(validated.error);
    }
    var data := validated.value;
    ValidatedHasPathId(tool, payload);
    log.Audit(EventName(tool), Object(data));
    var request: HttpRequest;
    match tool {
      case ListWorkspaces =>
        request := HttpRequest(GET, "/workspaces", ParamsOrNone(data), None);
      case GetCurrentUser =>
        request := HttpRequest(GET, "/users/me", ParamsOrNone(data), None);
      case ListProjects =>
        var workspaceGid := data["workspace_gid"].s;
        data := data - {"workspace_gid"};
        request := HttpRequest(GET, "/workspaces/" + workspaceGid + "/projects", ParamsOrNone(data), None);
      case GetTask =>
        var taskGid := data["task_gid"].s;
        data := data - {"task_gid"};
        request := HttpRequest(GET, "/tasks/" + taskGid, ParamsOrNone(data), None);
      case SearchTasks =>
        var workspaceGid := data["workspace_gid"].s;
        data := data - {"workspace_gid"};
        request := HttpRequest(GET, "/workspaces/" + workspaceGid + "/tasks/search", ParamsOrNone(data), None);
      case CreateTask =>
        request := HttpRequest(POST, "/tasks", None, Some(Object(map["data" := Object(data)])));
      case UpdateTask =>
        var taskGid := data["task_gid"].s;
        data := data - {"task_gid"};
        request := HttpRequest(PUT, "/tasks/" + taskGid, None, Some(Object(map["data" := Object(data)])));
      case DeleteTask =>
        var taskGid := data["task_gid"].s;
        request := HttpRequest(DELETE, "/tasks/" + taskGid, None, None);
    }
    var outcome := client.Request(request, responses);
    result := Wrap(outcome);
  }

  /** Validated data hold every required field as a non-empty string (in
      particular the path identifier), and a limit, when given, lies
      between 1 and 100. */
  lemma ValidatedConstraints(tool: Tool, payload: map<string, Value>)
    requires Validate(tool, payload).Success?
    ensures var data := Validate(tool, payload).value;
      (forall f | f in Schema(tool) && Schema(tool)[f] == RequiredText ::
         f in data && data[f].Str? && |data[f].s| >= 1) &&
      ("limit" in data ==> data["limit"].Num? && 1 <= data["limit"].n <= 100)
  {
    var data := Validate(tool, payload).value;
    forall f | f in Schema(tool) && Schema(tool)[f] == RequiredText
      ensures f in data && data[f].Str? && |data[f].s| >= 1
    {
      assert Accepts(Schema(tool)[f], Lookup(payload, f));
    }
    if "limit" in data {
      assert Schema(tool)["limit"] == OptionalLimit;
      assert Accepts(Schema(tool)["limit"], Lookup(payload, "limit"));
    }
  }

  /** The path identifier of a tool is one of its required fields. */
  lemma ValidatedHasPathId(tool: Tool, payload: map<string, Value>)
    requires Validate(tool, payload).Success?
    ensures HasPathId(tool, Validate(tool, payload).value)
  {
    if PathKey(tool).Some? {
      assert Schema(tool)[PathKey(tool).value] == RequiredText;
      ValidatedConstraints(tool, payload);
    }
  }

  /** The data are audited before the identifier is popped, so the audit
      record still carries it, and carries it as sent: neither identifier
      key is sensitive. */
  lemma AuditKeepsPathId(tool: Tool, payload: map<string, Value>)
    requires Validate(tool, payload).Success? && PathKey(tool).Some?
    ensures var data := Validate(tool, payload).value;
      var key := PathKey(tool).value;
      && key in data && data[key].Str?
      && key in Redact(Object(data)).fields
      && Redact(Object(data)).fields[key] == data[key]
  {
    ValidatedHasPathId(tool, payload);
    var data := Validate(tool, payload).value;
    var key := PathKey(tool).value;
    assert FoldKey(key) == key;
    assert !IsSensitiveKey(key);
    RedactEntry(data, key);
  }

  /** None-valued fields never reach the audit log or the request, while an
      empty string in an optional field is kept. */
  lemma NoneDroppedEmptyKept(tool: Tool, payload: map<string, Value>, k: string)
    requires Validate(tool, payload).Success?
    requires k in payload
    ensures payload[k] == Null ==> k !in Validate(tool, payload).value
    ensures payload[k] == Str("") && k in Schema(tool) ==> Validate(tool, payload).value[k] == Str("")
  {
  }

  /** The path identifier leaves the data: it appears in the URL path and
      in neither the query parameters nor the body. */
  lemma PathIdOnlyInPath(tool: Tool, data: map<string, Value>)
    requires HasPathId(tool, data) && PathKey(tool).Some?
    ensures var key := PathKey(tool).value;
      var req := RequestFor(tool, data);
      && (req.params.Some? ==> key !in req.params.value)
      && (req.payload.Some? ==>
           && req.payload.value.Object? && "data" in req.payload.value.fields
           && req.payload.value.fields["data"].Object?
           && key !in req.payload.value.fields["data"].fields)
    ensures RequestFor(tool, data).path == PathPrefix(tool) + data[PathKey(tool).value].s + PathSuffix(tool)
  {
  }

  /** The text before the identifier in each tool's path. */
  function PathPrefix(tool: Tool): string {
    if tool.ListProjects? || tool.SearchTasks? then "/workspaces/" else "/tasks/"
  }

  /** The text after the identifier in each tool's path. */
  function PathSuffix(tool: Tool): string {
    match tool
    case ListProjects => "/projects"
    case SearchTasks => "/tasks/search"
    case _ => ""
  }

  /** The fields a request carries to the API: its query parameters, or
      the "data" map of its body. */
  function SentFields(r: HttpRequest): map<string, Value> {
    if r.params.Some? then r.params.value
    else if r.payload.Some? && r.payload.value.Object? && "data" in r.payload.value.fields
      && r.payload.value.fields["data"].Object?
    then r.payload.value.fields["data"].fields
    else map[]
  }

  /** Nothing validated is lost and nothing is invented: the request
      carries every validated field except the path identifier, with its
      value, and no other field. */
  lemma DataForwarded(tool: Tool, payload: map<string, Value>)
    requires Validate(tool, payload).Success?
    ensures var data := Validate(tool, payload).value;
      HasPathId(tool, data) &&
      var sent := SentFields(RequestFor(tool, data));
      (forall k :: k in sent <==> k in data && Some(k) != PathKey(tool)) &&
      (forall k | k in sent :: sent[k] == data[k])
  {
    ValidatedHasPathId(tool, payload);
    var data := Validate(tool, payload).value;
    if tool.DeleteTask? {
      assert forall k | k in data :: k == "task_gid";
    }
  }

  /** create_task POSTs to /tasks with body {"data": data} and no query
      parameters. */
  lemma CreateTaskShape(data: map<string, Value>)
    ensures RequestFor(CreateTask, data) ==
      HttpRequest(POST, "/tasks", None, Some(Object(map["data" := Object(data)])))
  {
  }

  /** update_task PUTs to /tasks/{gid} with body {"data": rest}, rest being
      the data without the identifier; delete_task DELETEs /tasks/{gid}
      with neither parameters nor body. */
  lemma TaskGidRequestShapes(data: map<string, Value>)
    requires "task_gid" in data && data["task_gid"].Str?
    ensures RequestFor(UpdateTask, data) ==
      HttpRequest(PUT, "/tasks/" + data["task_gid"].s, None, Some(Object(map["data" := Object(data - {"task_gid"})])))
    ensures RequestFor(DeleteTask, data) ==
      HttpRequest(DELETE, "/tasks/" + data["task_gid"].s, None, None)
  {
  }

  /** create_task with an empty name is refused before anything is logged
      or sent; with {"name": "Write spec"} it sends one POST to /tasks with
      body {"data": {"name": "Write spec"}}. */
  lemma CreateTaskExamples()
    ensures Validate(CreateTask, map["name" := Str("")]).Failure?
    ensures Validate(CreateTask, map["name" := Str("Write spec")]) == Success(map["name" := Str("Write spec")])
    ensures RequestFor(CreateTask, map["name" := Str("Write spec")]) ==
      HttpRequest(POST, "/tasks", None, Some(Object(map["data" := Object(map["name" := Str("Write spec")])])))
  {
    var payload := map["name" := Str("Write spec")];
    assert Schema(CreateTask)["name"] == RequiredText;
    assert !Accepts(RequiredText, Lookup(map["name" := Str("")], "name"));
    var data := Validate(CreateTask, payload).value;
    assert "name" in data;
    assert forall k | k in data :: k == "name";
    assert data == payload;
  }
}
