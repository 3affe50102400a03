/**
 * The stdio JSON-RPC server in front of the data.gov client: its method and tool
 * tables, parameter handling, request dispatch, the error-code mapping of its
 * responses, and the resource selection and summary of `data_gov.downloadResources`.
 * JSON decoding of typed parameters and pretty-printing are parameters of the model.
 */
module McpServer {
  import opened Wrappers
  import opened Strings
  import opened Seqs
  import opened CkanModels
  import opened CkanClient
  import opened DataGovTypes
  import opened DataGov

  // ---------------------------------------------------------------------------
  // Methods and tools
  // ---------------------------------------------------------------------------

  /** `METHODS`: the methods the server advertises. */
  const Methods: seq<string> := [
    "initialize",
    "initialized",
    "shutdown",
    "tools/list",
    "data_gov.search",
    "data_gov.dataset",
    "data_gov.autocompleteDatasets",
    "data_gov.listOrganizations",
    "data_gov.downloadResources",
    "ckan.packageSearch",
    "ckan.packageShow",
    "ckan.organizationList"
  ]

  /** A `ToolSpec` without its description and JSON Schema: the tool name clients
      call and the method it runs. */
  datatype ToolSpec = ToolSpec(toolName: string, methodName: string)

  /** `tool_specs`: eight tools, each running one of the advertised methods. */
  function ToolSpecs(): (specs: seq<ToolSpec>)
    ensures |specs| == 8
    ensures forall i :: 0 <= i < |specs| ==> specs[i].methodName in Methods
  {
    [ ToolSpec("data_gov_search", "data_gov.search"),
      ToolSpec("data_gov_dataset", "data_gov.dataset"),
      ToolSpec("data_gov_autocomplete_datasets", "data_gov.autocompleteDatasets"),
      ToolSpec("data_gov_list_organizations", "data_gov.listOrganizations"),
      ToolSpec("data_gov_download_resources", "data_gov.downloadResources"),
      ToolSpec("ckan_package_search", "ckan.packageSearch"),
      ToolSpec("ckan_package_show", "ckan.packageShow"),
      ToolSpec("ckan_organization_list", "ckan.organizationList") ]
  }

  /** `Iterator::find`: the first spec that matches. */
  function FindFirst(specs: seq<ToolSpec>, matches: ToolSpec -> bool): (r: Option<ToolSpec>)
    ensures r.Some? ==> exists i :: 0 <= i < |specs| && specs[i] == r.value && matches(specs[i])
                                    && forall j :: 0 <= j < i ==> !matches(specs[j])
    ensures r.None? <==> forall i :: 0 <= i < |specs| ==> !matches(specs[i])
  {
    if specs == [] then None
    else if matches(specs[0]) then Some(specs[0])
    else
      var r := FindFirst(specs[1..], matches);
      assert r.Some? ==> exists i :: 0 <= i < |specs[1..]| && specs[1..][i] == r.value && matches(specs[1..][i])
                                     && forall j :: 0 <= j < i ==> !matches(specs[1..][j]);
      if r.Some? then
        var i :| 0 <= i < |specs[1..]| && specs[1..][i] == r.value && matches(specs[1..][i])
                 && forall j :: 0 <= j < i ==> !matches(specs[1..][j]);
        assert specs[i + 1] == r.value && forall j :: 0 <= j < i + 1 ==> !matches(specs[j]) by {
          forall j | 0 <= j < i + 1 ensures !matches(specs[j]) {
            if j > 0 { assert specs[j] == specs[1..][j - 1]; }
          }
        }
        r
      else
        assert forall i :: 0 < i < |specs| ==> specs[i] == specs[1..][i - 1];
        r
  }

  /** `find_tool_spec`: the spec with this tool name. */
  function FindToolSpec(name: string): Option<ToolSpec> {
    FindFirst(ToolSpecs(), (spec: ToolSpec) => spec.toolName == name)
  }

  /** `find_tool_spec_by_method`: the spec that runs this method. */
  function FindToolSpecByMethod(methodName: string): Option<ToolSpec> {
    FindFirst(ToolSpecs(), (spec: ToolSpec) => spec.methodName == methodName)
  }

  /** The tools run exactly the advertised methods after the four protocol methods,
      in the same order; every tool's method is therefore in `METHODS`. */
  lemma ToolMethodsAdvertised()
    ensures |ToolSpecs()| == 8
    ensures forall i :: 0 <= i < 8 ==> ToolSpecs()[i].methodName == Methods[i + 4]
    ensures forall i :: 0 <= i < |ToolSpecs()| ==> ToolSpecs()[i].methodName in Methods
  {
    var specs := ToolSpecs();
    forall i | 0 <= i < 8
      ensures specs[i].methodName == Methods[i + 4]
    {
    }
  }

  /** A method is served as a tool exactly when it is one of the eight data.gov and
      CKAN methods. */
  lemma ToolMethodsAreTheApiMethods(methodName: string)
    ensures FindToolSpecByMethod(methodName).Some? <==> methodName in Methods[4..]
  {
    var specs := ToolSpecs();
    var matches := (spec: ToolSpec) => spec.methodName == methodName;
    ToolMethodsAdvertised();
    if methodName in Methods[4..] {
      var k :| 0 <= k < |Methods[4..]| && Methods[4..][k] == methodName;
      assert matches(specs[k]);
    }
  }

  /** `find` returns the first match. */
  lemma FindFirstAt(specs: seq<ToolSpec>, matches: ToolSpec -> bool, i: nat)
    requires i < |specs| && matches(specs[i])
    requires forall j :: 0 <= j < i ==> !matches(specs[j])
    ensures FindFirst(specs, matches) == Some(specs[i])
  {
    var r := FindFirst(specs, matches);
    var k :| 0 <= k < |specs| && specs[k] == r.value && matches(specs[k])
             && forall j :: 0 <= j < k ==> !matches(specs[j]);
    assert k == i;
  }

  /** Looking a tool up by its own name, or by its own method, finds it. */
  lemma ToolLookupFindsItself(i: nat)
    requires i < |ToolSpecs()|
    ensures FindToolSpec(ToolSpecs()[i].toolName) == Some(ToolSpecs()[i])
    ensures FindToolSpecByMethod(ToolSpecs()[i].methodName) == Some(ToolSpecs()[i])
  {
    var specs := ToolSpecs();
    ToolNamesDistinct();
    ToolMethodsAdvertised();
    MethodsDistinct();
    FindFirstAt(specs, (spec: ToolSpec) => spec.toolName == specs[i].toolName, i);
    forall j | 0 <= j < i
      ensures specs[j].methodName != specs[i].methodName
    {
      assert Methods[j + 4] != Methods[i + 4];
    }
    FindFirstAt(specs, (spec: ToolSpec) => spec.methodName == specs[i].methodName, i);
  }

  /** No two tools share a name. */
  lemma ToolNamesDistinct()
    ensures forall i, j :: 0 <= i < j < |ToolSpecs()| ==> ToolSpecs()[i].toolName != ToolSpecs()[j].toolName
  {
  }

  /** No method is advertised twice. */
  lemma MethodsDistinct()
    ensures forall i, j :: 0 <= i < j < |Methods| ==> Methods[i] != Methods[j]
  {
  }

  /** How a method takes its parameters: decoded and required, decoded with a default
      when absent, or ignored. */
  datatype ParamsRule = Required | Optional | Ignored

  /** The parameter rule `invoke_method` applies to each method it handles; `None`
      for a method it does not know. */
  function ParamsRuleOf(methodName: string): Option<ParamsRule> {
    if methodName == "initialize" then Some(Optional)
    else if methodName == "initialized" || methodName == "shutdown" then Some(Ignored)
    else if methodName == "tools/list" then Some(Optional)
    else if methodName == "data_gov.search" then Some(Required)
    else if methodName == "data_gov.dataset" then Some(Required)
    else if methodName == "data_gov.autocompleteDatasets" then Some(Required)
    else if methodName == "data_gov.listOrganizations" then Some(Optional)
    else if methodName == "data_gov.downloadResources" then Some(Required)
    else if methodName == "ckan.packageSearch" then Some(Optional)
    else if methodName == "ckan.packageShow" then Some(Required)
    else if methodName == "ckan.organizationList" then Some(Optional)
    else None
  }

  /** `invoke_method` handles exactly the advertised methods; `tools/call` is handled
      by `dispatch` alone and is not advertised. */
  lemma HandledIffAdvertised(methodName: string)
    ensures ParamsRuleOf(methodName).Some? <==> methodName in Methods
    ensures ParamsRuleOf("tools/call").None? && "tools/call" !in Methods
  {
  }

  // ---------------------------------------------------------------------------
  // Errors and responses
  // ---------------------------------------------------------------------------

  /** `ServerError`. The wrapped `serde_json` and `std::io` errors are kept as their
      rendered text. */
  datatype ServerError =
    | InvalidRequest(message: string)
    | InvalidMethod(name: string)
    | InvalidParams(message: string)
    | JsonFailure(reason: string)
    | IoFailure(reason: string)
    | DataGovFailure(dataGov: DataGovError)
    | CkanApiFailure(ckan: CkanError)
    | Serialization(reason: string)

  /** The `Display` text of a `ServerError`. */
  function ServerErrorText(e: ServerError): (t: string)
    ensures e.InvalidRequest? || e.InvalidParams? ==> EndsWith(t, e.message)
    ensures e.InvalidMethod? ==> EndsWith(t, e.name)
    ensures e.JsonFailure? || e.IoFailure? || e.Serialization? ==> EndsWith(t, e.reason)
  {
    match e
    case InvalidRequest(m) => EndsWithConcat("invalid request: ", m); "invalid request: " + m
    case InvalidMethod(m) => EndsWithConcat("unknown method: ", m); "unknown method: " + m
    case InvalidParams(m) => EndsWithConcat("invalid parameters: ", m); "invalid parameters: " + m
    case JsonFailure(r) => EndsWithConcat("", r); r
    case IoFailure(r) => EndsWithConcat("", r); r
    case DataGovFailure(d) => DataGovErrorText(d)
    case CkanApiFailure(c) => CkanErrorText(c)
    case Serialization(r) => EndsWithConcat("serialization error: ", r); "serialization error: " + r
  }

  /** The error member of a response. */
  datatype ResponseError = ResponseError(code: i32, message: string, data: Option<Json>)

  const ParseErrorCode: i32 := -32700
  const InvalidRequestCode: i32 := -32600
  const MethodNotFoundCode: i32 := -32601
  const InvalidParamsCode: i32 := -32602
  const InternalErrorCode: i32 := -32603
  const DataGovErrorCode: i32 := -32010
  const CkanErrorCode: i32 := -32011
  const IoErrorCode: i32 := -32020

  /** `ResponseError::from`. */
  function ToResponseError(e: ServerError): (r: ResponseError)
    ensures r.data.None?
    ensures e.InvalidRequest? ==> r.code == InvalidRequestCode && r.message == e.message
    ensures e.InvalidMethod? ==> r.code == MethodNotFoundCode && r.message == "Unknown method: " + e.name
    ensures e.InvalidParams? ==> r.code == InvalidParamsCode && r.message == e.message
    ensures e.JsonFailure? ==> r.code == ParseErrorCode && r.message == e.reason
    ensures e.IoFailure? ==> r.code == IoErrorCode && r.message == e.reason
    ensures e.DataGovFailure? ==> r.code == DataGovErrorCode && r.message == DataGovErrorText(e.dataGov)
    ensures e.CkanApiFailure? ==> r.code == CkanErrorCode && r.message == CkanErrorText(e.ckan)
    ensures e.Serialization? ==> r.code == InternalErrorCode && r.message == e.reason
  {
    match e
    case InvalidRequest(m) => ResponseError(InvalidRequestCode, m, None)
    case InvalidMethod(m) => ResponseError(MethodNotFoundCode, "Unknown method: " + m, None)
    case InvalidParams(m) => ResponseError(InvalidParamsCode, m, None)
    case JsonFailure(r) => ResponseError(ParseErrorCode, r, None)
    case IoFailure(r) => ResponseError(IoErrorCode, r, None)
    case DataGovFailure(d) => ResponseError(DataGovErrorCode, DataGovErrorText(d), None)
    case CkanApiFailure(c) => ResponseError(CkanErrorCode, CkanErrorText(c), None)
    case Serialization(r) => ResponseError(InternalErrorCode, r, None)
  }

  /** The variant of a `ServerError`, as a number. */
  function Kind(e: ServerError): nat {
    match e
    case InvalidRequest(_) => 0
    case InvalidMethod(_) => 1
    case InvalidParams(_) => 2
    case JsonFailure(_) => 3
    case IoFailure(_) => 4
    case DataGovFailure(_) => 5
    case CkanApiFailure(_) => 6
    case Serialization(_) => 7
  }

  /** The code tells the variant apart: five variants get the codes section 5.1 of
      the JSON-RPC 2.0 specification predefines, the other three get distinct codes
      from the range it reserves for implementation-defined server errors. */
  lemma ErrorCodesIdentifyVariant(e1: ServerError, e2: ServerError)
    ensures ToResponseError(e1).code == ToResponseError(e2).code <==> Kind(e1) == Kind(e2)
    ensures var c := ToResponseError(e1).code;
            (c in {ParseErrorCode, InvalidRequestCode, MethodNotFoundCode, InvalidParamsCode, InternalErrorCode})
            || -32099 <= c <= -32000
  {
  }

  /** A response's error message is the `Display` text of the error for the wrapped
      variants, but drops the `Display` prefix of `InvalidRequest`, `InvalidParams`
      and `Serialization`, and capitalises that of `InvalidMethod`. */
  lemma ResponseMessageAndDisplay(e: ServerError)
    ensures (e.JsonFailure? || e.IoFailure? || e.DataGovFailure? || e.CkanApiFailure?) ==>
              ToResponseError(e).message == ServerErrorText(e)
    ensures (e.InvalidRequest? || e.InvalidParams? || e.Serialization?) ==>
              ServerErrorText(e) == PrefixOf(e) + ToResponseError(e).message
    ensures e.InvalidMethod? ==> ToResponseError(e).message == "U" + ServerErrorText(e)[1..]
  {
    if e.InvalidMethod? {
      Capitalised(e.name);
    }
  }

  lemma Capitalised(name: string)
    ensures "Unknown method: " + name == "U" + ("unknown method: " + name)[1..]
  {
    assert ("unknown method: " + name)[1..] == "nknown method: " + name;
  }

  function PrefixOf(e: ServerError): string {
    match e
    case InvalidRequest(_) => "invalid request: "
    case InvalidParams(_) => "invalid parameters: "
    case Serialization(_) => "serialization error: "
    case _ => ""
  }

  /** A JSON-RPC response. */
  datatype Response = Response(jsonrpc: string, id: Option<Json>, result: Option<Json>,
                               error: Option<ResponseError>)

  /** `Response::success`. */
  function Success(id: Option<Json>, result: Json): Response {
    Response("2.0", id, Some(result), None)
  }

  /** `Response::error`. */
  function Failure(id: Option<Json>, error: ServerError): Response {
    Response("2.0", id, None, Some(ToResponseError(error)))
  }

  /** `handle_request`: the outcome of dispatch becomes the response to the request's
      id. */
  function Respond(id: Option<Json>, outcome: Result<Json, ServerError>): Response {
    match outcome
    case Ok(v) => Success(id, v)
    case Err(e) => Failure(id, e)
  }

  /** The error member as `serde` writes it (`data` omitted when absent). */
  function ResponseErrorToJson(e: ResponseError): Json {
    Obj([("code", Num(e.code)), ("message", Str(e.message))]
        + (if e.data.Some? then [("data", e.data.value)] else []))
  }

  /** The response as `serde` writes it: `id` always (as `null` when absent), and
      `result` and `error` only when present. */
  function ResponseToJson(r: Response): Json {
    Obj([("jsonrpc", Str(r.jsonrpc)), ("id", r.id.UnwrapOr(Null))]
        + (if r.result.Some? then [("result", r.result.value)] else [])
        + (if r.error.Some? then [("error", ResponseErrorToJson(r.error.value))] else []))
  }

  /** Every response written carries `"jsonrpc": "2.0"` and the request's id, and
      exactly one of `result` (the value, on success) and `error` (with the code of
      the failure). */
  lemma ResponseShape(id: Option<Json>, outcome: Result<Json, ServerError>)
    ensures var j := ResponseToJson(Respond(id, outcome));
            Get(j, "jsonrpc") == Some(Str("2.0"))
            && Get(j, "id") == Some(id.UnwrapOr(Null))
            && (Get(j, "result").Some? <==> Get(j, "error").None?)
            && (outcome.Ok? ==> Get(j, "result") == Some(outcome.value))
            && (outcome.Err? ==> Get(j, "error").Some? && Get(Get(j, "error").value, "code")
                                   == Some(Num(ToResponseError(outcome.error).code)))
  {
    var r := Respond(id, outcome);
    var j := ResponseToJson(r);
    if outcome.Ok? {
      assert j.fields == [("jsonrpc", Str("2.0")), ("id", id.UnwrapOr(Null)), ("result", outcome.value)];
      assert j.fields[1..][1..] == [("result", outcome.value)];
      assert Lookup(j.fields[1..][1..], "result") == Some(outcome.value);
      assert Lookup(j.fields, "result") == Some(outcome.value);
      assert Lookup(j.fields, "error") == None;
    } else {
      var e := ResponseErrorToJson(ToResponseError(outcome.error));
      assert j.fields == [("jsonrpc", Str("2.0")), ("id", id.UnwrapOr(Null)), ("error", e)];
      assert j.fields[1..][1..] == [("error", e)];
      assert Lookup(j.fields, "id") == Some(id.UnwrapOr(Null));
      assert Lookup(j.fields, "result") == None;
      assert Lookup(j.fields[1..][1..], "error") == Some(e);
      assert Lookup(j.fields[1..], "error") == Some(e);
      assert Lookup(j.fields, "error") == Some(e);
      assert e.fields[0] == ("code", Num(ToResponseError(outcome.error).code));
    }
  }

  // ---------------------------------------------------------------------------
  // Parameters
  // ---------------------------------------------------------------------------

  /** `parse_required_params`, with `serde_json::from_value` as `decode`. */
  function ParseRequired<T>(methodName: string, params: Option<Json>, decode: Json -> Result<T, string>)
    : (r: Result<T, ServerError>)
    ensures params.None? ==> r == Err(InvalidParams(methodName + ": missing parameters"))
    ensures params.Some? && decode(params.value).Ok? ==> r == Ok(decode(params.value).value)
    ensures params.Some? && decode(params.value).Err? ==>
              r == Err(InvalidParams(methodName + ": " + decode(params.value).error))
  {
    match params
    case None => Err(InvalidParams(methodName + ": missing parameters"))
    case Some(v) =>
      match decode(v)
      case Ok(p) => Ok(p)
      case Err(m) => Err(InvalidParams(methodName + ": " + m))
  }

  /** `parse_optional_params`: as `ParseRequired`, but absent parameters are the
      type's default. */
  function ParseOptional<T>(methodName: string, params: Option<Json>, decode: Json -> Result<T, string>,
                            default: T): (r: Result<T, ServerError>)
    ensures params.None? ==> r == Ok(default)
  {
    match params
    case None => Ok(default)
    case Some(v) =>
      match decode(v)
      case Ok(p) => Ok(p)
      case Err(m) => Err(InvalidParams(methodName + ": " + m))
  }

  /** The two rules agree on present parameters and differ only on absent ones; a
      parameter error always names the method. */
  lemma ParamsRulesAgree<T>(methodName: string, params: Option<Json>, decode: Json -> Result<T, string>,
                            default: T)
    ensures params.Some? ==> ParseOptional(methodName, params, decode, default) == ParseRequired(methodName, params, decode)
    ensures params.None? ==>
              ParseRequired(methodName, params, decode).Err? && ParseOptional(methodName, params, decode, default) == Ok(default)
    ensures ParseRequired(methodName, params, decode).Err? ==>
              ParseRequired(methodName, params, decode).error.InvalidParams?
              && StartsWith(ParseRequired(methodName, params, decode).error.message, methodName + ": ")
  {
  }

  // ---------------------------------------------------------------------------
  // Tool responses and dispatch
  // ---------------------------------------------------------------------------

  /** One item of a tool result. */
  datatype ToolContent = TextContent(text: string) | JsonContent(json: Json)

  datatype ToolResponse = ToolResponse(content: seq<ToolContent>, isError: Option<bool>)

  /** `ToolResponse::from_value`, with `serde_json::to_string_pretty` as `render`. */
  function FromValue(value: Json, render: Json -> string): ToolResponse {
    ToolResponse([TextContent(render(value)), JsonContent(value)], None)
  }

  /** A content item as `serde` writes it, tagged by `type`. */
  function ToolContentToJson(c: ToolContent): Json {
    match c
    case TextContent(t) => Obj([("type", Str("text")), ("text", Str(t))])
    case JsonContent(v) => Obj([("type", Str("json")), ("json", v)])
  }

  /** A tool response as `serde` writes it (`isError` omitted when absent). */
  function ToolResponseToJson(t: ToolResponse): Json {
    Obj([("content", Arr(seq(|t.content|, i requires 0 <= i < |t.content| => ToolContentToJson(t.content[i]))))]
        + (if t.isError.Some? then [("isError", Bool(t.isError.value))] else []))
  }

  /** A wrapped tool result has no `isError` and two content items, the rendered text
      and then the value itself. */
  lemma WrappedToolResult(value: Json, render: Json -> string)
    ensures var j := ToolResponseToJson(FromValue(value, render));
            Get(j, "isError").None?
            && Get(j, "content") == Some(Arr([Obj([("type", Str("text")), ("text", Str(render(value)))]),
                                             Obj([("type", Str("json")), ("json", value)])]))
  {
    var t := FromValue(value, render);
    var items := seq(|t.content|, i requires 0 <= i < |t.content| => ToolContentToJson(t.content[i]));
    assert items == [ToolContentToJson(t.content[0]), ToolContentToJson(t.content[1])];
    assert ToolResponseToJson(t).fields == [("content", Arr(items))];
  }

  /** The parameters of `tools/call`. */
  datatype CallToolParams = CallToolParams(name: string, arguments: Option<Json>)

  /** What the server does with the decoded parameters of each method: the
      `data_gov`/`ckan` calls and the serialisation of their results, which lie
      outside this model. */
  datatype Handlers = Handlers(
    decode: string -> Json -> Result<Json, string>,
    default: string -> Json,
    run: string -> Json -> Result<Json, ServerError>)

  /** `invoke_method`: route by name, apply that method's parameter rule, run it. */
  function InvokeMethod(methodName: string, params: Option<Json>, h: Handlers): (r: Result<Json, ServerError>)
    ensures ParamsRuleOf(methodName).None? ==> r == Err(InvalidMethod(methodName))
    ensures ParamsRuleOf(methodName) == Some(Ignored) ==> r == Ok(Null)
    ensures ParamsRuleOf(methodName) == Some(Required) && params.None? ==>
              r == Err(InvalidParams(methodName + ": missing parameters"))
    ensures ParamsRuleOf(methodName) == Some(Optional) && params.None? ==> r == h.run(methodName)(h.default(methodName))
  {
    match ParamsRuleOf(methodName)
    case None => Err(InvalidMethod(methodName))
    case Some(Ignored) => Ok(Null)
    case Some(Required) =>
      (match ParseRequired(methodName, params, h.decode(methodName))
       case Err(e) => Err(e)
       case Ok(p) => h.run(methodName)(p))
    case Some(Optional) =>
      (match ParseOptional(methodName, params, h.decode(methodName), h.default(methodName))
       case Err(e) => Err(e)
       case Ok(p) => h.run(methodName)(p))
  }

  /** A method's result delivered as a tool result. */
  function AsTool(r: Result<Json, ServerError>, render: Json -> string): Result<Json, ServerError> {
    match r
    case Ok(v) => Ok(ToolResponseToJson(FromValue(v, render)))
    case Err(e) => Err(e)
  }

  /** `dispatch`: `tools/call` runs the named tool's method on its arguments; a
      tool's methodName called directly also answers as a tool; anything else goes to
      `invoke_method` as is. */
  function Dispatch(methodName: string, params: Option<Json>, h: Handlers,
                    decodeCall: Json -> Result<CallToolParams, string>, render: Json -> string)
    : (r: Result<Json, ServerError>)
    ensures r.Ok? ==> methodName == "tools/call" || methodName in Methods
  {
    HandledIffAdvertised(methodName);
    if methodName == "tools/call" then
      match ParseRequired(methodName, params, decodeCall)
      case Err(e) => Err(e)
      case Ok(call) =>
        match FindToolSpec(call.name)
        case None => Err(InvalidMethod(call.name))
        case Some(spec) => AsTool(InvokeMethod(spec.methodName, call.arguments, h), render)
    else if FindToolSpecByMethod(methodName).Some? then
      AsTool(InvokeMethod(methodName, params, h), render)
    else
      InvokeMethod(methodName, params, h)
  }

  /** `tools/call` needs parameters and a known tool name, and runs that tool's
      method on the call's arguments, answering as a tool. */
  lemma DispatchToolsCall(params: Option<Json>, h: Handlers,
                          decodeCall: Json -> Result<CallToolParams, string>, render: Json -> string)
    ensures params.None? ==>
              Dispatch("tools/call", params, h, decodeCall, render) == Err(InvalidParams("tools/call: missing parameters"))
    ensures params.Some? && decodeCall(params.value).Ok?
            && FindToolSpec(decodeCall(params.value).value.name).None? ==>
              Dispatch("tools/call", params, h, decodeCall, render) == Err(InvalidMethod(decodeCall(params.value).value.name))
    ensures params.Some? && decodeCall(params.value).Ok?
            && FindToolSpec(decodeCall(params.value).value.name).Some? ==>
              var call := decodeCall(params.value).value;
              Dispatch("tools/call", params, h, decodeCall, render)
                == AsTool(InvokeMethod(FindToolSpec(call.name).value.methodName, call.arguments, h), render)
  {
    assert "tools/call" + ": missing parameters" == "tools/call: missing parameters";
  }

  /** Any other method: one neither advertised nor `tools/call` is unknown, the four
      protocol methods answer unwrapped and the eight API methods answer as tools. */
  lemma DispatchDirect(methodName: string, params: Option<Json>, h: Handlers,
                       decodeCall: Json -> Result<CallToolParams, string>, render: Json -> string)
    requires methodName != "tools/call"
    ensures methodName !in Methods ==>
              Dispatch(methodName, params, h, decodeCall, render) == Err(InvalidMethod(methodName))
    ensures methodName in Methods[..4] ==>
              Dispatch(methodName, params, h, decodeCall, render) == InvokeMethod(methodName, params, h)
    ensures methodName in Methods[4..] ==>
              Dispatch(methodName, params, h, decodeCall, render) == AsTool(InvokeMethod(methodName, params, h), render)
  {
    ToolMethodsAreTheApiMethods(methodName);
    HandledIffAdvertised(methodName);
    ProtocolMethodsAreNotTools(methodName);
  }

  lemma ProtocolMethodsAreNotTools(methodName: string)
    ensures methodName in Methods[..4] ==> methodName !in Methods[4..]
  {
    if methodName in Methods[..4] {
      MethodsDistinct();
      forall j | 0 <= j < 8 ensures Methods[4..][j] != methodName {
        assert Methods[4..][j] == Methods[j + 4];
      }
    }
  }

  // ---------------------------------------------------------------------------
  // data_gov.downloadResources: selection
  // ---------------------------------------------------------------------------

  const EmptyResourceIdsMessage := "data_gov.downloadResources: resourceIds cannot be empty"
  const NoMatchPrefix := "data_gov.downloadResources: no matching downloadable resources"

  /** `DownloadResourcesParams`. */
  datatype DownloadParams = DownloadParams(
    datasetId: string,
    resourceIds: Option<seq<string>>,
    formats: Option<seq<string>>,
    outputDir: Option<string>,
    datasetSubdirectory: Option<bool>)

  /** The requested entries, trimmed, in request order. */
  function TrimAll(entries: seq<string>): (ts: seq<string>)
    ensures |ts| == |entries| && forall i :: 0 <= i < |entries| ==> ts[i] == Trim(entries[i])
  {
    seq(|entries|, i requires 0 <= i < |entries| => Trim(entries[i]))
  }

  /** The keys a filter admits: the lower-cased trimmed entries. */
  function FilterKeys(trimmed: seq<string>): set<string> {
    set i | 0 <= i < |trimmed| :: AsciiLower(trimmed[i])
  }

  /** The lower-cased values the resources carry under one attribute. */
  function Offered(rs: seq<Resource>, attr: Resource -> Option<string>): set<string> {
    set i | 0 <= i < |rs| && attr(rs[i]).Some? :: AsciiLower(attr(rs[i]).value)
  }

  /** The `retain` test: the attribute is present and, lower-cased, one of the keys. */
  function AdmitTest(keys: set<string>, attr: Resource -> Option<string>): Resource -> bool {
    r => attr(r).Some? && AsciiLower(attr(r).value) in keys
  }

  /** The test for reporting an entry: no resource offers it. */
  function UnofferedTest(offered: set<string>): string -> bool {
    t => AsciiLower(t) !in offered
  }

  function IdOf(r: Resource): Option<string> {
    r.id
  }

  function FormatOf(r: Resource): Option<string> {
    r.format
  }

  /** One filter of the selection: the resources kept and the entries reported. */
  datatype Step = Step(kept: seq<Resource>, unmatched: seq<string>)

  /** With entries requested, keep the resources whose attribute matches one of them
      and report the trimmed entries no resource offers; with none, keep everything
      and report nothing. */
  function FilterStep(rs: seq<Resource>, requested: Option<seq<string>>,
                      attr: Resource -> Option<string>): (st: Step)
    ensures IsSubsequence(st.kept, rs)
    ensures requested.None? ==> st.unmatched == []
    ensures requested.Some? ==> IsSubsequence(st.unmatched, TrimAll(requested.value))
  {
    match requested
    case None =>
      SubsequenceOfItself(rs);
      Step(rs, [])
    case Some(entries) =>
      var trimmed := TrimAll(entries);
      var admit := AdmitTest(FilterKeys(trimmed), attr);
      var unoffered := UnofferedTest(Offered(rs, attr));
      FilterIsSubsequence(admit, rs);
      FilterIsSubsequence(unoffered, trimmed);
      Step(Filter(admit, rs), Filter(unoffered, trimmed))
  }

  /** What `downloadResources` settles on before downloading. */
  datatype Selection = Selection(resources: seq<Resource>, missingIds: seq<string>,
                                 unavailableFormats: seq<string>)

  /** The id filter, then the format filter over what the id filter kept. */
  function Select(downloadable: seq<Resource>, resourceIds: Option<seq<string>>,
                  formats: Option<seq<string>>): (sel: Selection)
    ensures IsSubsequence(sel.resources, downloadable)
    ensures resourceIds.None? ==> sel.missingIds == []
    ensures formats.None? ==> sel.unavailableFormats == []
  {
    var byId := FilterStep(downloadable, resourceIds, IdOf);
    var byFormat := FilterStep(byId.kept, formats, FormatOf);
    SubsequenceTransitive(byFormat.kept, byId.kept, downloadable);
    Selection(byFormat.kept, byId.unmatched, byFormat.unmatched)
  }

  /** Keep, in order, the elements that pass a test: both the loop that pushes each
      unmatched entry and `Vec::retain` on the resources have this shape. */
  method KeepWhere<T(==,!new)>(xs: seq<T>, keep: T -> bool) returns (ys: seq<T>)
    ensures ys == Filter(keep, xs)
  {
    ys := [];
    for i := 0 to |xs|
      invariant ys == Filter(keep, xs[..i])
    {
      PrefixSnoc(xs, i);
      assert [xs[i]][1..] == [];
      FilterAppend(keep, xs[..i], [xs[i]]);
      if keep(xs[i]) {
        ys := ys + [xs[i]];
      }
    }
    assert xs[..|xs|] == xs;
  }

  /** One filter as the server runs it: trim and lower-case the entries, collect
      what the resources offer, push each entry nothing offers, then retain the
      matching resources. */
  method ApplyFilter(rs: seq<Resource>, requested: Option<seq<string>>, attr: Resource -> Option<string>)
    returns (step: Step)
    ensures step == FilterStep(rs, requested, attr)
  {
    if requested.None? {
      return Step(rs, []);
    }
    var trimmed := TrimAll(requested.value);
    var offered := Offered(rs, attr);
    var unmatched := KeepWhere(trimmed, UnofferedTest(offered));
    var keys := FilterKeys(trimmed);
    var resources := KeepWhere(rs, AdmitTest(keys, attr));
    step := Step(resources, unmatched);
  }

  /** The selection as the server computes it. */
  method SelectResources(downloadable: seq<Resource>, resourceIds: Option<seq<string>>,
                         formats: Option<seq<string>>) returns (sel: Selection)
    ensures sel == Select(downloadable, resourceIds, formats)
  {
    var byId := ApplyFilter(downloadable, resourceIds, IdOf);
    var byFormat := ApplyFilter(byId.kept, formats, FormatOf);
    sel := Selection(byFormat.kept, byId.unmatched, byFormat.unmatched);
  }

  /** A requested entry matches a value when both agree after trimming the entry and
      lower-casing both. */
  predicate Requested(entries: seq<string>, value: string) {
    exists i :: 0 <= i < |entries| && AsciiLower(Trim(entries[i])) == AsciiLower(value)
  }

  /** A resource is selected exactly when it is downloadable, has an id matching a
      requested id (when ids are given) and a format matching a requested format
      (when formats are given); so resources without an id are dropped whenever ids
      are given. */
  lemma SelectionMembership(downloadable: seq<Resource>, resourceIds: Option<seq<string>>,
                            formats: Option<seq<string>>, r: Resource)
    ensures r in Select(downloadable, resourceIds, formats).resources <==>
              r in downloadable
              && (resourceIds.Some? ==> r.id.Some? && Requested(resourceIds.value, r.id.value))
              && (formats.Some? ==> r.format.Some? && Requested(formats.value, r.format.value))
  {
    var byId := FilterStep(downloadable, resourceIds, IdOf).kept;
    StepMembership(downloadable, resourceIds, IdOf, r);
    StepMembership(byId, formats, FormatOf, r);
  }

  /** A filter keeps a resource exactly when its attribute matches a requested
      entry, or when nothing is requested. */
  lemma StepMembership(rs: seq<Resource>, requested: Option<seq<string>>,
                       attr: Resource -> Option<string>, r: Resource)
    ensures r in FilterStep(rs, requested, attr).kept <==>
              r in rs && (requested.Some? ==> attr(r).Some? && Requested(requested.value, attr(r).value))
  {
    if requested.Some? {
      KeysRequested(requested.value, attr(r));
    }
  }

  lemma KeysRequested(entries: seq<string>, value: Option<string>)
    ensures value.Some? && AsciiLower(value.value) in FilterKeys(TrimAll(entries)) <==>
              value.Some? && Requested(entries, value.value)
  {
    if value.Some? && Requested(entries, value.value) {
      var i :| 0 <= i < |entries| && AsciiLower(Trim(entries[i])) == AsciiLower(value.value);
      assert AsciiLower(TrimAll(entries)[i]) in FilterKeys(TrimAll(entries));
    }
  }

  /** The missing ids are, in request order, the trimmed requested ids that no
      downloadable resource's id matches. */
  lemma MissingIds(downloadable: seq<Resource>, resourceIds: Option<seq<string>>,
                   formats: Option<seq<string>>, m: string)
    ensures var missing := Select(downloadable, resourceIds, formats).missingIds;
            (resourceIds.None? ==> missing == [])
            && (resourceIds.Some? ==> IsSubsequence(missing, TrimAll(resourceIds.value)))
            && (m in missing <==>
                  resourceIds.Some? && m in TrimAll(resourceIds.value)
                  && forall k :: 0 <= k < |downloadable| && downloadable[k].id.Some? ==>
                       AsciiLower(downloadable[k].id.value) != AsciiLower(m))
  {
    if resourceIds.Some? {
      var trimmed := TrimAll(resourceIds.value);
      FilterIsSubsequence(UnofferedTest(Offered(downloadable, IdOf)), trimmed);
    }
  }

  /** The unavailable formats are, in request order, the trimmed requested formats
      that no resource left by the id filter offers. */
  lemma UnavailableFormats(downloadable: seq<Resource>, resourceIds: Option<seq<string>>,
                           formats: Option<seq<string>>, m: string)
    ensures var byId := FilterStep(downloadable, resourceIds, IdOf).kept;
            var unavailable := Select(downloadable, resourceIds, formats).unavailableFormats;
            (formats.None? ==> unavailable == [])
            && (formats.Some? ==> IsSubsequence(unavailable, TrimAll(formats.value)))
            && (m in unavailable <==>
                  formats.Some? && m in TrimAll(formats.value)
                  && forall k :: 0 <= k < |byId| && byId[k].format.Some? ==>
                       AsciiLower(byId[k].format.value) != AsciiLower(m))
  {
    if formats.Some? {
      var byId := FilterStep(downloadable, resourceIds, IdOf).kept;
      FilterIsSubsequence(UnofferedTest(Offered(byId, FormatOf)), TrimAll(formats.value));
    }
  }

  /** The `InvalidParams` message for an empty selection: the fixed prefix, alone
      exactly when there is nothing to report. */
  function NoMatchMessage(missingIds: seq<string>, unavailableFormats: seq<string>): (msg: string)
    ensures StartsWith(msg, NoMatchPrefix)
    ensures missingIds == [] && unavailableFormats == [] <==> msg == NoMatchPrefix
  {
    var a := if missingIds == [] then "" else "; missing resourceIds: " + Join(", ", missingIds);
    var b := if unavailableFormats == [] then "" else "; unavailable formats: " + Join(", ", unavailableFormats);
    assert (NoMatchPrefix + a + b)[..|NoMatchPrefix|] == NoMatchPrefix;
    assert |a| == 0 <==> missingIds == [];
    assert |b| == 0 <==> unavailableFormats == [];
    NoMatchPrefix + a + b
  }

  /** The missing ids follow the prefix only when there are some, and the unavailable
      formats end the message only when there are some. */
  lemma NoMatchMessageShape(missingIds: seq<string>, unavailableFormats: seq<string>)
    ensures var msg := NoMatchMessage(missingIds, unavailableFormats);
            (missingIds != [] ==>
                  StartsWith(msg[|NoMatchPrefix|..], "; missing resourceIds: " + Join(", ", missingIds)))
            && (missingIds == [] && unavailableFormats != [] ==>
                  msg[|NoMatchPrefix|..] == "; unavailable formats: " + Join(", ", unavailableFormats))
            && (unavailableFormats != [] ==>
                  EndsWith(msg, "; unavailable formats: " + Join(", ", unavailableFormats)))
  {
    var a := if missingIds == [] then "" else "; missing resourceIds: " + Join(", ", missingIds);
    var b := if unavailableFormats == [] then "" else "; unavailable formats: " + Join(", ", unavailableFormats);
    var msg := NoMatchMessage(missingIds, unavailableFormats);
    assert msg == NoMatchPrefix + a + b;
    assert msg[..|NoMatchPrefix|] == NoMatchPrefix;
    assert msg[|NoMatchPrefix|..] == a + b;
    assert (a + b)[..|a|] == a;
    assert msg[|msg| - |b|..] == b;
  }

  // ---------------------------------------------------------------------------
  // data_gov.downloadResources: summary
  // ---------------------------------------------------------------------------

  /** One entry of `downloads`: the resource and where it went, or why it failed. */
  datatype DownloadEntry = DownloadEntry(
    resourceId: Option<string>,
    name: Option<string>,
    format: Option<string>,
    url: Option<string>,
    outcome: Result<Path, string>)

  function EntryOf(r: Resource, result: Result<Path, DataGovError>): DownloadEntry {
    DownloadEntry(r.id, r.name, r.format, r.url,
                  match result
                  case Ok(p) => Ok(p)
                  case Err(e) => Err(DataGovErrorText(e)))
  }

  predicate Succeeded(e: DownloadEntry) {
    e.outcome.Ok?
  }

  /** The summary loop: one entry per (resource, result) pair, counting successes and
      failures. */
  method Summarize(selected: seq<Resource>, results: seq<Result<Path, DataGovError>>)
    returns (downloads: seq<DownloadEntry>, successCount: nat, errorCount: nat)
    ensures |downloads| == if |selected| <= |results| then |selected| else |results|
    ensures forall i :: 0 <= i < |downloads| ==> downloads[i] == EntryOf(selected[i], results[i])
    ensures successCount == Count(Succeeded, downloads)
    ensures successCount + errorCount == |downloads|
  {
    var n := if |selected| <= |results| then |selected| else |results|;
    downloads, successCount, errorCount := [], 0, 0;
    for i := 0 to n
      invariant |downloads| == i
      invariant forall k :: 0 <= k < i ==> downloads[k] == EntryOf(selected[k], results[k])
      invariant successCount == Count(Succeeded, downloads)
      invariant successCount + errorCount == i
    {
      var entry := EntryOf(selected[i], results[i]);
      CountAppend(Succeeded, downloads, [entry]);
      assert [entry][1..] == [];
      if results[i].Ok? {
        successCount := successCount + 1;
      } else {
        errorCount := errorCount + 1;
      }
      downloads := downloads + [entry];
    }
  }

  /** The summary object `downloadResources` answers with. */
  datatype Summary = Summary(
    datasetId: Option<string>,
    datasetName: string,
    datasetTitle: Option<string>,
    downloadDirectory: Path,
    downloadCount: nat,
    successfulCount: nat,
    failedCount: nat,
    hasErrors: bool,
    downloads: seq<DownloadEntry>,
    missingResourceIds: Option<seq<string>>,
    unavailableFormats: Option<seq<string>>)

  /** The counts agree with the entries. */
  predicate CountsAgree(s: Summary) {
    s.downloadCount == |s.downloads|
    && s.successfulCount == Count(Succeeded, s.downloads)
    && s.successfulCount + s.failedCount == s.downloadCount
    && (s.hasErrors <==> s.failedCount > 0)
  }

  /** An optional list that is present only when non-empty. */
  function NonEmpty(xs: seq<string>): Option<seq<string>> {
    if xs == [] then None else Some(xs)
  }

  /** The directory an explicit `outputDir` names: made absolute against the working
      directory (whose lookup may fail), then joined with the dataset name when a
      dataset subdirectory is asked for. `None` when no directory is given. */
  function ResolveOutputDir(outputDir: Option<string>, subdirectory: Option<bool>,
                            cwd: Result<Path, string>, slug: string): (r: Result<Option<Path>, ServerError>)
    ensures outputDir.None? ==> r == Ok(None)
    ensures outputDir.Some? ==>
              (r.Err? <==> !IsAbsolutePath(outputDir.value) && cwd.Err?)
              && (r.Ok? ==> r.value.Some?)
    ensures outputDir.Some? && IsAbsolutePath(outputDir.value) ==>
              r.Ok? && r.value.value.parts != [] && r.value.value.parts[0] == "/"
    ensures outputDir.Some? && !IsAbsolutePath(outputDir.value) && cwd.Ok? && !IsAbsolutePath(slug) ==>
              r.Ok? && |cwd.value.parts| <= |r.value.value.parts|
              && r.value.value.parts[..|cwd.value.parts|] == cwd.value.parts
    ensures outputDir.Some? && (IsAbsolutePath(outputDir.value) || cwd.Ok?) ==>
              var dir := outputDir.value;
              var base := if IsAbsolutePath(dir) then Components(dir) else JoinPath(cwd.value, dir);
              r == Ok(Some(if subdirectory.UnwrapOr(false) then JoinPath(base, slug) else base))
  {
    match outputDir
    case None => Ok(None)
    case Some(dir) =>
      if !IsAbsolutePath(dir) && cwd.Err? then Err(IoFailure(cwd.error))
      else
        var base := if IsAbsolutePath(dir) then Components(dir) else JoinPath(cwd.value, dir);
        var p := if subdirectory.UnwrapOr(false) then JoinPath(base, slug) else base;
        assert !IsAbsolutePath(dir) && !IsAbsolutePath(slug) ==>
                 p.parts[..|cwd.value.parts|] == base.parts[..|cwd.value.parts|];
        Ok(Some(p))
  }

  /** With `datasetSubdirectory` set, a slug that is one name becomes a directory
      inside the output directory that would be used without it. */
  lemma DatasetSubdirectory(outputDir: Option<string>, cwd: Result<Path, string>, slug: string)
    requires IsSingleName(slug)
    ensures var inside := ResolveOutputDir(outputDir, Some(true), cwd, slug);
            var plain := ResolveOutputDir(outputDir, Some(false), cwd, slug);
            inside.Ok? == plain.Ok?
            && (inside.Ok? && inside.value.Some? ==> Parent(inside.value.value) == plain.value)
            && plain == ResolveOutputDir(outputDir, None, cwd, slug)
  {
  }

  /** The decisions `downloadResources` takes before downloading anything. */
  datatype Plan = Plan(dataset: Package, selection: Selection, outputDir: Option<Path>)

  /** The checks in their order: the dataset lookup, an explicitly empty id list, an
      empty selection, the download directory check (only without an explicit output
      directory), then the output directory's resolution. */
  function PlanDownload(dataset: Result<Package, DataGovError>, params: DownloadParams,
                        validation: Option<DataGovError>, cwd: Result<Path, string>): (r: Result<Plan, ServerError>)
    ensures r.Ok? ==> dataset.Ok? && r.value.selection.resources != []
    ensures r.Ok? && params.outputDir.None? ==> validation.None?
  {
    if dataset.Err? then Err(DataGovFailure(dataset.error))
    else if params.resourceIds == Some([]) then Err(InvalidParams(EmptyResourceIdsMessage))
    else
      var sel := Select(GetDownloadableResources(dataset.value), params.resourceIds, params.formats);
      if sel.resources == [] then Err(InvalidParams(NoMatchMessage(sel.missingIds, sel.unavailableFormats)))
      else if params.outputDir.None? && validation.Some? then Err(DataGovFailure(validation.value))
      else
        match ResolveOutputDir(params.outputDir, params.datasetSubdirectory, cwd, dataset.value.name)
        case Err(e) => Err(e)
        case Ok(dir) => Ok(Plan(dataset.value, sel, dir))
  }

  /** A plan goes ahead only with a non-empty selection drawn, in order, from the
      dataset's downloadable resources, and with an output directory exactly when
      one was asked for; an explicitly empty id list is always rejected, and so is a
      selection that comes out empty. */
  lemma PlanOutcomes(dataset: Result<Package, DataGovError>, params: DownloadParams,
                     validation: Option<DataGovError>, cwd: Result<Path, string>)
    ensures var plan := PlanDownload(dataset, params, validation, cwd);
            (plan.Ok? ==>
               dataset.Ok? && plan.value.dataset == dataset.value
               && plan.value.selection == Select(GetDownloadableResources(dataset.value), params.resourceIds, params.formats)
               && plan.value.selection.resources != []
               && IsSubsequence(plan.value.selection.resources, GetDownloadableResources(dataset.value))
               && (plan.value.outputDir.Some? <==> params.outputDir.Some?))
            && (dataset.Ok? && params.resourceIds == Some([]) ==>
                  plan == Err(InvalidParams(EmptyResourceIdsMessage)))
            && (dataset.Ok? && params.resourceIds != Some([])
                && Select(GetDownloadableResources(dataset.value), params.resourceIds, params.formats).resources == [] ==>
                  plan.Err? && plan.error.InvalidParams? && StartsWith(plan.error.message, NoMatchPrefix))
  {
    if dataset.Ok? {
      var sel := Select(GetDownloadableResources(dataset.value), params.resourceIds, params.formats);
      NoMatchMessageShape(sel.missingIds, sel.unavailableFormats);
    }
  }

  /** The JSON-RPC server over its data.gov client. */
  class Server {
    const dataGov: DataGovClient

    constructor (dataGov: DataGovClient)
      ensures this.dataGov == dataGov
    {
      this.dataGov := dataGov;
    }

    /** Where a plan's downloads go and the dataset name their events carry: an
        explicit directory takes the plain batch download; otherwise the dataset
        download, whose directory depends on the number of resources. */
    function Destination(plan: Plan): (Path, Option<string>) {
      var slug := plan.dataset.name;
      match plan.outputDir
      case Some(dir) => (dir, None)
      case None =>
        (if |plan.selection.resources| > 1 then JoinPath(dataGov.config.baseDownloadDir, slug)
         else dataGov.config.datasetDownloadDir(slug), Some(slug))
    }

    /** What delivering a plan amounts to: one download slot per selected resource,
        in order, into the plan's destination; a summary whose counts agree with its
        entries, with one entry per selected resource describing what became of it;
        and the missing ids and unavailable formats listed only when there are some. */
    predicate DeliveredAs(plan: Plan, summary: Summary, results: seq<Result<Path, DataGovError>>,
                          events: seq<DownloadEvent>, requests: seq<string>,
                          net: string -> HttpScript, fs: Path -> FsScript)
    {
      var sel := plan.selection.resources;
      var (dir, name) := Destination(plan);
      var slots := Slots(sel, dir, name, net, fs);
      results == ResultsOf(slots)
      && events == BatchAnnouncement(|sel|, name) + EventsOf(slots)
      && requests == RequestsOf(slots)
      && CountsAgree(summary)
      && summary.downloadCount == |sel| == |results|
      && (forall i :: 0 <= i < |sel| ==> summary.downloads[i] == EntryOf(sel[i], results[i]))
      && summary.datasetId == plan.dataset.id
      && summary.datasetName == plan.dataset.name
      && summary.datasetTitle == plan.dataset.title
      && summary.downloadDirectory
           == plan.outputDir.UnwrapOr(JoinPath(dataGov.config.baseDownloadDir, plan.dataset.name))
      && summary.missingResourceIds == NonEmpty(plan.selection.missingIds)
      && summary.unavailableFormats == NonEmpty(plan.selection.unavailableFormats)
    }

    /** The downloads of a plan and their summary. */
    method Deliver(plan: Plan, net: string -> HttpScript, fs: Path -> FsScript)
      returns (summary: Summary, results: seq<Result<Path, DataGovError>>,
               events: seq<DownloadEvent>, requests: seq<string>)
      ensures DeliveredAs(plan, summary, results, events, requests, net, fs)
    {
      var d := plan.dataset;
      var sel := plan.selection;
      var target := plan.outputDir.UnwrapOr(JoinPath(dataGov.config.baseDownloadDir, d.name));
      if plan.outputDir.Some? {
        results, events, requests := dataGov.DownloadResources(sel.resources, plan.outputDir, net, fs);
      } else {
        results, events, requests := dataGov.DownloadDatasetResources(sel.resources, d.name, net, fs);
      }
      var downloads, successCount, errorCount := Summarize(sel.resources, results);
      summary := Summary(d.id, d.name, d.title, target, |downloads|, successCount, errorCount, errorCount > 0,
                         downloads, NonEmpty(sel.missingIds), NonEmpty(sel.unavailableFormats));
    }

    /** `data_gov.downloadResources`: fetch the dataset, take the plan's checks in
        order, then deliver. */
    method DownloadResourcesTool(params: DownloadParams, ckanNet: string -> HttpReply,
                                 decodePackage: Json -> Result<Package, string>,
                                 validation: Option<DataGovError>, cwd: Result<Path, string>,
                                 net: string -> HttpScript, fs: Path -> FsScript)
      returns (datasetUrl: string, r: Result<Summary, ServerError>,
               results: seq<Result<Path, DataGovError>>, events: seq<DownloadEvent>, requests: seq<string>)
      ensures datasetUrl == ActionUrl(dataGov.ckan.basePath, "package_show", [QueryParam("id", params.datasetId)])
      ensures var plan := PlanDownload(FromCkan(Classify(ckanNet(datasetUrl), decodePackage)), params, validation, cwd);
              (plan.Err? ==> r == Err(plan.error) && results == [] && events == [] && requests == [])
              && (plan.Ok? ==> r.Ok? && DeliveredAs(plan.value, r.value, results, events, requests, net, fs))
    {
      var dataset;
      datasetUrl, dataset := dataGov.GetDataset(params.datasetId, ckanNet, decodePackage);
      results, events, requests := [], [], [];
      var plan := MakePlan(dataset, params, validation, cwd);
      if plan.Err? {
        r := Err(plan.error);
        return;
      }
      var summary;
      summary, results, events, requests := Deliver(plan.value, net, fs);
      r := Ok(summary);
    }

    /** The checks `downloadResources` makes before it downloads anything, in order:
        the dataset fetched, a non-empty id list when one is given, a non-empty
        selection, a usable default directory when no output directory is given, and
        the output directory resolved. */
    static method MakePlan(dataset: Result<Package, DataGovError>, params: DownloadParams,
                           validation: Option<DataGovError>, cwd: Result<Path, string>)
      returns (plan: Result<Plan, ServerError>)
      ensures plan == PlanDownload(dataset, params, validation, cwd)
    {
      if dataset.Err? {
        return Err(DataGovFailure(dataset.error));
      }
      var d := dataset.value;
      if params.resourceIds.Some? && params.resourceIds.value == [] {
        return Err(InvalidParams(EmptyResourceIdsMessage));
      }
      var sel := SelectResources(GetDownloadableResources(d), params.resourceIds, params.formats);
      if sel.resources == [] {
        return Err(InvalidParams(NoMatchMessage(sel.missingIds, sel.unavailableFormats)));
      }
      if params.outputDir.None? && validation.Some? {
        return Err(DataGovFailure(validation.value));
      }
      var resolved := ResolveOutputDir(params.outputDir, params.datasetSubdirectory, cwd, d.name);
      if resolved.Err? {
        return Err(resolved.error);
      }
      plan := Ok(Plan(d, sel, resolved.value));
    }
  }
}
