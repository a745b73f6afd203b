/**
  The HTTP tool server: `GET /tools` answers a fixed list of tool names and
  `POST /call` dispatches on the tool name, calling the tool bodies directly
  with their parameters' defaults filled in.  It is a second front end to the
  same three tool bodies the registry holds, and the two disagree in places;
  the lemmas at the end of this module state where.
*/
module HttpServer {
  import opened Json
  import opened Registry

  /** One HTTP exchange as a client sees it: a status and a body that may or
      may not decode as JSON, or a failure to reach the server at all. */
  datatype HttpReply = HttpResponse(status: nat, body: Decoded) | ConnectionError(message: string)

  /** The validated body of `POST /call`. */
  datatype ToolRequest = ToolRequest(tool: string, params: map<string, Value>)

  /** Request validation: `tool` must be a string and `params`, when present, a
      dictionary; a body without `params` gets the empty dictionary. */
  function ParseToolRequest(body: Value): (r: Option<ToolRequest>)
    ensures r.Some? <==> body.Obj? && "tool" in body.fields && body.fields["tool"].Str?
                         && ("params" in body.fields ==> body.fields["params"].Obj?)
    ensures r.Some? ==> r.value.tool == body.fields["tool"].s
    ensures r.Some? && "params" !in body.fields ==> r.value.params == map[]
    ensures r.Some? && "params" in body.fields ==> r.value.params == body.fields["params"].fields
  {
    if body.Obj? && "tool" in body.fields && body.fields["tool"].Str? then
      if "params" !in body.fields then Some(ToolRequest(body.fields["tool"].s, map[]))
      else if body.fields["params"].Obj? then Some(ToolRequest(body.fields["tool"].s, body.fields["params"].fields))
      else None
    else None
  }

  /** `GET /tools`: a dictionary whose only entry lists the bare tool names,
      those of the registry's three built-in tools in registration order. */
  function ListTools(): (r: Value)
    ensures r.Obj? && r.fields.Keys == {"tools"}
    ensures var names := r.fields["tools"];
            && names.Arr? && |names.items| == |BuiltinNames|
            && forall i | 0 <= i < |BuiltinNames| :: names.items[i] == Str(BuiltinNames[i])
  {
    Obj(map["tools" := Arr([Str("get_current_time"), Str("calculate"), Str("list_files")])])
  }

  /** `params.get(key, default)` on the request's parameters. */
  function ParamOr(params: map<string, Value>, key: string, default: Value): Value {
    if key in params then params[key] else default
  }

  /** `POST /call` after validation: dispatch on the name; `calculate` gets
      `expression` or "", `list_files` gets `directory` or ".", and the time
      tool takes no parameters at all. */
  function CallTool(request: ToolRequest, bodies: ToolBodies): (r: Value)
    ensures request.tool == "get_current_time" ==> r == bodies.currentTime()
    ensures request.tool == "calculate" ==>
              r == bodies.calculate(if "expression" in request.params then request.params["expression"] else Str(""))
    ensures request.tool == "list_files" ==>
              r == bodies.listFiles(if "directory" in request.params then request.params["directory"] else Str("."))
    ensures request.tool !in BuiltinNames ==> r == ErrorObj("Unknown tool")
  {
    if request.tool == "get_current_time" then bodies.currentTime()
    else if request.tool == "calculate" then bodies.calculate(ParamOr(request.params, "expression", Str("")))
    else if request.tool == "list_files" then bodies.listFiles(ParamOr(request.params, "directory", Str(".")))
    else ErrorObj("Unknown tool")
  }

  /** A body that fails validation is answered with status 422 and the web
      framework's validation report, whose entries are not modelled. */
  const ValidationReport: Value := Obj(map["detail" := Arr([])])

  /** The whole `POST /call` endpoint as a client sees it. */
  function PostCall(body: Value, bodies: ToolBodies): (r: HttpReply)
    ensures r.HttpResponse? && r.body.Parsed?
    ensures r.status == 200 <==> ParseToolRequest(body).Some?
    ensures r.status == 200 ==> r.body.value == CallTool(ParseToolRequest(body).value, bodies)
    ensures r.status != 200 ==> r.status == 422
  {
    match ParseToolRequest(body)
    case Some(request) => HttpResponse(200, Parsed(CallTool(request, bodies)))
    case None => HttpResponse(422, Parsed(ValidationReport))
  }

  /** The whole `GET /tools` endpoint as a client sees it: always status 200,
      and a JSON body that is the name dictionary, not a list. */
  function GetTools(): (r: HttpReply)
    ensures r.HttpResponse? && r.status == 200 && r.body == Parsed(ListTools())
    ensures !r.body.value.Arr?
  {
    HttpResponse(200, Parsed(ListTools()))
  }

  /** The descriptor list a tool catalog travels as: what `GET /tools` is evidently
      meant to answer (the registry's `get_tools_list`), see the findings. */
  function CatalogPayload(catalog: seq<Descriptor>): (r: Value)
    ensures r.Arr? && |r.items| == |catalog|
    ensures forall i :: 0 <= i < |catalog| ==> r.items[i] == DescriptorValue(catalog[i])
  {
    Arr(seq(|catalog|, i requires 0 <= i < |catalog| => DescriptorValue(catalog[i])))
  }

  // ---- The server against the registry ----

  /** The names `GET /tools` answers are exactly the registry's built-in names, in its order. */
  lemma ListedNamesFollowRegistry()
    ensures ListTools().Obj? && "tools" in ListTools().fields
    ensures var names := ListTools().fields["tools"];
            names.Arr? && |names.items| == |BuiltinCatalog|
            && forall i :: 0 <= i < |BuiltinCatalog| ==> names.items[i] == Str(BuiltinCatalog[i].name)
  {
  }

  /** Whenever the parameters bind to the tool's Python signature, the server
      and the loaded registry produce the same result from the same bodies. */
  lemma ServerAgreesWithRegistry(registry: ToolRegistry, bodies: ToolBodies, bindError: BindErrorText,
                                 name: string, params: map<string, Value>)
    requires registry.entries == BuiltinEntries(bodies, bindError)
    requires name == "get_current_time" ==> params == map[]
    requires name == "calculate" ==> params.Keys == {"expression"}
    requires name == "list_files" ==> params.Keys <= {"directory"}
    requires name in BuiltinNames
    ensures registry.CallTool(name, params) == Returned(CallTool(ToolRequest(name, params), bodies))
  {
  }

  /** For a name neither knows, the two report different texts: the server's
      error does not name the tool, the registry's does. */
  lemma UnknownToolMessagesDiffer(registry: ToolRegistry, bodies: ToolBodies, bindError: BindErrorText,
                                  name: string, params: map<string, Value>)
    requires registry.entries == BuiltinEntries(bodies, bindError)
    requires name !in BuiltinNames
    ensures CallTool(ToolRequest(name, params), bodies) == ErrorObj("Unknown tool")
    ensures registry.CallTool(name, params) == Returned(ErrorObj("Unknown tool: " + name))
    ensures ErrorObj("Unknown tool") != ErrorObj("Unknown tool: " + name)
  {
    assert name !in registry.entries;
    assert |"Unknown tool"| < |"Unknown tool: " + name|;
    assert ErrorObj("Unknown tool").fields["error"] != ErrorObj("Unknown tool: " + name).fields["error"];
  }

  /** Where the registry rejects a call for a missing argument, the server fills
      in a default instead: `calculate` without `expression` evaluates "". */
  lemma MissingExpressionDefaultsOnServerOnly(registry: ToolRegistry, bodies: ToolBodies,
                                              bindError: BindErrorText, params: map<string, Value>)
    requires registry.entries == BuiltinEntries(bodies, bindError)
    requires "expression" !in params
    ensures CallTool(ToolRequest("calculate", params), bodies) == bodies.calculate(Str(""))
    ensures registry.CallTool("calculate", params)
            == Returned(ErrorObj("Invalid parameters: " + bindError("calculate", params)))
  {
  }

  /** The server ignores any parameters of the time tool; the registry rejects them. */
  lemma TimeParamsIgnoredOnServerOnly(registry: ToolRegistry, bodies: ToolBodies,
                                      bindError: BindErrorText, params: map<string, Value>)
    requires registry.entries == BuiltinEntries(bodies, bindError)
    requires params != map[]
    ensures CallTool(ToolRequest("get_current_time", params), bodies) == bodies.currentTime()
    ensures registry.CallTool("get_current_time", params)
            == Returned(ErrorObj("Invalid parameters: " + bindError("get_current_time", params)))
  {
  }
}
