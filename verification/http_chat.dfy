/**
  The chatbot that reaches its tools over HTTP: the tool catalog is fetched
  once at construction with `GET /tools`, and every tool call is a
  `POST /call`.  The HTTP client is an oracle from request body to reply; the
  transport keeps no state, so the exchange runs over the unit state.
*/
module HttpChat {
  import opened Json
  import opened Registry
  import opened HttpServer
  import opened Conversation

  /** `requests.post(url + "/call", json=body)` as seen by the chatbot. */
  type Poster = Value -> HttpReply

  /** `_load_tools`: the decoded body of a 200 answer, provided `len` is
      defined on it; anything else (another status, a body that is not JSON,
      a connection failure, a scalar body) gives the empty list. */
  function LoadedTools(reply: HttpReply): (r: Value)
    ensures r != Arr([]) ==> reply.HttpResponse? && reply.status == 200 && reply.body.Parsed? && r == reply.body.value
    ensures reply.HttpResponse? && reply.status == 200 && reply.body.Parsed? && Len(reply.body.value).Ok?
            ==> r == reply.body.value
    ensures !(reply.HttpResponse? && reply.status == 200 && reply.body.Parsed? && Len(reply.body.value).Ok?)
            ==> r == Arr([])
    ensures Truthy(r) ==> r.Arr? || r.Str? || r.Obj?
  {
    match reply
    case HttpResponse(status, body) =>
      if status == 200 then
        match body
        case Parsed(v) => if Len(v).Ok? then v else Arr([])
        case NotJson(_) => Arr([])
      else Arr([])
    case ConnectionError(_) => Arr([])
  }

  /** `_call_mcp_tool`: the decoded body of a 200 answer, otherwise an error
      value naming the status, the decode failure or the connection failure. */
  function CallMcpTool(name: string, params: Value, post: Poster): (r: Value)
    ensures var reply := post(Obj(map["tool" := Str(name), "params" := params]));
            && (reply.HttpResponse? && reply.status == 200 && reply.body.Parsed? ==> r == reply.body.value)
            && (reply.HttpResponse? && reply.status != 200 ==>
                  r == ErrorObj("MCP server returned status " + NatToString(reply.status)))
            && (reply.HttpResponse? && reply.status == 200 && reply.body.NotJson? ==> r == ErrorObj(reply.body.message))
            && (reply.ConnectionError? ==> r == ErrorObj(reply.message))
  {
    match post(Obj(map["tool" := Str(name), "params" := params]))
    case HttpResponse(status, body) =>
      if status == 200 then
        match body
        case Parsed(v) => v
        case NotJson(m) => ErrorObj(m)
      else ErrorObj("MCP server returned status " + NatToString(status))
    case ConnectionError(m) => ErrorObj(m)
  }

  /** Tool calls over HTTP as a caller for the shared exchange. */
  function HttpCaller(post: Poster): ((), string, Value) -> ((), Value) {
    (u: (), name: string, input: Value) => (u, CallMcpTool(name, input, post))
  }

  // ---- The chatbot against the HTTP server ----

  /** The status of a failed validation, as the chatbot renders it. */
  lemma ValidationStatusText()
    ensures NatToString(422) == "422"
  {
    assert DigitChar(4) == '4' && DigitChar(2) == '2';
    assert NatToString(42) == "42";
  }

  /** Against the HTTP server, a tool call returns exactly what the server's
      dispatch computes when the model's input is an object, and the
      validation failure's status otherwise. */
  lemma CallReachesServerDispatch(name: string, input: Value, bodies: ToolBodies, post: Poster)
    requires forall body :: post(body) == PostCall(body, bodies)
    ensures input.Obj? ==> CallMcpTool(name, input, post) == HttpServer.CallTool(ToolRequest(name, input.fields), bodies)
    ensures !input.Obj? ==> CallMcpTool(name, input, post) == ErrorObj("MCP server returned status 422")
  {
    var body := Obj(map["tool" := Str(name), "params" := input]);
    assert post(body) == PostCall(body, bodies);
    if !input.Obj? {
      assert ParseToolRequest(body).None?;
      assert post(body) == HttpResponse(422, Parsed(ValidationReport));
      ValidationStatusText();
      assert "MCP server returned status " + "422" == "MCP server returned status 422";
      assert CallMcpTool(name, input, post) == ErrorObj("MCP server returned status " + NatToString(422));
    }
  }

  /** Over HTTP every tool use of a reply is answered, in order and by id, with
      what `_call_mcp_tool` makes of the server's answer to that use alone. */
  lemma HttpResultsAreCallAnswers(post: Poster, blocks: seq<Block>)
    ensures var uses := ToolUses(blocks);
            var results := Dispatch((), HttpCaller(post), blocks).1;
            && |results| == |uses|
            && forall k | 0 <= k < |uses| ::
                 results[k] == ToolResult(uses[k].id, CallMcpTool(uses[k].name, uses[k].input, post))
  {
    DispatchAnswersEachUse((), HttpCaller(post), blocks);
  }

  /** As written, the catalog the chatbot loads from the server is the
      dictionary of bare names, which is truthy and so goes to the model as its
      `tools`: the first request of every exchange carries it. */
  lemma LoadedCatalogIsNameDictionary(history: seq<Turn>, maxTokens: int, message: string, gateway: Gateway,
                                      post: Poster)
    requires !IsBlank(message)
    ensures LoadedTools(GetTools()) == ListTools()
    ensures !LoadedTools(GetTools()).Arr? && Truthy(LoadedTools(GetTools()))
    ensures ToolExchange(history, LoadedTools(GetTools()), maxTokens, message, gateway, (), HttpCaller(post))
              .requests[0].tools == Some(ListTools())
  {
  }

  /** The descriptor list the server evidently means to answer `GET /tools` with:
      the registry's listing, in the model's tool format. */
  function CorrectedGetTools(registry: ToolRegistry): (r: HttpReply)
    reads registry
    requires registry.Valid()
    ensures r.HttpResponse? && r.status == 200 && r.body.Parsed? && r.body.value.Arr?
    ensures |r.body.value.items| == |registry.order|
    ensures forall i | 0 <= i < |registry.order| ::
              r.body.value.items[i] == DescriptorValue(registry.GetToolsList()[i])
              && r.body.value.items[i] == DescriptorValue(Describe(registry.entries[registry.order[i]]))
  {
    HttpResponse(200, Parsed(CatalogPayload(registry.GetToolsList())))
  }

  /** With the corrected endpoint, a loaded registry's three descriptors reach
      the model as a list of `{name, description, input_schema}` objects. */
  lemma CorrectedCatalogReachesModel(registry: ToolRegistry, bodies: ToolBodies, bindError: BindErrorText,
                                     history: seq<Turn>, maxTokens: int, message: string, gateway: Gateway,
                                     post: Poster)
    requires registry.Valid() && registry.order == BuiltinNames
    requires registry.entries == BuiltinEntries(bodies, bindError)
    requires !IsBlank(message)
    ensures var tools := LoadedTools(CorrectedGetTools(registry));
            && tools == CatalogPayload(BuiltinCatalog)
            && |tools.items| == 3
            && (forall i | 0 <= i < 3 :: tools.items[i] == DescriptorValue(BuiltinCatalog[i]))
            && ToolExchange(history, tools, maxTokens, message, gateway, (), HttpCaller(post)).requests[0].tools
               == Some(tools)
  {
  }

  // ---- The chatbot ----

  class ChatbotWithTools {
    var history: seq<Turn>
    /** Every request made to the model, in order. */
    ghost var requests: seq<ModelRequest>
    const tools: Value
    const maxTokens: int
    const gateway: Gateway
    const post: Poster

    /** Construction loads the catalog from the answer to `GET /tools`. */
    constructor (maxTokens: int, gateway: Gateway, catalogReply: HttpReply, post: Poster)
      ensures this.maxTokens == maxTokens && this.gateway == gateway && this.post == post
      ensures tools == LoadedTools(catalogReply)
      ensures history == [] && requests == []
    {
      this.maxTokens := maxTokens;
      this.gateway := gateway;
      this.post := post;
      tools := LoadedTools(catalogReply);
      history := [];
      requests := [];
    }

    method SendMessage(message: string) returns (reply: string)
      modifies this
      ensures var r := ToolExchange(old(history), tools, maxTokens, message, gateway, (), HttpCaller(post));
              history == r.history && reply == r.reply && requests == old(requests) + r.requests
    {
      if IsBlank(message) {
        return EmptyMessageReply;
      }
      history := history + [Turn(User, Text(message))];
      var request := ModelRequest(AnthropicVersion, maxTokens, history, if Truthy(tools) then Some(tools) else None);
      requests := requests + [request];
      match gateway(request) {
        case Failed(_, m) =>
          reply := "Error: " + m;
        case Replied(body) =>
          if body.stopReason == Some("tool_use") {
            reply := HandleToolUse(body.content);
          } else {
            match FirstText(body.content) {
              case Raised(m) =>
                reply := "Error: " + m;
              case Ok(t) =>
                history := history + [Turn(Assistant, Text(t))];
                reply := t;
            }
          }
      }
    }

    /** `_handle_tool_use`: keep the assistant's blocks, answer each tool use,
      keep the answers, and ask the model once more. */
    method HandleToolUse(blocks: seq<Block>) returns (reply: string)
      modifies this
      ensures var r := ToolRound(old(history), tools, maxTokens, blocks, gateway, (), HttpCaller(post));
              history == r.history && reply == r.reply && requests == old(requests) + r.requests
    {
      history := history + [Turn(Assistant, Blocks(blocks))];
      var results: seq<Block> := [];
      var i := 0;
      while i < |blocks|
        invariant 0 <= i <= |blocks|
        invariant results == Dispatch((), HttpCaller(post), blocks[..i]).1
      {
        assert blocks[..i + 1][..i] == blocks[..i];
        match blocks[i] {
          case ToolUse(id, name, input) =>
            results := results + [ToolResult(id, CallMcpTool(name, input, post))];
          case _ =>
        }
        i := i + 1;
      }
      assert blocks[..i] == blocks;
      history := history + [Turn(User, Blocks(results))];
      var request := ModelRequest(AnthropicVersion, maxTokens, history, Some(tools));
      requests := requests + [request];
      match gateway(request) {
        case Failed(_, m) =>
          reply := "Error processing tool results: " + m;
        case Replied(body) =>
          match FirstText(body.content) {
            case Raised(m) =>
              reply := "Error processing tool results: " + m;
            case Ok(t) =>
              history := history + [Turn(Assistant, Text(t))];
              reply := t;
          }
      }
    }

    method ResetConversation()
      modifies this
      ensures history == [] && requests == old(requests)
    {
      history := [];
    }
  }
}
