/**
  The chatbot that reaches its tools through the stdio MCP client.  When no
  server is given the chatbot runs without a client: it offers no tools and
  answers every tool use with an error value.
*/
module StdioChat {
  import opened Json
  import opened StdioClient
  import opened Conversation

  /** What the chatbot's tool calls go through: the server's output, the
      evaluator of tool texts, and the client's session. */
  datatype Connection = Connection(pipe: Pipe, evalText: Evaluator, session: Session)

  const ClientUnavailable: Value := ErrorObj("FastMCP client not available")

  ghost predicate LinkValid(link: Option<Connection>) {
    link.Some? ==> SessionValid(link.value.pipe, link.value.session)
  }

  /** `_call_mcp_tool`: without a client, the unavailability error; with one, the
      client's result, an exception it raises becoming an error value.  The
      link is never dropped, and a valid session stays valid. */
  function McpCall(link: Option<Connection>, name: string, arguments: Value): (r: (Option<Connection>, Value))
    ensures link.None? ==> r == (None, ClientUnavailable)
    ensures link.Some? ==> r.0.Some? && r.0.value.pipe == link.value.pipe && r.0.value.evalText == link.value.evalText
    ensures link.Some? ==> r.0.value.session.requestId == link.value.session.requestId + 1
    ensures link.Some? && link.value.session.closed ==> r.1 == ErrorObj(ClosedFileMessage)
    ensures link.Some? ==>
              var (after, out) := CallToolStep(link.value.pipe, link.value.evalText, link.value.session, name, arguments);
              && r.0.value.session == after
              && r.1 == match out case Ok(v) => v case Raised(m) => ErrorObj(m)
  {
    match link
    case None => (None, ClientUnavailable)
    case Some(c) =>
      var (after, out) := CallToolStep(c.pipe, c.evalText, c.session, name, arguments);
      (Some(c.(session := after)), match out case Ok(v) => v case Raised(m) => ErrorObj(m))
  }

  /** `_load_tools` over the client: none without a client, and none when listing raises. */
  function LoadToolsFrom(link: Option<Connection>): (r: (Option<Connection>, seq<Value>))
    ensures link.None? ==> r == (None, [])
    ensures link.Some? ==> r.0.Some? && r.0.value.pipe == link.value.pipe && r.0.value.evalText == link.value.evalText
    ensures link.Some? ==> r.0.value.session == ListToolsStep(link.value.pipe, link.value.session).0
    ensures link.Some? && ListToolsStep(link.value.pipe, link.value.session).1.Ok?
            ==> r.1 == ListToolsStep(link.value.pipe, link.value.session).1.value
    ensures link.Some? && ListToolsStep(link.value.pipe, link.value.session).1.Raised? ==> r.1 == []
  {
    match link
    case None => (None, [])
    case Some(c) =>
      var (after, out) := ListToolsStep(c.pipe, c.session);
      (Some(c.(session := after)), match out case Ok(tools) => tools case Raised(_) => [])
  }

  /** On an open, valid client the k-th tool call (k counted from 2, after the
      handshake) is answered by what `call_tool` extracts from output line
      k - 1, or from the no-response error once the output is exhausted. */
  lemma McpCallAnswersFromLine(link: Option<Connection>, name: string, arguments: Value)
    requires LinkValid(link) && link.Some? && !link.value.session.closed
    ensures var c := link.value;
            var k := c.session.requestId + 1;
            var response := if k - 1 < |c.pipe.lines|
                            then (match c.pipe.decode(c.pipe.lines[k - 1]) case Parsed(v) => v case NotJson(e) => ErrorObj(e))
                            else ErrorObj("No response from server");
            McpCall(link, name, arguments).1
            == match CallToolResult(response, c.evalText) case Ok(v) => v case Raised(m) => ErrorObj(m)
  {
    CallToolReadsMatchingLine(link.value.pipe, link.value.evalText, link.value.session, name, arguments);
  }

  lemma McpCallKeepsLinkValid(link: Option<Connection>, name: string, arguments: Value)
    requires LinkValid(link)
    ensures LinkValid(McpCall(link, name, arguments).0)
  {
  }

  /** However many tool uses a reply holds, the session stays valid through them. */
  lemma {:induction false} DispatchKeepsLinkValid(link: Option<Connection>, blocks: seq<Block>)
    requires LinkValid(link)
    ensures LinkValid(Dispatch(link, McpCall, blocks).0)
    decreases |blocks|
  {
    if blocks != [] {
      var prefix := blocks[..|blocks| - 1];
      DispatchKeepsLinkValid(link, prefix);
      var before := Dispatch(link, McpCall, prefix).0;
      match blocks[|blocks| - 1]
      case ToolUse(_, name, input) => McpCallKeepsLinkValid(before, name, input);
      case _ =>
    }
  }

  /** Without a client every tool use is answered, in order and by id, with the
      unavailability error. */
  lemma {:induction false} NoClientAnswersUnavailable(blocks: seq<Block>)
    ensures Dispatch(None, McpCall, blocks).0 == None
    ensures var results := Dispatch(None, McpCall, blocks).1;
            forall k | 0 <= k < |results| :: results[k].content == ClientUnavailable
    decreases |blocks|
  {
    if blocks != [] {
      NoClientAnswersUnavailable(blocks[..|blocks| - 1]);
    }
  }

  /** A whole exchange keeps the session valid. */
  lemma ExchangeKeepsLinkValid(history: seq<Turn>, tools: seq<Value>, maxTokens: int, message: string,
                               gateway: Gateway, link: Option<Connection>)
    requires LinkValid(link)
    ensures LinkValid(ToolExchange(history, Arr(tools), maxTokens, message, gateway, link, McpCall).state)
  {
    if !IsBlank(message) {
      var asked := history + [Turn(User, Text(message))];
      var first := gateway(ModelRequest(AnthropicVersion, maxTokens, asked,
                                        if Truthy(Arr(tools)) then Some(Arr(tools)) else None));
      if first.Replied? && first.body.stopReason == Some("tool_use") {
        DispatchKeepsLinkValid(link, first.body.content);
      }
    }
  }

  /** The first request offers tools exactly when the server listed at least one. */
  lemma ToolsOfferedIffListed(history: seq<Turn>, tools: seq<Value>, maxTokens: int, message: string,
                              gateway: Gateway, link: Option<Connection>)
    requires !IsBlank(message)
    ensures var r := ToolExchange(history, Arr(tools), maxTokens, message, gateway, link, McpCall);
            r.requests[0].tools.Some? <==> tools != []
  {
  }

  class ChatbotWithFastMCP {
    var history: seq<Turn>
    /** Every request made to the model, in order. */
    ghost var requests: seq<ModelRequest>
    const tools: seq<Value>
    const mcpClient: FastMCPClient?
    const maxTokens: int
    const gateway: Gateway

    function Link(): Option<Connection>
      reads this, mcpClient
    {
      if mcpClient == null then None else Some(Connection(mcpClient.pipe, mcpClient.evalText, mcpClient.State()))
    }

    ghost predicate Valid()
      reads this, mcpClient
    {
      mcpClient != null ==> mcpClient.Valid()
    }

    /** Construction starts the client when a server is given and loads its
        tool list; without a server there is no client and no tool. */
    constructor (maxTokens: int, gateway: Gateway, server: Option<Pipe>, evalText: Evaluator)
      ensures Valid()
      ensures this.maxTokens == maxTokens && this.gateway == gateway
      ensures history == [] && requests == []
      ensures server.None? ==> mcpClient == null && tools == []
      ensures server.Some? ==> mcpClient != null && fresh(mcpClient)
      ensures server.Some? ==>
                (Link(), tools) == LoadToolsFrom(Some(Connection(server.value, evalText, InitialSession(server.value))))
    {
      this.maxTokens := maxTokens;
      this.gateway := gateway;
      history := [];
      requests := [];
      if server.Some? {
        var client := new FastMCPClient(server.value, evalText);
        var listed := client.ListTools();
        mcpClient := client;
        tools := match listed case Ok(ts) => ts case Raised(_) => [];
      } else {
        mcpClient := null;
        tools := [];
      }
    }

    method CallMcpTool(name: string, arguments: Value) returns (result: Value)
      requires Valid()
      modifies mcpClient
      ensures Valid()
      ensures (Link(), result) == McpCall(old(Link()), name, arguments)
    {
      if mcpClient == null {
        return ClientUnavailable;
      }
      var out := mcpClient.CallTool(name, arguments);
      result := match out case Ok(v) => v case Raised(m) => ErrorObj(m);
    }

    method SendMessage(message: string) returns (reply: string)
      requires Valid()
      modifies this, mcpClient
      ensures Valid()
      ensures var r := ToolExchange(old(history), Arr(tools), maxTokens, message, gateway, old(Link()), McpCall);
              && history == r.history && reply == r.reply && requests == old(requests) + r.requests
              && Link() == r.state
    {
      if IsBlank(message) {
        return EmptyMessageReply;
      }
      history := history + [Turn(User, Text(message))];
      var request := ModelRequest(AnthropicVersion, maxTokens, history,
                                  if Truthy(Arr(tools)) then Some(Arr(tools)) else None);
      requests := requests + [request];
      match gateway(request) {
        case Failed(_, m) =>
          reply := "Error: " + m;
        case Replied(body) =>
          if body.stopReason == Some("tool_use") {
            reply := HandleToolUse(body.content);
          } else {
            match FirstText(body.content) {
              case Raised(m) =>
                reply := "Error: " + m;
              case Ok(t) =>
                history := history + [Turn(Assistant, Text(t))];
                reply := t;
            }
          }
      }
    }

    /** `_handle_tool_use`: keep the assistant's blocks, answer each tool use
        through the client, keep the answers, and ask the model once more. */
    method HandleToolUse(blocks: seq<Block>) returns (reply: string)
      requires Valid()
      modifies this, mcpClient
      ensures Valid()
      ensures var r := ToolRound(old(history), Arr(tools), maxTokens, blocks, gateway, old(Link()), McpCall);
              && history == r.history && reply == r.reply && requests == old(requests) + r.requests
              && Link() == r.state
    {
      history := history + [Turn(Assistant, Blocks(blocks))];
      var results: seq<Block> := [];
      var i := 0;
      while i < |blocks|
        invariant 0 <= i <= |blocks|
        invariant Valid()
        invariant history == old(history) + [Turn(Assistant, Blocks(blocks))] && requests == old(requests)
        invariant (Link(), results) == Dispatch(old(Link()), McpCall, blocks[..i])
      {
        assert blocks[..i + 1][..i] == blocks[..i];
        match blocks[i] {
          case ToolUse(id, name, input) =>
            var result := CallMcpTool(name, input);
            results := results + [ToolResult(id, result)];
          case _ =>
        }
        i := i + 1;
      }
      assert blocks[..i] == blocks;
      history := history + [Turn(User, Blocks(results))];
      var request := ModelRequest(AnthropicVersion, maxTokens, history, Some(Arr(tools)));
      requests := requests + [request];
      match gateway(request) {
        case Failed(_, m) =>
          reply := "Error processing tool results: " + m;
        case Replied(body) =>
          match FirstText(body.content) {
            case Raised(m) =>
              reply := "Error processing tool results: " + m;
            case Ok(t) =>
              history := history + [Turn(Assistant, Text(t))];
              reply := t;
          }
      }
    }

    method ResetConversation()
      modifies this
      ensures history == [] && requests == old(requests)
    {
      history := [];
    }

    /** `close`: the client's input side is closed; without a client nothing happens. */
    method Close()
      requires Valid()
      modifies mcpClient
      ensures Valid()
      ensures mcpClient != null ==> mcpClient.State() == old(mcpClient.State()).(closed := true)
    {
      if mcpClient != null {
        mcpClient.Close();
      }
    }
  }
}
