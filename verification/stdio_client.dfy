/**
  The stdio MCP client: it speaks JSON-RPC 2.0 to a tool server running as a
  child process, one JSON text per line.  The child's output is a fixed
  sequence of lines (each line is read at most once, in order) and a decoder
  for them; what the client wrote is kept as a log of messages.  Process
  start-up and shutdown are reduced to a `closed` flag on the write side.
*/
module StdioClient {
  import opened Json

  /** A JSON-RPC message the client writes: a request carries an id and
      parameters, a notification neither. */
  datatype Message =
    | Request(id: nat, rpcMethod: string, params: Value)
    | Notification(rpcMethod: string)

  /** The JSON object a message is written as. */
  function Encode(m: Message): (r: Value)
    ensures r.Obj? && "jsonrpc" in r.fields && r.fields["jsonrpc"] == Str("2.0")
    ensures "id" in r.fields <==> m.Request?
  {
    match m
    case Request(id, rpcMethod, params) =>
      Obj(map["jsonrpc" := Str("2.0"), "id" := Num(id), "method" := Str(rpcMethod), "params" := params])
    case Notification(rpcMethod) =>
      Obj(map["jsonrpc" := Str("2.0"), "method" := Str(rpcMethod)])
  }

  /** How a JSON-RPC peer reads a message of the two shapes above: an object
      with an id is a request, one without is a notification. */
  function Decode(v: Value): Option<Message> {
    if v.Obj? && "jsonrpc" in v.fields && v.fields["jsonrpc"] == Str("2.0")
       && "method" in v.fields && v.fields["method"].Str?
    then
      var rpcMethod := v.fields["method"].s;
      if "id" in v.fields then
        if v.fields["id"].Num? && v.fields["id"].n >= 0 && "params" in v.fields
        then Some(Request(v.fields["id"].n, rpcMethod, v.fields["params"]))
        else None
      else if "params" in v.fields then None
      else Some(Notification(rpcMethod))
    else None
  }

  lemma EncodeDecodeRoundTrip(m: Message)
    ensures Decode(Encode(m)) == Some(m)
  {
  }

  const ProtocolVersion := "2024-11-05"

  /** The parameters of the `initialize` handshake request. */
  const InitializeParams: Value :=
    Obj(map[
      "protocolVersion" := Str(ProtocolVersion),
      "capabilities" := Obj(map[]),
      "clientInfo" := Obj(map["name" := Str("chatbot-client"), "version" := Str("1.0")])])

  const InitializedNotification: Message := Notification("notifications/initialized")

  const ClosedFileMessage := "I/O operation on closed file."

  /** The child process's standard output and the JSON decoder applied to each line. */
  datatype Pipe = Pipe(lines: seq<string>, decode: string -> Decoded)

  /** The client's state: the last id handed out, what has been written, how
      many output lines have been read, and whether its input side is closed. */
  datatype Session = Session(requestId: nat, sent: seq<Message>, pos: nat, closed: bool)

  /** `_send_request`'s reading half: one line, or the end of output; a line that
      does not decode becomes an error value. */
  function Receive(pipe: Pipe, s: Session): (r: (Session, Value))
    ensures r.0 == s.(pos := r.0.pos)
    ensures s.pos < |pipe.lines| ==> r.0.pos == s.pos + 1
    ensures s.pos >= |pipe.lines| ==> r == (s, ErrorObj("No response from server"))
    ensures s.pos < |pipe.lines| ==>
              r.1 == match pipe.decode(pipe.lines[s.pos]) case Parsed(v) => v case NotJson(e) => ErrorObj(e)
  {
    if s.pos < |pipe.lines| then
      var response := match pipe.decode(pipe.lines[s.pos])
        case Parsed(v) => v
        case NotJson(e) => ErrorObj(e);
      (s.(pos := s.pos + 1), response)
    else (s, ErrorObj("No response from server"))
  }

  /** `_send_request`: write one line, then read one; writing to a closed input raises. */
  function SendStep(pipe: Pipe, s: Session, m: Message): (r: (Session, Outcome<Value>))
    ensures s.closed ==> r == (s, Raised(ClosedFileMessage))
    ensures !s.closed ==> r.1.Ok? && r.0.sent == s.sent + [m] && r.0.requestId == s.requestId && !r.0.closed
    ensures !s.closed ==> var (after, response) := Receive(pipe, s.(sent := s.sent + [m]));
                          r == (after, Ok(response))
    ensures !s.closed ==> r.0.pos == if s.pos < |pipe.lines| then s.pos + 1 else s.pos
  {
    if s.closed then (s, Raised(ClosedFileMessage))
    else
      var (after, response) := Receive(pipe, s.(sent := s.sent + [m]));
      (after, Ok(response))
  }

  /** The session once the constructor has run the handshake: request 1 is
      `initialize`, its answer is read and ignored, and the `initialized`
      notification follows. */
  function InitialSession(pipe: Pipe): (r: Session)
    ensures r.requestId == 1 && !r.closed
    ensures r.sent == [Request(1, "initialize", InitializeParams), InitializedNotification]
    ensures r.pos == if |pipe.lines| > 0 then 1 else 0
  {
    var started := Session(1, [], 0, false);
    var (answered, _) := SendStep(pipe, started, Request(1, "initialize", InitializeParams));
    answered.(sent := answered.sent + [InitializedNotification])
  }

  // ---- Listing tools ----

  const StrIndexMessage := "string indices must be integers, not 'str'"

  /** One server tool description turned into the model's tool format. */
  function ClaudeTool(tool: Value): (r: Outcome<Value>)
    ensures r.Ok? <==> tool.Obj? && "name" in tool.fields && "description" in tool.fields
                       && "inputSchema" in tool.fields
    ensures r.Ok? ==> r.value == Obj(map["name" := tool.fields["name"],
                                         "description" := tool.fields["description"],
                                         "input_schema" := tool.fields["inputSchema"]])
  {
    var name :- GetItem(tool, "name");
    var description :- GetItem(tool, "description");
    var schema :- GetItem(tool, "inputSchema");
    Ok(Obj(map["name" := name, "description" := description, "input_schema" := schema]))
  }

  /** The conversion loop over the server's tool list: all converted, in order,
      or the first conversion's exception. */
  function ClaudeToolList(tools: seq<Value>): (r: Outcome<seq<Value>>)
    ensures r.Ok? <==> forall i | 0 <= i < |tools| :: ClaudeTool(tools[i]).Ok?
    ensures r.Ok? ==> |r.value| == |tools| && forall i | 0 <= i < |tools| :: r.value[i] == ClaudeTool(tools[i]).value
    ensures r.Raised? ==> exists i | 0 <= i < |tools| :: && ClaudeTool(tools[i]) == Raised(r.message)
                                                        && forall j | 0 <= j < i :: ClaudeTool(tools[j]).Ok?
    decreases |tools|
  {
    if tools == [] then Ok([])
    else
      var first :- ClaudeTool(tools[0]);
      var rest :- ClaudeToolList(tools[1..]);
      assert forall i | 1 <= i < |tools| :: tools[i] == tools[1..][i - 1];
      Ok([first] + rest)
  }

  /** `for tool in tools` followed by the conversion: a list converts element by
      element; iterating a non-empty string or dictionary yields strings, which
      cannot be indexed by "name"; other values are not iterable. */
  function ConvertTools(tools: Value): (r: Outcome<seq<Value>>)
    ensures tools.Arr? ==> r == ClaudeToolList(tools.items)
    ensures !tools.Arr? ==> (r.Ok? <==> tools == Obj(map[]) || tools == Str(""))
    ensures r.Ok? && !tools.Arr? ==> r.value == []
    ensures (tools.Obj? || tools.Str?) && Truthy(tools) ==> r == Raised(StrIndexMessage)
    ensures tools.Null? || tools.Bool? || tools.Num? ==>
              r == Raised("'" + TypeName(tools) + "' object is not iterable")
  {
    match tools
    case Arr(items) => ClaudeToolList(items)
    case Obj(m) => if m == map[] then Ok([]) else Raised(StrIndexMessage)
    case Str(s) => if s == "" then Ok([]) else Raised(StrIndexMessage)
    case _ => Raised("'" + TypeName(tools) + "' object is not iterable")
  }

  /** `list_tools` after the response is read: tools are taken from
      `result.tools` when both keys are present, otherwise the list is empty. */
  function ListToolsResult(response: Value): (r: Outcome<seq<Value>>)
    ensures response.Obj? && ("result" !in response.fields
                              || (response.fields["result"].Obj? && "tools" !in response.fields["result"].fields))
            ==> r == Ok([])
    ensures response.Obj? && "result" in response.fields && response.fields["result"].Obj?
            && "tools" in response.fields["result"].fields
            ==> r == ConvertTools(response.fields["result"].fields["tools"])
  {
    var hasResult :- Contains(response, "result");
    if !hasResult then Ok([])
    else
      var result :- GetItem(response, "result");
      var hasTools :- Contains(result, "tools");
      if !hasTools then Ok([])
      else
        var tools :- GetItem(result, "tools");
        ConvertTools(tools)
  }

  function ListToolsRequest(id: nat): Message {
    Request(id, "tools/list", Obj(map[]))
  }

  /** `list_tools`: the next id, one request, and the conversion of its answer;
      on a closed input the id is used up and the write raises. */
  function ListToolsStep(pipe: Pipe, s: Session): (r: (Session, Outcome<seq<Value>>))
    ensures r.0.requestId == s.requestId + 1
    ensures s.closed ==> r == (s.(requestId := s.requestId + 1), Raised(ClosedFileMessage))
    ensures !s.closed ==>
              var k := s.requestId + 1;
              var (after, response) := Receive(pipe, s.(requestId := k, sent := s.sent + [ListToolsRequest(k)]));
              r == (after, ListToolsResult(response))
  {
    var numbered := s.(requestId := s.requestId + 1);
    var (after, response) := SendStep(pipe, numbered, ListToolsRequest(numbered.requestId));
    (after, match response case Ok(v) => ListToolsResult(v) case Raised(m) => Raised(m))
  }

  // ---- Calling a tool ----

  /** Python's `eval` applied to the text of a tool result: a value, or `None`
      when evaluation raises. */
  type Evaluator = string -> Option<Value>

  const FailedToGetResult: Value := Obj(map["error" := Str("Failed to get result")])

  /** `eval(text)` under a bare `except`: a text that does not evaluate, and a
      `text` entry that is not a string at all, come back wrapped as `{"result": text}`. */
  function EvalOrWrap(text: Value, evalText: Evaluator): (r: Value)
    ensures text.Str? && evalText(text.s).Some? ==> r == evalText(text.s).value
    ensures !(text.Str? && evalText(text.s).Some?) ==> r == Obj(map["result" := text])
  {
    if text.Str? && evalText(text.s).Some? then evalText(text.s).value
    else Obj(map["result" := text])
  }

  /** `call_tool` after the response is read: the first content item's `text`
      (default "{}") evaluated, or the failure value when there is no result
      or no content. */
  function CallToolResult(response: Value, evalText: Evaluator): (r: Outcome<Value>)
    ensures response.Obj? && "result" !in response.fields ==> r == Ok(FailedToGetResult)
    ensures response.Obj? && "result" in response.fields && response.fields["result"].Obj?
            && ("content" !in response.fields["result"].fields
                || response.fields["result"].fields["content"] == Arr([]))
            ==> r == Ok(FailedToGetResult)
    ensures response.Obj? && "result" in response.fields && response.fields["result"].Obj?
            && "content" in response.fields["result"].fields
            && response.fields["result"].fields["content"].Arr?
            && |response.fields["result"].fields["content"].items| > 0
            && response.fields["result"].fields["content"].items[0].Obj?
            ==> var first := response.fields["result"].fields["content"].items[0];
                r == Ok(EvalOrWrap(if "text" in first.fields then first.fields["text"] else Str("{}"), evalText))
  {
    var hasResult :- Contains(response, "result");
    if !hasResult then Ok(FailedToGetResult)
    else
      var result :- GetItem(response, "result");
      var hasContent :- Contains(result, "content");
      if !hasContent then Ok(FailedToGetResult)
      else
        var content :- GetItem(result, "content");
        var count :- Len(content);
        if count == 0 then Ok(FailedToGetResult)
        else
          var first :- FirstItem(content);
          var text :- DictGet(first, "text", Str("{}"));
          Ok(EvalOrWrap(text, evalText))
  }

  function CallToolRequest(id: nat, name: string, arguments: Value): Message {
    Request(id, "tools/call", Obj(map["name" := Str(name), "arguments" := arguments]))
  }

  /** `call_tool`: the next id, one request, and the extraction of its answer;
      on a closed input the id is used up and the write raises. */
  function CallToolStep(pipe: Pipe, evalText: Evaluator, s: Session, name: string, arguments: Value)
    : (r: (Session, Outcome<Value>))
    ensures r.0.requestId == s.requestId + 1
    ensures s.closed ==> r == (s.(requestId := s.requestId + 1), Raised(ClosedFileMessage))
    ensures !s.closed ==>
              var k := s.requestId + 1;
              var (after, response) :=
                Receive(pipe, s.(requestId := k, sent := s.sent + [CallToolRequest(k, name, arguments)]));
              r == (after, CallToolResult(response, evalText))
  {
    var numbered := s.(requestId := s.requestId + 1);
    var (after, response) := SendStep(pipe, numbered, CallToolRequest(numbered.requestId, name, arguments));
    (after, match response case Ok(v) => CallToolResult(v, evalText) case Raised(m) => Raised(m))
  }

  // ---- The session invariant ----

  function Min(a: nat, b: nat): nat {
    if a <= b then a else b
  }

  predicate IsToolRequest(m: Message) {
    m.Request? && (m.rpcMethod == "tools/list" || m.rpcMethod == "tools/call")
  }

  /** What every session satisfies after the handshake: the handshake comes
      first; after it the i-th message written is a tool request with id i;
      one output line has been read per request while lines remained (a
      response is matched to its request by order alone); and ids are handed
      out one by one, including to calls made after the input was closed. */
  ghost predicate SessionValid(pipe: Pipe, s: Session) {
    && |s.sent| >= 2
    && s.sent[0] == Request(1, "initialize", InitializeParams)
    && s.sent[1] == InitializedNotification
    && (forall i | 2 <= i < |s.sent| :: IsToolRequest(s.sent[i]) && s.sent[i].id == i)
    && s.pos == Min(|s.sent| - 1, |pipe.lines|)
    && s.requestId >= |s.sent| - 1
    && (!s.closed ==> s.requestId == |s.sent| - 1)
  }

  lemma InitialSessionValid(pipe: Pipe)
    ensures SessionValid(pipe, InitialSession(pipe))
    ensures InitialSession(pipe).requestId == 1 && !InitialSession(pipe).closed
  {
  }

  /** Every request written carries its own id: no two share one. */
  lemma RequestIdsDistinct(pipe: Pipe, s: Session, i: nat, j: nat)
    requires SessionValid(pipe, s)
    requires i < j < |s.sent| && s.sent[i].Request? && s.sent[j].Request?
    ensures s.sent[i].id != s.sent[j].id
  {
  }

  lemma ListToolsKeepsValid(pipe: Pipe, s: Session)
    requires SessionValid(pipe, s)
    ensures SessionValid(pipe, ListToolsStep(pipe, s).0)
    ensures ListToolsStep(pipe, s).0.requestId == s.requestId + 1
  {
  }

  lemma CallToolKeepsValid(pipe: Pipe, evalText: Evaluator, s: Session, name: string, arguments: Value)
    requires SessionValid(pipe, s)
    ensures SessionValid(pipe, CallToolStep(pipe, evalText, s, name, arguments).0)
    ensures CallToolStep(pipe, evalText, s, name, arguments).0.requestId == s.requestId + 1
  {
  }

  /** On an open session the k-th tool request (k counted from 2, after the
      handshake) is answered by output line k - 1 when the server wrote one,
      and by the "No response from server" error value otherwise. */
  lemma CallToolReadsMatchingLine(pipe: Pipe, evalText: Evaluator, s: Session, name: string, arguments: Value)
    requires SessionValid(pipe, s) && !s.closed
    ensures var k := s.requestId + 1;
            var (after, out) := CallToolStep(pipe, evalText, s, name, arguments);
            && after.sent == s.sent + [CallToolRequest(k, name, arguments)]
            && (k - 1 < |pipe.lines| ==>
                  after.pos == k
                  && out == CallToolResult(match pipe.decode(pipe.lines[k - 1])
                                            case Parsed(v) => v
                                            case NotJson(e) => ErrorObj(e), evalText))
            && (k - 1 >= |pipe.lines| ==>
                  after.pos == |pipe.lines| && out == CallToolResult(ErrorObj("No response from server"), evalText))
  {
  }

  /** Once the input side is closed, a call still uses up an id but writes and reads nothing. */
  lemma ClosedSessionCallRaises(pipe: Pipe, evalText: Evaluator, s: Session, name: string, arguments: Value)
    requires s.closed
    ensures CallToolStep(pipe, evalText, s, name, arguments)
            == (s.(requestId := s.requestId + 1), Raised(ClosedFileMessage))
  {
  }

  // ---- The client object ----

  class FastMCPClient {
    var requestId: nat
    var sent: seq<Message>
    var pos: nat
    var closed: bool
    const pipe: Pipe
    const evalText: Evaluator

    function State(): Session
      reads this
    {
      Session(requestId, sent, pos, closed)
    }

    ghost predicate Valid()
      reads this
    {
      SessionValid(pipe, State())
    }

    /** Starting the server and running the handshake. */
    constructor (pipe: Pipe, evalText: Evaluator)
      ensures this.pipe == pipe && this.evalText == evalText
      ensures State() == InitialSession(pipe) && Valid()
    {
      this.pipe := pipe;
      this.evalText := evalText;
      requestId := 0;
      sent := [];
      pos := 0;
      closed := false;
      new;
      var id := NextId();
      var _ := SendRequest(Request(id, "initialize", InitializeParams));
      sent := sent + [InitializedNotification];
      InitialSessionValid(pipe);
    }

    method NextId() returns (id: nat)
      modifies this
      ensures State() == old(State()).(requestId := old(requestId) + 1)
      ensures id == requestId
    {
      requestId := requestId + 1;
      id := requestId;
    }

    method SendRequest(request: Message) returns (response: Outcome<Value>)
      modifies this
      ensures (State(), response) == SendStep(pipe, old(State()), request)
    {
      if closed {
        return Raised(ClosedFileMessage);
      }
      sent := sent + [request];
      if pos < |pipe.lines| {
        response := match pipe.decode(pipe.lines[pos])
          case Parsed(v) => Ok(v)
          case NotJson(e) => Ok(ErrorObj(e));
        pos := pos + 1;
      } else {
        response := Ok(ErrorObj("No response from server"));
      }
    }

    method ListTools() returns (tools: Outcome<seq<Value>>)
      requires Valid()
      modifies this
      ensures Valid()
      ensures (State(), tools) == ListToolsStep(pipe, old(State()))
    {
      ListToolsKeepsValid(pipe, State());
      var id := NextId();
      var response :- SendRequest(ListToolsRequest(id));
      var hasResult :- Contains(response, "result");
      if !hasResult {
        return Ok([]);
      }
      var result :- GetItem(response, "result");
      var hasTools :- Contains(result, "tools");
      if !hasTools {
        return Ok([]);
      }
      var listed :- GetItem(result, "tools");
      if !listed.Arr? {
        return ConvertTools(listed);
      }
      tools := ConvertToolList(listed.items);
    }

    method CallTool(name: string, arguments: Value) returns (result: Outcome<Value>)
      requires Valid()
      modifies this
      ensures Valid()
      ensures (State(), result) == CallToolStep(pipe, evalText, old(State()), name, arguments)
    {
      CallToolKeepsValid(pipe, evalText, State(), name, arguments);
      var id := NextId();
      var response :- SendRequest(CallToolRequest(id, name, arguments));
      result := CallToolResult(response, evalText);
    }

    /** Closing the server's input; a second close changes nothing. */
    method Close()
      requires Valid()
      modifies this
      ensures Valid()
      ensures State() == old(State()).(closed := true)
    {
      closed := true;
    }
  }

  /** The `for tool in tools` loop of `list_tools` over a list: each element is
      converted in turn, and the first one that cannot be stops the loop. */
  method ConvertToolList(items: seq<Value>) returns (tools: Outcome<seq<Value>>)
    ensures tools == ClaudeToolList(items)
  {
    var converted: seq<Value> := [];
    var i := 0;
    ThenAppendNothing(ClaudeToolList(items));
    assert items[0..] == items;
    while i < |items|
      invariant 0 <= i <= |items|
      invariant ClaudeToolList(items) == ThenAppend(converted, ClaudeToolList(items[i..]))
    {
      ClaudeToolListUnfold(items[i..]);
      assert items[i..][0] == items[i] && items[i..][1..] == items[i + 1..];
      var tool :- ClaudeTool(items[i]);
      ThenAppendTwice(converted, [tool], ClaudeToolList(items[i + 1..]));
      converted := converted + [tool];
      i := i + 1;
    }
    assert items[i..] == [];
    ThenAppendNothing(Ok(converted));
    tools := Ok(converted);
  }

  /** One step of the conversion loop: the head is converted, then the rest. */
  lemma ClaudeToolListUnfold(tools: seq<Value>)
    requires tools != []
    ensures ClaudeTool(tools[0]).Raised? ==> ClaudeToolList(tools) == Raised(ClaudeTool(tools[0]).message)
    ensures ClaudeTool(tools[0]).Ok? ==>
              ClaudeToolList(tools) == ThenAppend([ClaudeTool(tools[0]).value], ClaudeToolList(tools[1..]))
  {
  }

  lemma ThenAppendNothing(rest: Outcome<seq<Value>>)
    ensures ThenAppend([], rest) == rest
    ensures rest.Ok? ==> ThenAppend(rest.value, Ok([])) == rest
  {
    match rest {
      case Ok(v) => assert [] + v == v && v + [] == v;
      case Raised(_) =>
    }
  }

  lemma ThenAppendTwice(first: seq<Value>, second: seq<Value>, rest: Outcome<seq<Value>>)
    ensures ThenAppend(first, ThenAppend(second, rest)) == ThenAppend(first + second, rest)
  {
    match rest {
      case Ok(v) => assert first + (second + v) == (first + second) + v;
      case Raised(_) =>
    }
  }

  /** `prefix` put in front of a conversion outcome. */
  function ThenAppend(prefix: seq<Value>, rest: Outcome<seq<Value>>): Outcome<seq<Value>> {
    match rest
    case Ok(v) => Ok(prefix + v)
    case Raised(m) => Raised(m)
  }
}
