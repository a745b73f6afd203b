/**
  The conversation both tool-using chatbots keep, and the specification of one
  `send_message` exchange.  The two chatbots differ only in how a tool call
  travels (an HTTP post, or a JSON-RPC request over a child process's pipes),
  so the exchange is stated once, over a tool caller that threads whatever
  state its transport keeps.  The model gateway is an oracle from request to
  reply.
*/
module Conversation {
  import opened Json

  datatype Role = User | Assistant

  /** A content block.  A tool result's `content` is `json.dumps(result)`; the
      model keeps the value itself, serialisation being injective. */
  datatype Block =
    | TextBlock(text: string)
    | ToolUse(id: string, name: string, input: Value)
    | ToolResult(toolUseId: string, content: Value)
    | OtherBlock(kind: string)

  datatype Content = Text(text: string) | Blocks(blocks: seq<Block>)

  datatype Turn = Turn(role: Role, content: Content)

  const AnthropicVersion := "bedrock-2023-05-31"

  /** The body handed to the model: the whole history, and a tool catalog when one is sent. */
  datatype ModelRequest = ModelRequest(anthropicVersion: string, maxTokens: int, messages: seq<Turn>, tools: Option<Value>)

  datatype ModelResponse = ModelResponse(stopReason: Option<string>, content: seq<Block>)

  /** The exception classes the model client raises. */
  datatype ErrorKind = ValidationException | ThrottlingException | OtherException

  datatype GatewayReply = Replied(body: ModelResponse) | Failed(kind: ErrorKind, message: string)

  type Gateway = ModelRequest -> GatewayReply

  const EmptyMessageReply := "Please provide a message."

  /** Characters Python's `str.strip()` removes (`str.isspace`). */
  predicate IsWhitespace(c: char) {
    var n := c as int;
    || 9 <= n <= 13 || 28 <= n <= 32 || n == 0x85 || n == 0xA0 || n == 0x1680
    || 0x2000 <= n <= 0x200A || n == 0x2028 || n == 0x2029 || n == 0x202F || n == 0x205F || n == 0x3000
  }

  /** `not message.strip()`: the message holds nothing but whitespace. */
  predicate IsBlank(message: string) {
    forall i | 0 <= i < |message| :: IsWhitespace(message[i])
  }

  /** `str.lstrip()`. */
  function TrimStart(s: string): string
    decreases |s|
  {
    if s != [] && IsWhitespace(s[0]) then TrimStart(s[1..]) else s
  }

  /** `str.rstrip()`. */
  function TrimEnd(s: string): string
    decreases |s|
  {
    if s != [] && IsWhitespace(s[|s| - 1]) then TrimEnd(s[..|s| - 1]) else s
  }

  /** `str.strip()`. */
  function Strip(s: string): string {
    TrimEnd(TrimStart(s))
  }

  lemma {:induction false} TrimStartEmptyIffBlank(s: string)
    ensures TrimStart(s) == [] <==> IsBlank(s)
    ensures TrimStart(s) != [] ==> !IsWhitespace(TrimStart(s)[0])
    decreases |s|
  {
    if s != [] && IsWhitespace(s[0]) {
      TrimStartEmptyIffBlank(s[1..]);
      assert IsBlank(s) <==> IsBlank(s[1..]) by {
        assert forall i | 1 <= i < |s| :: s[i] == s[1..][i - 1];
      }
    }
  }

  lemma {:induction false} TrimEndEmptyIffBlank(s: string)
    ensures TrimEnd(s) == [] <==> IsBlank(s)
    decreases |s|
  {
    if s != [] && IsWhitespace(s[|s| - 1]) {
      TrimEndEmptyIffBlank(s[..|s| - 1]);
      assert IsBlank(s) <==> IsBlank(s[..|s| - 1]) by {
        assert forall i | 0 <= i < |s| - 1 :: s[i] == s[..|s| - 1][i];
      }
    }
  }

  /** The blank test is Python's: a message is refused exactly when stripping it leaves nothing. */
  lemma BlankIffStripEmpty(message: string)
    ensures IsBlank(message) <==> Strip(message) == ""
  {
    TrimStartEmptyIffBlank(message);
    var t := TrimStart(message);
    TrimEndEmptyIffBlank(t);
    if t != [] {
      assert !IsBlank(t);
    }
  }

  /** `content[0]['text']`: the first block's text, or the `IndexError` /
      `KeyError` that reading it raises. */
  function FirstText(content: seq<Block>): (r: Outcome<string>)
    ensures r.Ok? <==> content != [] && content[0].TextBlock?
    ensures r.Ok? ==> r.value == content[0].text
  {
    if content == [] then Raised("list index out of range")
    else match content[0]
      case TextBlock(t) => Ok(t)
      case _ => Raised("'text'")
  }

  /** The ids of the tool-use blocks, in block order. */
  function ToolUseIds(blocks: seq<Block>): seq<string>
    decreases |blocks|
  {
    if blocks == [] then []
    else
      var last := blocks[|blocks| - 1];
      ToolUseIds(blocks[..|blocks| - 1]) + (if last.ToolUse? then [last.id] else [])
  }

  /** The tool-use ids the tool-result blocks answer, in block order. */
  function ResultIds(blocks: seq<Block>): seq<string>
    decreases |blocks|
  {
    if blocks == [] then []
    else
      var last := blocks[|blocks| - 1];
      ResultIds(blocks[..|blocks| - 1]) + (if last.ToolResult? then [last.toolUseId] else [])
  }

  predicate AllToolResults(blocks: seq<Block>) {
    forall k | 0 <= k < |blocks| :: blocks[k].ToolResult?
  }

  /** The tool-use blocks among `blocks`, in block order. */
  function ToolUses(blocks: seq<Block>): (r: seq<Block>)
    ensures forall k | 0 <= k < |r| :: r[k].ToolUse?
    decreases |blocks|
  {
    if blocks == [] then []
    else
      var last := blocks[|blocks| - 1];
      ToolUses(blocks[..|blocks| - 1]) + (if last.ToolUse? then [last] else [])
  }

  /** The transport states a run of tool calls goes through, one call per tool
      use in order: the k-th call starts in state k, the last state is where
      the run ends. */
  function CallStates<S>(state: S, call: (S, string, Value) -> (S, Value), uses: seq<Block>): (r: seq<S>)
    requires forall k | 0 <= k < |uses| :: uses[k].ToolUse?
    ensures |r| == |uses| + 1
    decreases |uses|
  {
    if uses == [] then [state]
    else
      var before := CallStates(state, call, uses[..|uses| - 1]);
      var last := uses[|uses| - 1];
      before + [call(before[|uses| - 1], last.name, last.input).0]
  }

  /** The `for block in content_blocks` loop: every tool-use block, in order,
      is sent through `call`, which threads the transport's state, and answered
      by one tool-result block carrying its id and the call's answer (stated by
      `DispatchAnswersEachUse`); other blocks are skipped. */
  function Dispatch<S>(state: S, call: (S, string, Value) -> (S, Value), blocks: seq<Block>): (r: (S, seq<Block>))
    ensures AllToolResults(r.1)
    ensures ResultIds(r.1) == ToolUseIds(blocks)
    decreases |blocks|
  {
    if blocks == [] then (state, [])
    else
      var prefix := blocks[..|blocks| - 1];
      var (before, results) := Dispatch(state, call, prefix);
      match blocks[|blocks| - 1]
      case ToolUse(id, name, input) =>
        var (after, result) := call(before, name, input);
        assert ResultIds(results + [ToolResult(id, result)]) == ResultIds(results) + [id] by {
          assert (results + [ToolResult(id, result)])[..|results|] == results;
        }
        (after, results + [ToolResult(id, result)])
      case _ => (before, results)
  }

  /** The k-th tool result answers the k-th tool use with what `call` returns
      for it, called in the state the earlier calls left; the dispatch ends in
      the state after the last call. */
  lemma {:induction false} DispatchAnswersEachUse<S>(state: S, call: (S, string, Value) -> (S, Value),
                                                     blocks: seq<Block>)
    ensures var r := Dispatch(state, call, blocks);
            var uses := ToolUses(blocks);
            var states := CallStates(state, call, uses);
            && |r.1| == |uses|
            && r.0 == states[|uses|]
            && forall k | 0 <= k < |uses| ::
                 r.1[k] == ToolResult(uses[k].id, call(states[k], uses[k].name, uses[k].input).1)
    decreases |blocks|
  {
    if blocks != [] {
      var prefix := blocks[..|blocks| - 1];
      DispatchAnswersEachUse(state, call, prefix);
      ToolUsesAppend(blocks);
      if blocks[|blocks| - 1].ToolUse? {
        CallStatesAppend(state, call, ToolUses(prefix), blocks[|blocks| - 1]);
      }
    }
  }

  /** Dropping the last block drops its tool use, if it is one. */
  lemma ToolUsesAppend(blocks: seq<Block>)
    requires blocks != []
    ensures var last := blocks[|blocks| - 1];
            && (last.ToolUse? ==> ToolUses(blocks) == ToolUses(blocks[..|blocks| - 1]) + [last])
            && (!last.ToolUse? ==> ToolUses(blocks) == ToolUses(blocks[..|blocks| - 1]))
  {
    assert ToolUses(blocks[..|blocks| - 1]) + [] == ToolUses(blocks[..|blocks| - 1]);
  }

  /** One more tool use adds the state its call leaves behind. */
  lemma CallStatesAppend<S>(state: S, call: (S, string, Value) -> (S, Value), uses: seq<Block>, use: Block)
    requires forall k | 0 <= k < |uses| :: uses[k].ToolUse?
    requires use.ToolUse?
    ensures var states := CallStates(state, call, uses);
            CallStates(state, call, uses + [use]) == states + [call(states[|uses|], use.name, use.input).0]
  {
    assert (uses + [use])[..|uses|] == uses;
  }

  /** What one `send_message` leaves behind: the history, the text returned,
      the requests made to the model, and the tool transport's state. */
  datatype Exchange<S> = Exchange(history: seq<Turn>, reply: string, requests: seq<ModelRequest>, state: S)

  /** `_handle_tool_use`: `asked` already ends with the user's turn.  The
      assistant's blocks and the answers to its tool uses are kept whatever
      happens next; the single follow-up request carries the catalog, and its
      reply is read as text even when it asks for tools again. */
  function ToolRound<S>(asked: seq<Turn>, tools: Value, maxTokens: int, blocks: seq<Block>, gateway: Gateway,
                        state: S, call: (S, string, Value) -> (S, Value)): (r: Exchange<S>)
    ensures var n := |asked|;
            && n + 2 <= |r.history| <= n + 3
            && r.history[..n + 2] == asked + [Turn(Assistant, Blocks(blocks)),
                                              Turn(User, Blocks(Dispatch(state, call, blocks).1))]
            && r.state == Dispatch(state, call, blocks).0
            && r.requests == [ModelRequest(AnthropicVersion, maxTokens, r.history[..n + 2], Some(tools))]
            && (|r.history| == n + 3 <==>
                  gateway(r.requests[0]).Replied? && FirstText(gateway(r.requests[0]).body.content).Ok?)
            && (|r.history| == n + 3 ==>
                  r.history[n + 2] == Turn(Assistant, Text(r.reply))
                  && r.reply == FirstText(gateway(r.requests[0]).body.content).value)
            && (|r.history| == n + 2 ==>
                  |r.reply| >= 31 && r.reply[..31] == "Error processing tool results: ")
  {
    var withBlocks := asked + [Turn(Assistant, Blocks(blocks))];
    var (after, results) := Dispatch(state, call, blocks);
    var withResults := withBlocks + [Turn(User, Blocks(results))];
    var request := ModelRequest(AnthropicVersion, maxTokens, withResults, Some(tools));
    assert withResults[..|asked| + 2] == withResults;
    match gateway(request)
    case Failed(_, m) => Exchange(withResults, "Error processing tool results: " + m, [request], after)
    case Replied(body) =>
      match FirstText(body.content)
      case Raised(m) => Exchange(withResults, "Error processing tool results: " + m, [request], after)
      case Ok(t) => Exchange(withResults + [Turn(Assistant, Text(t))], t, [request], after)
  }

  /** `send_message` of a tool-using chatbot: the catalog goes with the first
      request only when it is truthy, and always with the follow-up. */
  function ToolExchange<S>(history: seq<Turn>, tools: Value, maxTokens: int, message: string, gateway: Gateway,
                           state: S, call: (S, string, Value) -> (S, Value)): (r: Exchange<S>)
    ensures IsBlank(message) ==> r == Exchange(history, EmptyMessageReply, [], state)
    ensures !IsBlank(message) ==>
              && |history| < |r.history| <= |history| + 4
              && r.history[..|history| + 1] == history + [Turn(User, Text(message))]
              && 1 <= |r.requests| <= 2
              && r.requests[0] == ModelRequest(AnthropicVersion, maxTokens, history + [Turn(User, Text(message))],
                                               if Truthy(tools) then Some(tools) else None)
    ensures forall k | 0 <= k < |r.requests| :: r.requests[k].messages <= r.history
  {
    if IsBlank(message) then Exchange(history, EmptyMessageReply, [], state)
    else
      var asked := history + [Turn(User, Text(message))];
      var request := ModelRequest(AnthropicVersion, maxTokens, asked, if Truthy(tools) then Some(tools) else None);
      match gateway(request)
      case Failed(_, m) => Exchange(asked, "Error: " + m, [request], state)
      case Replied(body) =>
        if body.stopReason == Some("tool_use") then
          var round := ToolRound(asked, tools, maxTokens, body.content, gateway, state, call);
          assert asked <= round.history;
          round.(requests := [request] + round.requests)
        else
          match FirstText(body.content)
          case Raised(m) => Exchange(asked, "Error: " + m, [request], state)
          case Ok(t) => Exchange(asked + [Turn(Assistant, Text(t))], t, [request], state)
  }

  // ---- Shape of the history after one exchange ----

  /** A plain answer: exactly the user's turn and the assistant's text are added. */
  lemma EndTurnAddsTwoTurns<S>(history: seq<Turn>, tools: Value, maxTokens: int, message: string, gateway: Gateway,
                               state: S, call: (S, string, Value) -> (S, Value), t: string)
    requires !IsBlank(message)
    requires var first := gateway(ModelRequest(AnthropicVersion, maxTokens, history + [Turn(User, Text(message))],
                                               if Truthy(tools) then Some(tools) else None));
             first.Replied? && first.body.stopReason != Some("tool_use") && FirstText(first.body.content) == Ok(t)
    ensures var r := ToolExchange(history, tools, maxTokens, message, gateway, state, call);
            && r.history == history + [Turn(User, Text(message)), Turn(Assistant, Text(t))]
            && r.reply == t && |r.requests| == 1 && r.state == state
  {
  }

  /** A failed first call, or a first answer without text: only the user's turn
      is added, nothing reaches the tools, and the reply starts with "Error: ". */
  lemma FirstCallFailureAddsUserTurnOnly<S>(history: seq<Turn>, tools: Value, maxTokens: int, message: string,
                                            gateway: Gateway, state: S, call: (S, string, Value) -> (S, Value))
    requires !IsBlank(message)
    requires var first := gateway(ModelRequest(AnthropicVersion, maxTokens, history + [Turn(User, Text(message))],
                                               if Truthy(tools) then Some(tools) else None));
             first.Failed? || (first.body.stopReason != Some("tool_use") && FirstText(first.body.content).Raised?)
    ensures var r := ToolExchange(history, tools, maxTokens, message, gateway, state, call);
            && r.history == history + [Turn(User, Text(message))]
            && |r.reply| >= 7 && r.reply[..7] == "Error: "
            && |r.requests| == 1 && r.state == state
  {
  }

  /** A tool round: the assistant's blocks are added verbatim, then one user turn
      holding exactly one tool result per tool-use block, in order and with the
      same ids; the follow-up request replays all of it with the catalog.  The
      history grows by four exactly when the follow-up yields text. */
  lemma ToolRoundShape<S>(history: seq<Turn>, tools: Value, maxTokens: int, message: string, gateway: Gateway,
                          state: S, call: (S, string, Value) -> (S, Value))
    requires !IsBlank(message)
    requires var first := gateway(ModelRequest(AnthropicVersion, maxTokens, history + [Turn(User, Text(message))],
                                               if Truthy(tools) then Some(tools) else None));
             first.Replied? && first.body.stopReason == Some("tool_use")
    ensures var first := gateway(ModelRequest(AnthropicVersion, maxTokens, history + [Turn(User, Text(message))],
                                              if Truthy(tools) then Some(tools) else None));
            var blocks := first.body.content;
            var r := ToolExchange(history, tools, maxTokens, message, gateway, state, call);
            var n := |history|;
            && n + 3 <= |r.history| <= n + 4
            && r.history[n] == Turn(User, Text(message))
            && r.history[n + 1] == Turn(Assistant, Blocks(blocks))
            && r.history[n + 2].role == User && r.history[n + 2].content.Blocks?
            && AllToolResults(r.history[n + 2].content.blocks)
            && ResultIds(r.history[n + 2].content.blocks) == ToolUseIds(blocks)
            && |r.requests| == 2
            && r.requests[1] == ModelRequest(AnthropicVersion, maxTokens, r.history[..n + 3], Some(tools))
            && (|r.history| == n + 4 <==>
                  gateway(r.requests[1]).Replied? && FirstText(gateway(r.requests[1]).body.content).Ok?)
            && (|r.history| == n + 4 ==> r.history[n + 3] == Turn(Assistant, Text(r.reply)))
            && var uses := ToolUses(blocks);
               var states := CallStates(state, call, uses);
               && |r.history[n + 2].content.blocks| == |uses|
               && r.state == states[|uses|]
               && forall k | 0 <= k < |uses| ::
                    r.history[n + 2].content.blocks[k]
                    == ToolResult(uses[k].id, call(states[k], uses[k].name, uses[k].input).1)
  {
    var first := gateway(ModelRequest(AnthropicVersion, maxTokens, history + [Turn(User, Text(message))],
                                      if Truthy(tools) then Some(tools) else None));
    DispatchAnswersEachUse(state, call, first.body.content);
  }

  // ---- Every tool request is answered before the model is called again ----

  /** Every assistant turn holding blocks is followed by a user turn answering
      each of its tool-use blocks, in order, with the same ids. */
  predicate ToolUsesAnswered(h: seq<Turn>) {
    forall i | 0 <= i < |h| && h[i].role == Assistant && h[i].content.Blocks? ::
      && i + 1 < |h|
      && h[i + 1].role == User && h[i + 1].content.Blocks?
      && AllToolResults(h[i + 1].content.blocks)
      && ResultIds(h[i + 1].content.blocks) == ToolUseIds(h[i].content.blocks)
  }

  lemma AnsweredExtendsByTurn(h: seq<Turn>, t: Turn)
    requires ToolUsesAnswered(h)
    requires !(t.role == Assistant && t.content.Blocks?)
    ensures ToolUsesAnswered(h + [t])
  {
  }

  lemma AnsweredExtendsByRound(h: seq<Turn>, blocks: seq<Block>, results: seq<Block>)
    requires ToolUsesAnswered(h)
    requires AllToolResults(results) && ResultIds(results) == ToolUseIds(blocks)
    ensures ToolUsesAnswered(h + [Turn(Assistant, Blocks(blocks)), Turn(User, Blocks(results))])
  {
  }

  /** The conversation invariant: if every earlier tool request was answered,
      then so is every one after the exchange, and in every history the model
      is sent during it. */
  lemma ExchangeKeepsToolUsesAnswered<S>(history: seq<Turn>, tools: Value, maxTokens: int,
                                          message: string, gateway: Gateway, state: S,
                                          call: (S, string, Value) -> (S, Value))
    requires ToolUsesAnswered(history)
    ensures var r := ToolExchange(history, tools, maxTokens, message, gateway, state, call);
            && ToolUsesAnswered(r.history)
            && forall k | 0 <= k < |r.requests| :: ToolUsesAnswered(r.requests[k].messages)
  {
    if !IsBlank(message) {
      var asked := history + [Turn(User, Text(message))];
      AnsweredExtendsByTurn(history, Turn(User, Text(message)));
      var first := gateway(ModelRequest(AnthropicVersion, maxTokens, asked, if Truthy(tools) then Some(tools) else None));
      if first.Replied? {
        if first.body.stopReason == Some("tool_use") {
          var blocks := first.body.content;
          var results := Dispatch(state, call, blocks).1;
          AnsweredExtendsByRound(asked, blocks, results);
          var withResults := asked + [Turn(Assistant, Blocks(blocks)), Turn(User, Blocks(results))];
          assert asked + [Turn(Assistant, Blocks(blocks))] + [Turn(User, Blocks(results))] == withResults;
          var follow := gateway(ModelRequest(AnthropicVersion, maxTokens, withResults, Some(tools)));
          if follow.Replied? && FirstText(follow.body.content).Ok? {
            AnsweredExtendsByTurn(withResults, Turn(Assistant, Text(FirstText(follow.body.content).value)));
          }
        } else if FirstText(first.body.content).Ok? {
          AnsweredExtendsByTurn(asked, Turn(Assistant, Text(FirstText(first.body.content).value)));
        }
      }
    }
  }

  // ---- The model never speaks twice in a row ----

  /** Every assistant turn directly follows a user turn (so the history never
      starts with one). */
  predicate AssistantFollowsUser(h: seq<Turn>) {
    forall i | 0 <= i < |h| && h[i].role == Assistant :: i > 0 && h[i - 1].role == User
  }

  /** Appending a user turn, or an assistant turn right after a user turn, keeps the alternation. */
  lemma FollowsUserExtends(h: seq<Turn>, t: Turn)
    requires AssistantFollowsUser(h)
    requires t.role == Assistant ==> h != [] && h[|h| - 1].role == User
    ensures AssistantFollowsUser(h + [t])
  {
  }

  /** A tool-using exchange keeps the alternation: the assistant's blocks follow
      the user's message, and its final text follows the tool results. */
  lemma ExchangeKeepsAssistantFollowsUser<S>(history: seq<Turn>, tools: Value, maxTokens: int,
                                             message: string, gateway: Gateway, state: S,
                                             call: (S, string, Value) -> (S, Value))
    requires AssistantFollowsUser(history)
    ensures AssistantFollowsUser(ToolExchange(history, tools, maxTokens, message, gateway, state, call).history)
  {
    if !IsBlank(message) {
      var asked := history + [Turn(User, Text(message))];
      FollowsUserExtends(history, Turn(User, Text(message)));
      var first := gateway(ModelRequest(AnthropicVersion, maxTokens, asked, if Truthy(tools) then Some(tools) else None));
      if first.Replied? {
        if first.body.stopReason == Some("tool_use") {
          var blocks := first.body.content;
          var withBlocks := asked + [Turn(Assistant, Blocks(blocks))];
          FollowsUserExtends(asked, Turn(Assistant, Blocks(blocks)));
          var withResults := withBlocks + [Turn(User, Blocks(Dispatch(state, call, blocks).1))];
          FollowsUserExtends(withBlocks, Turn(User, Blocks(Dispatch(state, call, blocks).1)));
          var follow := gateway(ModelRequest(AnthropicVersion, maxTokens, withResults, Some(tools)));
          if follow.Replied? && FirstText(follow.body.content).Ok? {
            FollowsUserExtends(withResults, Turn(Assistant, Text(FirstText(follow.body.content).value)));
          }
        } else if FirstText(first.body.content).Ok? {
          FollowsUserExtends(asked, Turn(Assistant, Text(FirstText(first.body.content).value)));
        }
      }
    }
  }
}
