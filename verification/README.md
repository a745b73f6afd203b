# bedrock_chat: a Dafny model of the tool-augmented chatbots

bedrock_chat is a command-line chatbot. It sends the conversation to a Claude
model on AWS Bedrock. When the model asks for a tool, the chatbot runs the
tool and sends the results back for a final answer. There are three chatbots:

- **the plain chatbot** (`ClaudeChatbot`) offers no tools;
- **the HTTP chatbot** (`ClaudeChatbotWithTools`) calls tools on a small HTTP tool server;
- **the stdio chatbot** (`ClaudeChatbotWithFastMCP`) starts an MCP tool server as a child process. It speaks line-delimited JSON-RPC 2.0 to it through `FastMCPClient`.

The HTTP tool server answers `GET /tools` and `POST /call`. Beside it sits a tool registry
(`TOOL_REGISTRY`, filled by a decorator) with descriptors and a `call_tool`
entry point.

The model is organised in these modules:

| file | module | models |
|---|---|---|
| `json.dfy` | `Json` | Decoded JSON values. Also the Python operations the clients apply to them (`in`, `[k]`, `len`, `[0]`, `.get`, truthiness), with the exception each raises. An `Outcome` type carries a raised exception's text, so `:-` propagates exactly where Python would. |
| `registry.dfy` | `Registry` | The registry as a class holding an insertion-ordered table. Registration, listing and `call_tool`, and the three built-in registrations made at module load. |
| `http_server.dfy` | `HttpServer` | The two endpoints. Request validation gives status 422. Lemmas show where the server and the registry disagree. |
| `conversation.dfy` | `Conversation` | The shared turn and block types. The tool-dispatch fold over a reply's blocks. The specification of one `send_message` exchange of a tool chatbot, written over a tool caller whose transport state is a type parameter. Lemmas on the history's shape. |
| `basic_chat.dfy` | `BasicChat` | The plain chatbot as a class. |
| `stdio_client.dfy` | `StdioClient` | JSON-RPC messages, the client session as a value with step functions, its invariant, and `FastMCPClient` as a class whose methods are proved against the step functions. |
| `http_chat.dfy` | `HttpChat` | The HTTP chatbot as a class, proved against the exchange specification. An end-to-end lemma against the server. The finding below. |
| `stdio_chat.dfy` | `StdioChat` | The stdio chatbot as a class, proved against the same specification with the client's session as transport state. |

The environment is abstract. The model gateway (Bedrock) is a function from
request to reply: a reply, or one of three exception classes. HTTP is a
function from request body to reply. The child process is a fixed sequence of
output lines plus a JSON decoder. Python's `eval` of a tool text is a partial
function. Each class keeps a ghost log of every request it sent to the model.

### Behaviour of the code worth knowing

- A `tool_use` reply triggers exactly one round of tool calls and one follow-up request. The follow-up's reply is read as text even if it asks for tools again (`Conversation.ToolRound`).
- The user's turn is appended before the model is called and stays in the history when the call fails. After a failed follow-up, the assistant's tool-use turn and the tool results stay too (`Conversation.FirstCallFailureAddsUserTurnOnly`, `Conversation.ToolRoundShape`).
- The stdio client matches responses to requests only by order. It never checks a response's id (`StdioClient.CallToolReadsMatchingLine`).
- A failed handshake does not fail the session: the `initialize` answer is read and ignored (`StdioClient.InitialSession`).
- Tool texts are passed to Python's `eval`, not decoded as JSON (`StdioClient.EvalOrWrap`).
- The registry's `call_tool` turns only a `TypeError` into an error value; any other exception a tool raises escapes (`Registry.ToolRegistry.CallTool`).
- The HTTP server's unknown-tool error does not name the tool (`HttpServer.UnknownToolMessagesDiffer`).
- The HTTP server fills in defaults where the registry rejects a call (`HttpServer.MissingExpressionDefaultsOnServerOnly`, `HttpServer.TimeParamsIgnoredOnServerOnly`).

## Model

| member | source | states |
|---|---|---|
| `Json.Contains` | src/chatbot_with_fastmcp.py:106 | `k in v` answers key membership on a dictionary. It raises exactly for None, booleans and numbers. |
| `Json.GetItem` | src/chatbot_with_fastmcp.py:107 | `v[k]` succeeds exactly on a dictionary holding the key and gives that entry. Otherwise it raises. |
| `Json.Len` | src/chatbot_with_tools.py:74 | `len(v)` is defined exactly on lists, strings and dictionaries. On a list it is the element count. |
| `Json.FirstItem` | src/chatbot_with_fastmcp.py:138 | `v[0]` on a non-empty list is its first element. On a dictionary it raises. |
| `Json.DictGet` | src/chatbot_with_fastmcp.py:138 | `v.get(k, d)` is defined exactly on dictionaries. It gives the entry, or the default when the key is absent. |
| `Json.NatToString` | src/chatbot_with_tools.py:94 | The decimal rendering of a status code is non-empty, made of digits, and has no leading zero. A number below ten is its single digit, so 0 renders as "0". |
| `Json.NatToStringValue` | src/chatbot_with_tools.py:94 | The rendering read back as decimal digits is the number rendered, so "MCP server returned status N" names N itself. |
| `Registry.StoredSchema` | mcp_server/tools.py:20-24 | The stored schema is always truthy. A truthy given schema is kept. A missing one, and a given one that is falsy (such as `{}`), becomes the empty-object default. |
| `Registry.ToolRegistry.constructor` | mcp_server/tools.py:7 | The registry starts empty and valid. |
| `Registry.ToolRegistry.RegisterTool` | mcp_server/tools.py:10-28 | Registering replaces the entry for the name. A new name goes to the end of the order; a known name keeps its place. The decorator returns the function unchanged. Validity is kept: names are unique and name the entries they key. |
| `Registry.ToolRegistry.GetToolsList` | mcp_server/tools.py:31-40 | There is one descriptor per registered name, in registration order. Each descriptor is that entry without its function. |
| `Registry.ToolRegistry.CallTool` | mcp_server/tools.py:43-52 | An unknown name gives `{"error": "Unknown tool: <name>"}`. A `TypeError` gives `{"error": "Invalid parameters: <text>"}`. Any other outcome of the function passes through unchanged. A `TypeError` never escapes. |
| `Registry.SchemasStoredAsGiven` | mcp_server/tools.py:57-112 | The three built-in schemas are stored exactly as written, since none is empty. |
| `Registry.LoadTools` | mcp_server/tools.py:57-112 | Loading the module registers the three tools in source order, each with its description, schema and argument binding. |
| `Registry.CurrentTimeBinding` | mcp_server/tools.py:50-51 | `get_current_time(**params)` binds exactly when no keyword is given, and then returns the clock reading. Otherwise it raises the binding `TypeError`. |
| `Registry.CalculateBinding` | mcp_server/tools.py:50-51 | `calculate(**params)` binds exactly when `expression` is the only keyword, and then evaluates it. A missing or extra keyword raises the binding `TypeError`. |
| `Registry.ListFilesBinding` | mcp_server/tools.py:50-51 | `list_files(**params)` binds exactly when no keyword other than `directory` is given. Without `directory` it lists ".". Otherwise it raises the binding `TypeError`. |
| `Registry.BuiltinListing` | mcp_server/tools.py:31-40 | After loading, the listing is exactly the three built-in descriptors, in source order. |
| `HttpServer.ParseToolRequest` | mcp_server/server.py:11-13 | A body validates exactly when `tool` is a string and `params`, if present, is an object. A missing `params` becomes `{}`. |
| `HttpServer.ListTools` | mcp_server/server.py:21-25 | `GET /tools` answers a dictionary whose only key is `tools`. Its value lists the bare names of the three built-in tools in registration order, with no descriptions or schemas. |
| `HttpServer.GetTools` | mcp_server/server.py:21-25 | The endpoint always answers 200, and its JSON body is that name dictionary, not a list. |
| `HttpServer.CallTool` | mcp_server/server.py:28-40 | Each known name calls its tool. `calculate` defaults `expression` to "" and `list_files` defaults `directory` to ".". The time tool ignores all parameters. Any other name gives `{"error": "Unknown tool"}`. |
| `HttpServer.PostCall` | mcp_server/server.py:28-40 | The endpoint answers 200 exactly for a valid body, with the dispatch result. Otherwise it answers 422. |
| `HttpServer.CatalogPayload` | mcp_server/tools.py:31-40 | The wire form of a catalog is a list holding each descriptor's dictionary, in order. |
| `HttpServer.ListedNamesFollowRegistry` | mcp_server/server.py:21-25 | `GET /tools` lists exactly the registry's built-in names, in its order. |
| `HttpServer.ServerAgreesWithRegistry` | mcp_server/server.py:28-40 | Whenever the parameters bind to the tool's signature, the server and the loaded registry call the same tool body with the same argument. The two front ends share one clock reading, so the time tool's result agrees too. |
| `HttpServer.UnknownToolMessagesDiffer` | mcp_server/server.py:39-40 | For an unknown name the server's error text differs from the registry's, which names the tool. |
| `HttpServer.MissingExpressionDefaultsOnServerOnly` | mcp_server/server.py:33-34 | Without `expression`, the server evaluates "" where the registry reports invalid parameters. |
| `HttpServer.TimeParamsIgnoredOnServerOnly` | mcp_server/server.py:30-31 | With any parameters, the server still reads the clock where the registry reports invalid parameters. |
| `Conversation.FirstText` | src/chatbot_with_tools.py:142 | `content[0]['text']` succeeds exactly when the first block is a text block, and gives its text. |
| `Conversation.BlankIffStripEmpty` | src/chatbot_with_tools.py:108 | A message counts as blank exactly when `strip()` leaves nothing, with `str.isspace` whitespace removed from both ends. |
| `Conversation.Dispatch` | src/chatbot_with_tools.py:170-188 | Every block produced is a tool result, one per tool use, in order and with that use's id. |
| `Conversation.DispatchAnswersEachUse` | src/chatbot_with_tools.py:170-188 | The k-th result carries what the tool call returns for the k-th use, called in the transport state left by the calls before it. The final state is the one after the last call. |
| `Conversation.ToolRound` | src/chatbot_with_tools.py:156-221 | A tool round keeps the assistant's blocks and the dispatched results whatever follows. It makes exactly one follow-up request, which replays them with the catalog. The history grows by three exactly when the follow-up yields text, which is then the reply. Otherwise the reply starts with "Error processing tool results: ". |
| `Conversation.ToolExchange` | src/chatbot_with_tools.py:98-154 | A blank message changes nothing and calls nothing. Any other message is kept as a user turn, and the history grows by one to four turns. The first request replays the history plus the message, with the catalog only when it is truthy. Every request's messages are a prefix of the final history. |
| `Conversation.EndTurnAddsTwoTurns` | src/chatbot_with_tools.py:137-149 | A plain text answer adds exactly the user's turn and the assistant's text, which is also the reply. |
| `Conversation.FirstCallFailureAddsUserTurnOnly` | src/chatbot_with_tools.py:151-154 | A failed first call, or an answer without text, adds only the user's turn. The reply starts with "Error: " and no tool is called. |
| `Conversation.ToolRoundShape` | src/chatbot_with_tools.py:156-221 | A tool round adds the assistant's blocks verbatim, then one user turn answering each tool use by id and in order. The k-th answer carries the tool call's result for the k-th use. The follow-up request replays all of it and always carries the catalog. The history grows by four exactly when the follow-up yields text. |
| `Conversation.ExchangeKeepsToolUsesAnswered` | src/chatbot_with_tools.py:156-221 | If every tool use in the history was answered by the next turn, that stays true afterwards. It also holds for every history sent to the model during the exchange. |
| `Conversation.ExchangeKeepsAssistantFollowsUser` | src/chatbot_with_tools.py:98-221 | Every assistant turn directly follows a user turn, before and after an exchange. |
| `BasicChat.BasicExchange` | src/chatbot.py:67-127 | A blank message changes nothing. Any other message is kept and sent without tools. The history grows by two exactly when the model's first block is text, and that text is the reply. |
| `BasicChat.FailureReply` | src/chatbot.py:116-127 | Throttling is always answered by the fixed rate-limit text. A validation error and any other exception are answered by their label ("Validation error: " or "Unexpected error: ") followed by the exception's message. |
| `BasicChat.BasicExchangeKeepsShape` | src/chatbot.py:80-111 | The plain chatbot's history stays text-only, and every assistant turn follows a user turn. |
| `BasicChat.FailureAnswersByKind` | src/chatbot.py:104-127 | A failed call keeps only the user's turn, and so does an answer whose first block holds no text. The reply is "Validation error: " plus the message, the fixed rate-limit text, or "Unexpected error: " plus the message, according to the exception class. A missing text is answered by "Unexpected error: " plus the `IndexError` or `KeyError` text. |
| `BasicChat.Chatbot.constructor` | src/chatbot.py:43-65 | The chatbot starts with an empty history. |
| `BasicChat.Chatbot.SendMessage` | src/chatbot.py:67-127 | The new history, the reply and the requests made are exactly those of `BasicExchange`. |
| `BasicChat.Chatbot.ResetConversation` | src/chatbot.py:129-132 | The history becomes empty. |
| `BasicChat.Chatbot.GetConversationLength` | src/chatbot.py:134-136 | Answers the number of turns kept. |
| `StdioClient.Encode` | src/chatbot_with_fastmcp.py:49-66 | Every message is written with `"jsonrpc": "2.0"`. It carries an `id` exactly when it is a request, so a notification has none. |
| `StdioClient.EncodeDecodeRoundTrip` | src/chatbot_with_fastmcp.py:49-66 | A JSON-RPC peer reads each written message back as the same request or notification. |
| `StdioClient.Receive` | src/chatbot_with_fastmcp.py:83-93 | While output lines remain, a read consumes exactly one line. It gives the decoded value, or `{"error": msg}` when the line does not decode. At end of output the result is `{"error": "No response from server"}` and nothing is consumed. |
| `StdioClient.SendStep` | src/chatbot_with_fastmcp.py:76-93 | Writing to a closed input raises and changes nothing. Otherwise the message is logged, the read position advances by one while lines remain, and the response is what `Receive` gives. |
| `StdioClient.InitialSession` | src/chatbot_with_fastmcp.py:47-69 | After the handshake, id 1 has been used and the log is `initialize` followed by the `initialized` notification. The session is open, and one output line has been read if there was one. Its answer is ignored. |
| `StdioClient.ClaudeTool` | src/chatbot_with_fastmcp.py:112-116 | A tool converts exactly when it is an object with `name`, `description` and `inputSchema`. The result has `name`, `description` and `input_schema`. |
| `StdioClient.ClaudeToolList` | src/chatbot_with_fastmcp.py:110-117 | The list converts exactly when every element does, element by element and in order. Otherwise it raises the first failing element's exception. |
| `StdioClient.ConvertTools` | src/chatbot_with_fastmcp.py:111-116 | A list converts as above. Among other values only `{}` and `""` convert, each to no tools. Any other dictionary or string raises the string-index error, because iterating it yields strings. `None`, booleans and numbers raise "'<type>' object is not iterable". |
| `StdioClient.ListToolsResult` | src/chatbot_with_fastmcp.py:105-118 | A response without `result`, or whose result lacks `tools`, gives no tools. Otherwise `result.tools` is converted. |
| `StdioClient.ListToolsStep` | src/chatbot_with_fastmcp.py:95-118 | Listing always uses up the next id. On a closed input it raises the closed-file error. Otherwise the `tools/list` request is logged and the next line's response is converted by `ListToolsResult`. |
| `StdioClient.EvalOrWrap` | src/chatbot_with_fastmcp.py:138-142 | A text that evaluates gives its value. Anything else comes back as `{"result": text}`. |
| `StdioClient.CallToolResult` | src/chatbot_with_fastmcp.py:133-144 | No `result`, no `content`, or empty content gives `{"error": "Failed to get result"}`. Otherwise the first item's `text` (default "{}") is evaluated or wrapped. |
| `StdioClient.CallToolStep` | src/chatbot_with_fastmcp.py:120-144 | A call always uses up the next id. On a closed input it raises the closed-file error. Otherwise the `tools/call` request with the name and arguments is logged, and the next line's response is extracted by `CallToolResult`. |
| `StdioClient.InitialSessionValid` | src/chatbot_with_fastmcp.py:41-69 | After the handshake, the session is valid and open, and the last id handed out is 1. |
| `StdioClient.RequestIdsDistinct` | src/chatbot_with_fastmcp.py:71-74 | No two requests written share an id. |
| `StdioClient.ListToolsKeepsValid` | src/chatbot_with_fastmcp.py:95-103 | Listing tools keeps the session valid and uses up exactly one id. |
| `StdioClient.CallToolKeepsValid` | src/chatbot_with_fastmcp.py:120-131 | Calling a tool keeps the session valid and uses up exactly one id. |
| `StdioClient.CallToolReadsMatchingLine` | src/chatbot_with_fastmcp.py:76-93 | On an open session, request k is answered by output line k - 1 when there is one. Otherwise it gets the no-response error. Either way the request is logged. |
| `StdioClient.ClosedSessionCallRaises` | src/chatbot_with_fastmcp.py:146-152 | After closing, a call still uses up an id. It raises the closed-file error and writes and reads nothing. |
| `StdioClient.FastMCPClient.constructor` | src/chatbot_with_fastmcp.py:26-45 | The new client's state is the post-handshake session, which is valid. |
| `StdioClient.FastMCPClient.NextId` | src/chatbot_with_fastmcp.py:71-74 | The id counter goes up by one and the new value is returned. Nothing else changes. |
| `StdioClient.FastMCPClient.SendRequest` | src/chatbot_with_fastmcp.py:76-93 | The new state and the response are exactly those of `SendStep`. |
| `StdioClient.FastMCPClient.ListTools` | src/chatbot_with_fastmcp.py:95-118 | Validity is kept. The new state and the result are exactly those of `ListToolsStep`. |
| `StdioClient.ConvertToolList` | src/chatbot_with_fastmcp.py:110-117 | The conversion loop yields exactly `ClaudeToolList` of the list. |
| `StdioClient.FastMCPClient.CallTool` | src/chatbot_with_fastmcp.py:120-144 | Validity is kept. The new state and the result are exactly those of `CallToolStep`. |
| `StdioClient.FastMCPClient.Close` | src/chatbot_with_fastmcp.py:146-152 | Only the closed flag changes, and validity is kept. |
| `HttpChat.LoadedTools` | src/chatbot_with_tools.py:68-81 | The catalog is the decoded body of a 200 answer when `len` applies to it. Anything else gives the empty list, including a 200 body of `null`, a boolean or a number. A truthy catalog is a list, a string or a dictionary. |
| `HttpChat.CallMcpTool` | src/chatbot_with_tools.py:83-96 | A 200 answer gives its decoded body. Another status gives "MCP server returned status N". A decode failure or connection failure gives its message as an error value. |
| `HttpChat.CallReachesServerDispatch` | src/chatbot_with_tools.py:83-96 | Against the real server, a call with object input returns exactly the server's dispatch result. Any other input yields "MCP server returned status 422". |
| `HttpChat.HttpResultsAreCallAnswers` | src/chatbot_with_tools.py:170-188 | Over HTTP, the k-th tool result answers the k-th tool use by id. It carries `_call_mcp_tool`'s answer for that use's name and input. |
| `HttpChat.LoadedCatalogIsNameDictionary` | mcp_server/server.py:21-25 | As written, the loaded catalog is the dictionary of bare names. It is truthy, so every first request sends it to the model as `tools`. |
| `HttpChat.CorrectedGetTools` | mcp_server/tools.py:31-40 | The corrected `GET /tools` answers 200 with a list holding, in registration order, the dictionary form of each registered tool's descriptor. |
| `HttpChat.CorrectedCatalogReachesModel` | mcp_server/tools.py:31-40 | With the corrected endpoint, the model is offered the three registry descriptors as `{name, description, input_schema}` objects. |
| `HttpChat.ChatbotWithTools.constructor` | src/chatbot_with_tools.py:26-66 | The catalog is what `LoadedTools` makes of the `GET /tools` answer. The history starts empty. |
| `HttpChat.ChatbotWithTools.SendMessage` | src/chatbot_with_tools.py:98-154 | The new history, the reply and the requests made are exactly those of `ToolExchange` over HTTP tool calls. |
| `HttpChat.ChatbotWithTools.HandleToolUse` | src/chatbot_with_tools.py:156-221 | The dispatch loop and follow-up give exactly `ToolRound`'s history, reply and requests. |
| `HttpChat.ChatbotWithTools.ResetConversation` | src/chatbot_with_tools.py:223-226 | The history becomes empty. |
| `StdioChat.McpCall` | src/chatbot_with_fastmcp.py:222-231 | Without a client, the answer is `{"error": "FastMCP client not available"}`. With one, the session advances as `call_tool` does and exactly one id is used. The answer is the client's result, or `{"error": msg}` when it raises (the closed-file error on a closed client). |
| `StdioChat.McpCallAnswersFromLine` | src/chatbot_with_fastmcp.py:222-231 | On a valid open client, the k-th tool call is answered from output line k - 1, as `call_tool` extracts it, or from the no-response error once the output is exhausted. |
| `StdioChat.LoadToolsFrom` | src/chatbot_with_fastmcp.py:209-220 | Without a client there are no tools. With one, the listed tools are used, or none when listing raises. |
| `StdioChat.McpCallKeepsLinkValid` | src/chatbot_with_fastmcp.py:222-231 | A tool call keeps the client's session valid. |
| `StdioChat.DispatchKeepsLinkValid` | src/chatbot_with_fastmcp.py:304-319 | However many tool uses a reply holds, the session stays valid through them all. |
| `StdioChat.NoClientAnswersUnavailable` | src/chatbot_with_fastmcp.py:224-225 | Without a client, every tool use is answered with the unavailability error. |
| `StdioChat.ExchangeKeepsLinkValid` | src/chatbot_with_fastmcp.py:233-352 | A whole exchange keeps the session valid. |
| `StdioChat.ToolsOfferedIffListed` | src/chatbot_with_fastmcp.py:259-261 | The first request offers tools exactly when the server listed at least one. |
| `StdioChat.ChatbotWithFastMCP.constructor` | src/chatbot_with_fastmcp.py:158-207 | Without a server there is no client and no tool. With one, a fresh client is started and its listed tools are loaded. |
| `StdioChat.ChatbotWithFastMCP.CallMcpTool` | src/chatbot_with_fastmcp.py:222-231 | The client's new state and the result are exactly those of `McpCall`. |
| `StdioChat.ChatbotWithFastMCP.SendMessage` | src/chatbot_with_fastmcp.py:233-289 | History, reply, requests and the client's state are exactly those of `ToolExchange` over the client. |
| `StdioChat.ChatbotWithFastMCP.HandleToolUse` | src/chatbot_with_fastmcp.py:291-352 | The dispatch loop over the client and the follow-up give exactly `ToolRound`'s outcome. |
| `StdioChat.ChatbotWithFastMCP.ResetConversation` | src/chatbot_with_fastmcp.py:354-357 | The history becomes empty. |
| `StdioChat.ChatbotWithFastMCP.Close` | src/chatbot_with_fastmcp.py:359-362 | The client, if any, is closed. |

## Left out

- Process start-up and I/O: `subprocess.Popen`, `terminate` and `wait` are not modelled, and neither are a server that dies (a broken pipe) or the HTTP timeouts. The child's output is a fixed sequence of lines. Closing is a flag on the write side.
- The AWS client: its construction, credentials, region and model id are configuration. The gateway is a deterministic function of the request, so retries and nondeterministic answers are not modelled.
- A response body without a `content` key: it is not modelled, because a reply is always a stop reason plus a block list.
- `json.dumps` of a tool result: the model keeps the value itself as the tool-result content. A result that cannot be serialised (a non-JSON value coming out of `eval`) is not modelled.
- Floating-point numbers: JSON numbers are integers only.
- The text of CPython's argument-binding `TypeError`: it is an abstract function of the tool name and the arguments.
- The bodies of the three tools (clock, expression evaluation, directory listing): they are abstract functions. `fastmcp_server/server.py` is not part of this model.
- The contents of the 422 validation report: it is not modelled.
- Dictionary key order: it is not modelled beyond the registry's own order.
- Logging, the `main` read loops, `Config.validate` and the `GET /` health endpoint: these are not modelled. The HTTP chatbot's unused `text_response` variable is not modelled either.
- StdioClient.ListToolsResult: the contract states only the object-shaped responses. For other shapes the exception texts come from the `Json` accessors and are not restated.
- StdioClient.CallToolResult: the contract states only the object-shaped responses. For other shapes the exception texts come from the `Json` accessors and are not restated.

## Findings

| source | as written | input that shows it | evidently intended | confidence | as-written member | corrected member |
|---|---|---|---|---|---|---|
| mcp_server/server.py:21-25 | `GET /tools` answers `{"tools": [names]}`. The HTTP chatbot loads it as its tool catalog because it is truthy, and sends it to the model as `tools` on every first request. | Any non-blank message to the HTTP chatbot while the tool server runs. | A list of tool descriptors `{name, description, input_schema}`, which is what the registry's `get_tools_list` produces. | not executed | `HttpChat.LoadedCatalogIsNameDictionary` | `HttpChat.CorrectedCatalogReachesModel` |
