/** The tool-call bridge of the PHP client (`AI::mcp`): it discovers the
    server's tools, offers them to the chat-completion service as functions,
    calls the server once per tool call the model asks for, and chooses the
    answer after a second completion. The HTTP requests and the two
    completions are inputs: the discovery reply, the first completion, one
    tool-server reply and one request id (`uniqid()`) per tool call, and the
    second completion. What the bridge sends and what it echoes is its
    output. */
module McpClient {
  import opened Wrappers
  import opened Json
  import opened PhpSemantics

  const ChatModel: string := "gpt-3.5-turbo"
  const DefaultQuery: string := "Increase the number by one."
  const CallErrorPrefix: string := "Error calling MCP server: "
  const FormatErrorPrefix: string := "Error: Invalid JSON-RPC response format from MCP server: "
  const SecondToolCallAdvice: string :=
    "I attempted to perform your request, but the AI suggested another tool call after the first, which is not currently handled in this turn. Please try rephrasing."
  const NoResponseApology: string := "I'm sorry, I couldn't produce a response to your request."

  /** The request that discovers the server's tools. */
  const DiscoveryRequest: Json :=
    JObj(map["jsonrpc" := JStr("2.0"), "method" := JStr("tools/list"), "id" := JStr("php-client")])

  // ---------------------------------------------------------------------
  // Discovery and the function-calling schema.

  const ToolsPath: seq<Key> := [Name("result"), Name("tools")]

  /** `$data['result']['tools'] ?? []`, as the list `array_map` runs over: an
      absent or null list is empty; a list that is not a JSON array is None
      (for a scalar `array_map` raises a TypeError). */
  function DiscoveredTools(data: Json): (r: Option<seq<Json>>)
    ensures Isset(data, ToolsPath).None? ==> r == Some([])
    ensures Isset(data, ToolsPath).Some? && Isset(data, ToolsPath).value.JArr? ==>
      r == Some(Isset(data, ToolsPath).value.items)
    ensures r.None? <==> Isset(data, ToolsPath).Some? && !Isset(data, ToolsPath).value.JArr?
  {
    match Isset(data, ToolsPath)
    case None => Some([])
    case Some(JArr(items)) => Some(items)
    case Some(_) => None
  }

  /** `{type: "object", properties: {}, required: []}` */
  const EmptyParameters: Json :=
    JObj(map["type" := JStr("object"), "properties" := EmptyObject, "required" := JArr([])])

  /** A tool in the chat service's function-calling schema. */
  function FunctionTool(name: Json, description: Json): Json {
    JObj(map[
      "type" := JStr("function"),
      "function" := JObj(map["name" := name, "description" := description, "parameters" := EmptyParameters])])
  }

  /** The `array_map` closure for one discovered tool; None when reading its
      `name` raises (the tool is a string). */
  function MapTool(tool: Json): Option<Json> {
    match (ReadOffset(tool, "name"), ReadOffset(tool, "description"))
    case (Some(name), Some(description)) => Some(FunctionTool(name, description))
    case _ => None
  }

  /** `array_map` of the closure over the discovered tools. */
  function MapTools(tools: seq<Json>): Option<seq<Json>>
    decreases tools
  {
    if tools == [] then Some([])
    else match (MapTool(tools[0]), MapTools(tools[1..]))
      case (Some(t), Some(rest)) => Some([t] + rest)
      case _ => None
  }

  /** The member `key` of a decoded JSON value as PHP reads it: null when
      the value is not an object holding that key. */
  function Member(tool: Json, key: string): Json {
    if tool.JObj? && key in tool.fields then tool.fields[key] else JNull
  }

  /** The mapping fails exactly when some discovered tool is a string;
      otherwise it keeps the length and the order of the list, and the k-th
      function is of type "function", has the k-th tool's name and
      description, and takes the empty-object parameters. */
  lemma {:induction false} MapToolsKeepsTools(tools: seq<Json>)
    ensures MapTools(tools).Some? <==> forall k :: 0 <= k < |tools| ==> !tools[k].JStr?
    ensures MapTools(tools).Some? ==>
      && |MapTools(tools).value| == |tools|
      && forall k :: 0 <= k < |tools| ==>
           MapTools(tools).value[k] == FunctionTool(Member(tools[k], "name"), Member(tools[k], "description"))
    decreases tools
  {
    if tools != [] {
      var tail := tools[1..];
      assert forall k :: 0 <= k < |tail| ==> tail[k] == tools[k + 1];
      MapToolsKeepsTools(tail);
      if MapTools(tools).Some? {
        var out := MapTools(tools).value;
        assert out == [MapTool(tools[0]).value] + MapTools(tail).value;
        forall k | 0 <= k < |tools|
          ensures out[k] == FunctionTool(Member(tools[k], "name"), Member(tools[k], "description"))
        {
          if k > 0 {
            assert out[k] == MapTools(tail).value[k - 1];
          }
        }
      }
    }
  }

  /** What every mapped function looks like. */
  lemma FunctionToolShape(name: Json, description: Json)
    ensures var f := FunctionTool(name, description);
      && f.fields["type"] == JStr("function")
      && f.fields["function"].fields["name"] == name
      && f.fields["function"].fields["description"] == description
      && f.fields["function"].fields["parameters"] == EmptyParameters
  {
  }

  // ---------------------------------------------------------------------
  // The chat-completion service, as the bridge sees it.

  datatype ToolCall = ToolCall(id: string, name: string, arguments: string)

  /** The message of a choice: `content` (a string or null) and `toolCalls`. */
  datatype ChatMessage = ChatMessage(content: Option<string>, toolCalls: seq<ToolCall>)

  datatype Completion = Completion(choices: seq<ChatMessage>)

  /** `$response->choices[0]->message`; with no choices every property read
      is null, which `empty` and `echo` treat as an empty message. */
  function FirstMessage(c: Completion): ChatMessage {
    if |c.choices| > 0 then c.choices[0] else ChatMessage(None, [])
  }

  /** An entry of the transcript sent for the second completion. */
  datatype Message =
    | UserMessage(text: string)
    | AssistantMessage(message: ChatMessage)
    | ToolMessage(toolCallId: string, name: string, output: Json)

  datatype ChatRequest = ChatRequest(model: string, messages: seq<Message>, tools: Option<seq<Json>>, toolChoice: Option<string>)

  // ---------------------------------------------------------------------
  // Tool calls.

  /** The `tools/call` request for the function `name`; the parsed arguments
      are not sent, `arguments` is always the empty object. */
  function ToolCallRequest(name: string, requestId: string): Json {
    JObj(map[
      "jsonrpc" := JStr("2.0"),
      "method" := JStr("tools/call"),
      "params" := JObj(map["name" := JStr(name), "arguments" := EmptyObject]),
      "id" := JStr(requestId)])
  }

  /** The requests sent for the tool calls, one per call, in order. */
  function CallRequests(calls: seq<ToolCall>, ids: seq<string>): (r: seq<Json>)
    requires |ids| == |calls|
    ensures |r| == |calls|
    ensures forall k :: 0 <= k < |calls| ==>
      && Member(r[k], "jsonrpc") == JStr("2.0")
      && Member(r[k], "method") == JStr("tools/call")
      && Member(Member(r[k], "params"), "name") == JStr(calls[k].name)
      && Member(Member(r[k], "params"), "arguments") == EmptyObject
      && Member(r[k], "id") == JStr(ids[k])
  {
    seq(|calls|, k requires 0 <= k < |calls| => ToolCallRequest(calls[k].name, ids[k]))
  }

  /** What the tool server's reply to one request was: no reply at all
      (`curl_exec` returned false, with `curl_error`), or a status code with a
      body text and `json_decode` of that text (null when it is not JSON). */
  datatype McpReply = Unreachable(curlError: string) | Received(status: int, text: string, decoded: Json)

  const ResultTextPath: seq<Key> := [Name("result"), Name("content"), Index(0), Name("text")]

  /** `$toolOutput` for one reply: an error text when the server could not be
      reached or did not answer 200; otherwise `result.content[0].text` when
      it is set, and an error text that quotes the reply when it is not. */
  function ToolOutputText(reply: McpReply): (r: Json)
    ensures (reply.Unreachable? || reply.status != 200) ==> r.JStr? && CallErrorPrefix <= r.s
    ensures reply.Received? && reply.status == 200 ==>
      if Isset(reply.decoded, ResultTextPath).Some? then r == Isset(reply.decoded, ResultTextPath).value
      else r == JStr(FormatErrorPrefix + reply.text)
    ensures !r.JNull?
  {
    match reply
    case Unreachable(e) => JStr(CallErrorPrefix + e)
    case Received(code, text, decoded) =>
      if code != 200 then JStr(CallErrorPrefix + "HTTP Code: " + Decimal(code) + ", Response: " + text)
      else match Isset(decoded, ResultTextPath)
        case Some(t) => t
        case None => JStr(FormatErrorPrefix + text)
  }

  /** The tool messages appended to the transcript, one per tool call. */
  function ToolMessages(calls: seq<ToolCall>, replies: seq<McpReply>): seq<Message>
    requires |replies| == |calls|
    decreases |calls|
  {
    if calls == [] then []
    else
      var n := |calls| - 1;
      ToolMessages(calls[..n], replies[..n]) + [ToolMessage(calls[n].id, calls[n].name, ToolOutputText(replies[n]))]
  }

  /** There is exactly one tool message per tool call, in the calls' order,
      carrying that call's id and function name and the text extracted from
      its reply. */
  lemma {:induction false} ToolMessagesFollowCalls(calls: seq<ToolCall>, replies: seq<McpReply>)
    requires |replies| == |calls|
    ensures |ToolMessages(calls, replies)| == |calls|
    ensures forall k :: 0 <= k < |calls| ==>
      ToolMessages(calls, replies)[k] == ToolMessage(calls[k].id, calls[k].name, ToolOutputText(replies[k]))
    decreases |calls|
  {
    if calls != [] {
      var n := |calls| - 1;
      ToolMessagesFollowCalls(calls[..n], replies[..n]);
      assert forall k :: 0 <= k < n ==> calls[..n][k] == calls[k] && replies[..n][k] == replies[k];
    }
  }

  /** One more tool call adds its tool message at the end. */
  lemma ToolMessagesSnoc(calls: seq<ToolCall>, replies: seq<McpReply>, i: int)
    requires |replies| == |calls| && 0 <= i < |calls|
    ensures ToolMessages(calls[..i + 1], replies[..i + 1])
         == ToolMessages(calls[..i], replies[..i]) + [ToolMessage(calls[i].id, calls[i].name, ToolOutputText(replies[i]))]
  {
    assert calls[..i + 1][..i] == calls[..i] && replies[..i + 1][..i] == replies[..i];
  }

  /** The transcript of the second turn: the user's message, the assistant's
      message holding the tool calls, then the tool messages. */
  function Transcript(query: string, assistant: ChatMessage, replies: seq<McpReply>): seq<Message>
    requires |replies| == |assistant.toolCalls|
  {
    [UserMessage(query), AssistantMessage(assistant)] + ToolMessages(assistant.toolCalls, replies)
  }

  // ---------------------------------------------------------------------
  // The answer.

  /** `echo` of the first completion's content: null echoes nothing. */
  function ContentText(content: Option<string>): string {
    if content.Some? then content.value else ""
  }

  /** The answer after the second turn: its content when that is not empty
      (in the sense of PHP's `empty`), else a fixed advice when the model
      asked for more tool calls, else a fixed apology. It is never empty. */
  function SecondAnswer(m: ChatMessage): (r: string)
    ensures !EmptyString(Some(r))
    ensures !EmptyString(m.content) ==> r == m.content.value
    ensures EmptyString(m.content) && m.toolCalls != [] ==> r == SecondToolCallAdvice
    ensures EmptyString(m.content) && m.toolCalls == [] ==> r == NoResponseApology
  {
    if !EmptyString(m.content) then m.content.value
    else if m.toolCalls != [] then SecondToolCallAdvice
    else NoResponseApology
  }

  datatype Answer = Echoed(text: string) | Aborted

  /** Everything one run of the bridge sends, and what it echoes. */
  datatype Exchange = Exchange(
    discovery: Json,
    firstRequest: Option<ChatRequest>,
    toolRequests: seq<Json>,
    secondRequest: Option<ChatRequest>,
    answer: Answer)

  /** `AI::mcp()`. `posted` is `$_POST['query']` (None when unset). */
  method Mcp(posted: Option<string>, discovered: Json, first: Completion,
             callIds: seq<string>, replies: seq<McpReply>, second: Completion)
    returns (x: Exchange)
    requires |callIds| == |FirstMessage(first).toolCalls|
    requires |replies| == |FirstMessage(first).toolCalls|
    ensures x.discovery == DiscoveryRequest
    ensures var tools := DiscoveredTools(discovered);
      var mapped := if tools.Some? then MapTools(tools.value) else None;
      var query := OrDefault(posted, DefaultQuery);
      var m := FirstMessage(first);
      if mapped.None? then
        x == Exchange(DiscoveryRequest, None, [], None, Aborted)
      else
        && x.firstRequest == Some(ChatRequest(ChatModel, [UserMessage(query)], Some(mapped.value), Some("auto")))
        && (m.toolCalls == [] ==>
              && x.toolRequests == [] && x.secondRequest == None
              && x.answer == Echoed(ContentText(m.content)))
        && (m.toolCalls != [] ==>
              && x.toolRequests == CallRequests(m.toolCalls, callIds)
              && x.secondRequest == Some(ChatRequest(ChatModel, Transcript(query, m, replies), None, None))
              && x.answer == Echoed(SecondAnswer(FirstMessage(second))))
  {
    var userQuery := OrDefault(posted, DefaultQuery);
    var mcpTools := DiscoveredTools(discovered);
    if mcpTools.None? {
      return Exchange(DiscoveryRequest, None, [], None, Aborted);
    }
    var toolsForOpenAI := MapTools(mcpTools.value);
    if toolsForOpenAI.None? {
      return Exchange(DiscoveryRequest, None, [], None, Aborted);
    }
    var firstRequest := ChatRequest(ChatModel, [UserMessage(userQuery)], Some(toolsForOpenAI.value), Some("auto"));
    var message := FirstMessage(first);
    if message.toolCalls == [] {
      return Exchange(DiscoveryRequest, Some(firstRequest), [], None, Echoed(ContentText(message.content)));
    }

    var messages, requests := CallTools(userQuery, message, callIds, replies);
    var secondRequest := ChatRequest(ChatModel, messages, None, None);
    x := Exchange(DiscoveryRequest, Some(firstRequest), requests, Some(secondRequest), Echoed(SecondAnswer(FirstMessage(second))));
  }

  /** Requests built one per call, in order, are `CallRequests`. */
  lemma RequestsAreCallRequests(calls: seq<ToolCall>, ids: seq<string>, requests: seq<Json>)
    requires |ids| == |calls| && |requests| == |calls|
    requires forall k :: 0 <= k < |calls| ==> requests[k] == ToolCallRequest(calls[k].name, ids[k])
    ensures requests == CallRequests(calls, ids)
  {
  }

  /** The state of the `foreach` after the first `i` tool calls: the
      transcript holds their tool messages after the user's and the
      assistant's, and the requests are theirs, in order. */
  predicate CallsDone(userQuery: string, message: ChatMessage, callIds: seq<string>, replies: seq<McpReply>,
                      i: nat, messages: seq<Message>, requests: seq<Json>)
    requires |callIds| == |message.toolCalls| && |replies| == |message.toolCalls| && i <= |message.toolCalls|
  {
    && messages == [UserMessage(userQuery), AssistantMessage(message)]
                   + ToolMessages(message.toolCalls[..i], replies[..i])
    && |requests| == i
    && forall k :: 0 <= k < i ==> requests[k] == ToolCallRequest(message.toolCalls[k].name, callIds[k])
  }

  /** One more tool call: its request and its tool message are appended. */
  lemma CallsDoneStep(userQuery: string, message: ChatMessage, callIds: seq<string>, replies: seq<McpReply>,
                      i: nat, messages: seq<Message>, requests: seq<Json>)
    requires |callIds| == |message.toolCalls| && |replies| == |message.toolCalls| && i < |message.toolCalls|
    requires CallsDone(userQuery, message, callIds, replies, i, messages, requests)
    ensures var call := message.toolCalls[i];
      CallsDone(userQuery, message, callIds, replies, i + 1,
                messages + [ToolMessage(call.id, call.name, ToolOutputText(replies[i]))],
                requests + [ToolCallRequest(call.name, callIds[i])])
  {
    ToolMessagesSnoc(message.toolCalls, replies, i);
  }

  /** After every tool call, the transcript and the requests are complete. */
  lemma CallsDoneAll(userQuery: string, message: ChatMessage, callIds: seq<string>, replies: seq<McpReply>,
                     messages: seq<Message>, requests: seq<Json>)
    requires |callIds| == |message.toolCalls| && |replies| == |message.toolCalls|
    requires CallsDone(userQuery, message, callIds, replies, |message.toolCalls|, messages, requests)
    ensures messages == Transcript(userQuery, message, replies)
    ensures requests == CallRequests(message.toolCalls, callIds)
  {
    var n := |message.toolCalls|;
    assert message.toolCalls[..n] == message.toolCalls && replies[..n] == replies;
    RequestsAreCallRequests(message.toolCalls, callIds, requests);
  }

  /** The `foreach` over the tool calls: one `tools/call` request per call,
      and the transcript grown by one tool message per call. */
  method CallTools(userQuery: string, message: ChatMessage, callIds: seq<string>, replies: seq<McpReply>)
    returns (messages: seq<Message>, requests: seq<Json>)
    requires |callIds| == |message.toolCalls| && |replies| == |message.toolCalls|
    ensures messages == Transcript(userQuery, message, replies)
    ensures requests == CallRequests(message.toolCalls, callIds)
  {
    var toolCalls := message.toolCalls;
    messages := [UserMessage(userQuery), AssistantMessage(message)];
    requests := [];
    for i := 0 to |toolCalls|
      invariant CallsDone(userQuery, message, callIds, replies, i, messages, requests)
    {
      var toolCall := toolCalls[i];
      var functionName := toolCall.name;
      var jsonRpcRequest := ToolCallRequest(functionName, callIds[i]);
      var toolOutput := ToolOutputText(replies[i]);
      CallsDoneStep(userQuery, message, callIds, replies, i, messages, requests);
      requests := requests + [jsonRpcRequest];
      messages := messages + [ToolMessage(toolCall.id, functionName, toolOutput)];
    }
    CallsDoneAll(userQuery, message, callIds, replies, messages, requests);
  }
}
