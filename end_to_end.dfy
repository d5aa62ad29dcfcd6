/** The client and the tool server together: the requests the bridge sends
    are the requests the handler serves, and what the handler answers is what
    the bridge puts in the transcript. */
module EndToEnd {
  import opened Wrappers
  import opened Json
  import opened JsSemantics
  import opened PhpSemantics
  import opened McpServer
  import opened McpServerProperties
  import opened McpClient

  /** The reply the bridge sees for an outcome of the handler: the route's
      status and body, with `text` the body as it arrived on the wire. */
  function Relay(o: Outcome, text: string): McpReply {
    Received(RouteReply(o).status, text, RouteReply(o).body)
  }

  /** The functions the bridge offers the model for the server's tools. */
  const OfferedFunctions: seq<Json> := [
    FunctionTool(JStr("increment"), JStr("Increments the counter by one.")),
    FunctionTool(JStr("status"), JStr("Returns the current counter value.")),
    FunctionTool(JStr("reset"), JStr("Resets the counter to zero."))]

  /** The server answers the bridge's discovery request with its tool list and
      leaves the counter alone. */
  lemma DiscoveryAnswered(c: int, now: string)
    ensures Handle(c, DiscoveryRequest, now) == Step(Sent(Response(Result(ToolsListResult), JStr("php-client"))), c)
  {
    assert Accepted(DiscoveryRequest);
    assert DiscoveryRequest.fields["method"] == JStr("tools/list");
  }

  /** The bridge maps the server's tool list to the three counter tools, in
      the server's order, with the server's names and descriptions. */
  lemma ToolListMapped()
    ensures var list := ToolsListResult.fields["tools"];
      list.JArr? && MapTools(list.items) == Some(OfferedFunctions)
  {
    var items := ToolsListResult.fields["tools"].items;
    MapThree(items[0], items[1], items[2]);
    assert items == [items[0], items[1], items[2]];
    assert Member(items[0], "name") == JStr("increment") && Member(items[0], "description") == JStr("Increments the counter by one.");
    assert Member(items[1], "name") == JStr("status") && Member(items[1], "description") == JStr("Returns the current counter value.");
    assert Member(items[2], "name") == JStr("reset") && Member(items[2], "description") == JStr("Resets the counter to zero.");
  }

  /** The mapping of a list of three tools. */
  lemma MapThree(a: Json, b: Json, c: Json)
    requires !a.JStr? && !b.JStr? && !c.JStr?
    ensures MapTools([a, b, c]) == Some([
      FunctionTool(Member(a, "name"), Member(a, "description")),
      FunctionTool(Member(b, "name"), Member(b, "description")),
      FunctionTool(Member(c, "name"), Member(c, "description"))])
  {
    var tools := [a, b, c];
    assert forall k :: 0 <= k < |tools| ==> !tools[k].JStr?;
    MapToolsKeepsTools(tools);
    var out := MapTools(tools).value;
    assert out[0] == FunctionTool(Member(a, "name"), Member(a, "description"));
    assert out[1] == FunctionTool(Member(b, "name"), Member(b, "description"));
    assert out[2] == FunctionTool(Member(c, "name"), Member(c, "description"));
    assert |out| == 3;
    assert out == [out[0], out[1], out[2]];
  }

  /** The bridge finds the tool list in an encoded `tools/list` answer. */
  lemma ToolListDiscovered(id: Json)
    ensures DiscoveredTools(Encode(Response(Result(ToolsListResult), id))) == Some(ToolsListResult.fields["tools"].items)
  {
    var body := Encode(Response(Result(ToolsListResult), id));
    var list := ToolsListResult.fields["tools"];
    assert Offset(body, Name("result")) == Some(ToolsListResult);
    assert Offset(ToolsListResult, Name("tools")) == Some(list);
    assert Isset(list, []) == Some(list);
  }

  /** Discovery: the server answers the bridge's `tools/list` request without
      touching the counter, and the bridge offers the three counter tools, in
      the server's order, with the server's names and descriptions and with an
      empty parameter schema equal to the server's input schema. */
  lemma DiscoveryOffersServerTools(c: int, now: string)
    ensures Handle(c, DiscoveryRequest, now).counter == c
    ensures var tools := DiscoveredTools(RouteReply(Handle(c, DiscoveryRequest, now).outcome).body);
      tools.Some? && MapTools(tools.value) == Some(OfferedFunctions)
    ensures EmptyParameters == EmptyInputSchema
  {
    DiscoveryAnswered(c, now);
    ToolListDiscovered(JStr("php-client"));
    ToolListMapped();
  }

  /** Every request the bridge sends for a tool call is a `tools/call` the
      handler accepts, naming the function the model asked for. */
  lemma ToolCallRequestAccepted(name: string, requestId: string)
    ensures IsToolCall(ToolCallRequest(name, requestId), JStr(name))
  {
  }

  /** The bridge reads the text of a successful `tools/call` reply: the
      stringified tool output. */
  lemma ResultTextRead(id: Json, name: Json, output: ToolOutput, isError: bool, text: string)
    ensures ToolOutputText(Relay(Sent(Response(Result(ToolResult(id, name, output, isError)), id)), text))
         == JStr(OutputText(output))
  {
    var result := ToolResult(id, name, output, isError);
    var body := Encode(Response(Result(result), id));
    var block := JObj(map["type" := JStr("text"), "text" := JStr(OutputText(output))]);
    assert Offset(body, Name("result")) == Some(result);
    assert Offset(result, Name("content")) == Some(JArr([block]));
    assert Offset(JArr([block]), Index(0)) == Some(block);
    assert Offset(block, Name("text")) == Some(JStr(OutputText(output)));
    assert Isset(block, ResultTextPath[3..]) == Some(JStr(OutputText(output)));
  }

  /** An error reply has no result, and the bridge records a format error
      quoting the reply. */
  lemma ErrorReplyRead(e: RpcError, id: Json, text: string)
    ensures ToolOutputText(Relay(Sent(Response(Error(e), id)), text)) == JStr(FormatErrorPrefix + text)
  {
    assert Offset(Encode(Response(Error(e), id)), Name("result")) == None;
  }

  /** What ends up in the transcript for one tool call: the stringified output
      of the tool the server ran (and the server's counter moves as that tool
      says); a call with an empty function name is rejected by the server, and
      the bridge records a format error quoting the reply. */
  lemma ToolCallTextReachesTranscript(c: int, name: string, requestId: string, now: string, text: string)
    ensures var s := Handle(c, ToolCallRequest(name, requestId), now);
      var run := RunTool(c, JStr(name), name);
      && (name == "" ==> s.counter == c && ToolOutputText(Relay(s.outcome, text)) == JStr(FormatErrorPrefix + text))
      && (name != "" ==> s.counter == run.counter && ToolOutputText(Relay(s.outcome, text)) == JStr(OutputText(run.output)))
  {
    if name == "" {
      EmptyNameRead(c, requestId, now, text);
    } else if name in ToolNames {
      CounterToolRead(c, name, requestId, now, text);
    } else {
      UnknownToolRead(c, name, requestId, now, text);
    }
  }

  lemma EmptyNameRead(c: int, requestId: string, now: string, text: string)
    ensures var s := Handle(c, ToolCallRequest("", requestId), now);
      s.counter == c && ToolOutputText(Relay(s.outcome, text)) == JStr(FormatErrorPrefix + text)
  {
    var body := ToolCallRequest("", requestId);
    ToolCallRequestAccepted("", requestId);
    MissingToolNameRejected(c, body, now);
    ErrorReplyRead(RpcError(InvalidParams, MissingToolNameMessage), RequestId(body), text);
  }

  lemma CounterToolRead(c: int, name: string, requestId: string, now: string, text: string)
    requires name in ToolNames
    ensures var s := Handle(c, ToolCallRequest(name, requestId), now);
      var run := RunTool(c, JStr(name), name);
      s.counter == run.counter && ToolOutputText(Relay(s.outcome, text)) == JStr(OutputText(run.output))
  {
    var body := ToolCallRequest(name, requestId);
    ToolCallRequestAccepted(name, requestId);
    CounterToolsAct(c, body, now, name);
    var after := if name == "increment" then c + 1 else if name == "reset" then 0 else c;
    var message := if name == "increment" then Incremented else if name == "reset" then WasReset else CurrentValue;
    CounterToolRun(c, name);
    ResultTextRead(RequestId(body), JStr(name), Counted(after, message), false, text);
  }

  /** `RunTool` for the three counter tools, in the terms of `CounterToolsAct`. */
  lemma CounterToolRun(c: int, name: string)
    requires name in ToolNames
    ensures var after := if name == "increment" then c + 1 else if name == "reset" then 0 else c;
      var message := if name == "increment" then Incremented else if name == "reset" then WasReset else CurrentValue;
      RunTool(c, JStr(name), name) == ToolRun(Counted(after, message), false, after)
  {
  }

  lemma UnknownToolRead(c: int, name: string, requestId: string, now: string, text: string)
    requires name != "" && name !in ToolNames
    ensures var s := Handle(c, ToolCallRequest(name, requestId), now);
      var run := RunTool(c, JStr(name), name);
      s.counter == run.counter && ToolOutputText(Relay(s.outcome, text)) == JStr(OutputText(run.output))
  {
    var body := ToolCallRequest(name, requestId);
    ToolCallRequestAccepted(name, requestId);
    UnknownToolIsToolError(c, body, now, JStr(name));
    UnknownToolRun(c, name);
    ResultTextRead(RequestId(body), JStr(name), ToolFailure(ToolNotFoundPrefix + name), true, text);
  }

  /** `RunTool` for a name that is not a counter tool. */
  lemma UnknownToolRun(c: int, name: string)
    requires name !in ToolNames
    ensures RunTool(c, JStr(name), name) == ToolRun(ToolFailure(ToolNotFoundPrefix + name), true, c)
  {
  }

  /** The replies the bridge sees for a run of handler outcomes. */
  function Relayed(outcomes: seq<Outcome>, texts: seq<string>): (r: seq<McpReply>)
    requires |texts| == |outcomes|
    ensures |r| == |outcomes|
  {
    seq(|outcomes|, k requires 0 <= k < |outcomes| => Relay(outcomes[k], texts[k]))
  }

  /** The bridge reads the text of the reply to an `increment` call. */
  lemma IncrementReplyRead(body: Json, value: int, text: string)
    ensures ToolOutputText(Relay(IncrementReply(body, value), text)) == JStr(OutputText(Counted(value, Incremented)))
  {
    ResultTextRead(RequestId(body), JStr("increment"), Counted(value, Incremented), false, text);
  }

  /** When the model asks for `increment` n times, the server's counter rises
      by n, and the k-th tool message of the transcript carries the k-th
      call's id and reports the counter plus k + 1. */
  lemma {:induction false} IncrementCallsReachTranscript(c: int, calls: seq<ToolCall>, ids: seq<string>, texts: seq<string>, now: string)
    requires |ids| == |calls| && |texts| == |calls|
    requires forall k :: 0 <= k < |calls| ==> calls[k].name == "increment"
    ensures var served := Serve(c, CallRequests(calls, ids), now);
      && served.counter == c + |calls|
      && var messages := ToolMessages(calls, Relayed(served.outcomes, texts));
         && |messages| == |calls|
         && forall k :: 0 <= k < |calls| ==>
              messages[k] == ToolMessage(calls[k].id, "increment", JStr(OutputText(Counted(c + k + 1, Incremented))))
  {
    var requests := CallRequests(calls, ids);
    IncrementRequestsAreToolCalls(calls, ids);
    IncrementsCount(c, requests, now);
    IncrementRepliesRead(c, calls, requests, texts);
  }

  /** The transcript built from the replies to a run of `increment` calls. */
  lemma IncrementRepliesRead(c: int, calls: seq<ToolCall>, requests: seq<Json>, texts: seq<string>)
    requires |requests| == |calls| && |texts| == |calls|
    ensures var messages := ToolMessages(calls, Relayed(IncrementReplies(c, requests), texts));
      && |messages| == |calls|
      && forall k :: 0 <= k < |calls| ==>
           messages[k] == ToolMessage(calls[k].id, calls[k].name, JStr(OutputText(Counted(c + k + 1, Incremented))))
  {
    var replies := Relayed(IncrementReplies(c, requests), texts);
    ToolMessagesFollowCalls(calls, replies);
    forall k | 0 <= k < |calls|
      ensures ToolOutputText(replies[k]) == JStr(OutputText(Counted(c + k + 1, Incremented)))
    {
      IncrementReplyReadAt(c, requests, texts, k);
    }
  }

  lemma IncrementReplyReadAt(c: int, requests: seq<Json>, texts: seq<string>, k: int)
    requires |texts| == |requests| && 0 <= k < |requests|
    ensures ToolOutputText(Relayed(IncrementReplies(c, requests), texts)[k]) == JStr(OutputText(Counted(c + k + 1, Incremented)))
  {
    var outcomes := IncrementReplies(c, requests);
    IncrementRepliesAt(c, requests, k);
    assert Relayed(outcomes, texts)[k] == Relay(IncrementReply(requests[k], c + k + 1), texts[k]);
    IncrementReplyRead(requests[k], c + k + 1, texts[k]);
  }

  lemma IncrementRequestsAreToolCalls(calls: seq<ToolCall>, ids: seq<string>)
    requires |ids| == |calls|
    requires forall k :: 0 <= k < |calls| ==> calls[k].name == "increment"
    ensures forall k :: 0 <= k < |calls| ==> IsToolCall(CallRequests(calls, ids)[k], JStr("increment"))
  {
    forall k | 0 <= k < |calls|
      ensures IsToolCall(CallRequests(calls, ids)[k], JStr("increment"))
    {
      ToolCallRequestAccepted(calls[k].name, ids[k]);
    }
  }
}
