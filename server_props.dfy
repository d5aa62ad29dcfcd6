/** What the tool server's handler promises, stated over the specification
    `McpServer.Handle` (and so, through the contract of
    `McpServer.Server.HandleRequest`, over the handler itself). */
module McpServerProperties {
  import opened Wrappers
  import opened Json
  import opened JsSemantics
  import opened McpServer

  /** A request that gets past validation and the log line, and so reaches
      the method switch. */
  predicate Accepted(body: Json) {
    && IsValidRequest(body)
    && ToJsString(body.fields["method"]).Some?
    && ToJsString(RequestId(body)).Some?
  }

  /** An accepted `tools/call` request whose `params.name` is `name`. */
  predicate IsToolCall(body: Json, name: Json) {
    && Accepted(body)
    && body.fields["method"] == JStr("tools/call")
    && Prop(ParamsOf(body), "name") == Some(name)
  }

  /** The methods the switch handles. */
  const HandledMethods: set<string> := {"initialize", "tools/list", "tools/call", "echo", "getCurrentTime"}

  /** A request the handler lets escape as an exception: a `null` body, or a
      valid one whose method or id cannot be converted to a string. */
  predicate EscapesHandler(body: Json) {
    body.JNull? || (IsValidRequest(body) && !Accepted(body))
  }

  /** An accepted request is answered by the method switch, with the
      request's id. */
  lemma AcceptedIsDispatched(c: int, body: Json, now: string)
    requires Accepted(body)
    ensures var d := Dispatch(c, body.fields["method"], ToJsString(body.fields["method"]).value, ParamsOf(body), RequestId(body), now);
      Handle(c, body, now) == Step(Sent(Response(d.payload, RequestId(body))), d.counter)
  {
  }

  /** The `tools/call` case of the method switch. */
  lemma ToolsCallIsCallTool(c: int, methodText: string, params: Json, id: Json, now: string)
    ensures Dispatch(c, JStr("tools/call"), methodText, params, id, now) == CallTool(c, params, id)
  {
  }

  /** An accepted `tools/call` is answered by `CallTool`. */
  lemma ToolCallIsCallTool(c: int, body: Json, now: string, name: Json)
    requires IsToolCall(body, name)
    ensures var d := CallTool(c, ParamsOf(body), RequestId(body));
      Handle(c, body, now) == Step(Sent(Response(d.payload, RequestId(body))), d.counter)
  {
    AcceptedIsDispatched(c, body, now);
    ToolsCallIsCallTool(c, ToJsString(body.fields["method"]).value, ParamsOf(body), RequestId(body), now);
  }

  /** `CallTool` for a name that is a truthy, convertible, unknown tool. */
  lemma CallToolUnknown(c: int, params: Json, id: Json, name: Json)
    requires Prop(params, "name") == Some(name) && Truthy(name) && ToJsString(name).Some?
    requires !(name.JStr? && name.s in ToolNames)
    ensures CallTool(c, params, id)
         == Dispatched(Result(ToolResult(id, name, ToolFailure(ToolNotFoundPrefix + ToJsString(name).value), true)), c)
  {
  }

  /** `CallTool` succeeds exactly for a truthy, convertible name, and then
      its result is the `ToolResult` of the tool run. */
  lemma CallToolResult(c: int, params: Json, id: Json, name: Json)
    requires Prop(params, "name") == Some(name)
    ensures CallTool(c, params, id).payload.Result? <==> Truthy(name) && ToJsString(name).Some?
    ensures CallTool(c, params, id).payload.Result? ==>
      var run := RunTool(c, name, ToJsString(name).value);
      CallTool(c, params, id).payload.value == ToolResult(id, name, run.output, run.isError)
  {
  }

  // ---------------------------------------------------------------------
  // Validation and the envelope.

  /** Error -32600 is given exactly to the requests that are not valid request
      objects (other than `null`); such a request gets no result, is answered
      with its own id (or null) and leaves the counter unchanged. */
  lemma InvalidRequestRejected(c: int, body: Json, now: string)
    requires !body.JNull?
    ensures var s := Handle(c, body, now);
      (s.outcome.Sent? && s.outcome.response.payload.Error? && s.outcome.response.payload.error.code == InvalidRequest)
      <==> !IsValidRequest(body)
    ensures !IsValidRequest(body) ==>
      Handle(c, body, now) == Step(Sent(Response(Error(RpcError(InvalidRequest, InvalidRequestMessage)), RequestId(body))), c)
  {
  }

  /** A `null` body makes the handler read `null.id`; the route answers with
      status 500, error -32603 and a null id. */
  lemma NullBodyEscapes(c: int, now: string)
    ensures Handle(c, JNull, now) == Step(Threw(NullPropertyRead("id")), c)
    ensures RouteReply(Handle(c, JNull, now).outcome).status == 500
    ensures RouteReply(Handle(c, JNull, now).outcome).body.fields["error"].fields["code"] == JNum(InternalError)
    ensures RouteReply(Handle(c, JNull, now).outcome).body.fields["id"] == JNull
  {
  }

  /** Every response the handler sends carries the request's id (null when
      the request has none), error or not; it throws exactly for the requests
      of `EscapesHandler`, and then the counter is unchanged. */
  lemma ResponseIdEchoed(c: int, body: Json, now: string)
    ensures Handle(c, body, now).outcome.Threw? <==> EscapesHandler(body)
    ensures Handle(c, body, now).outcome.Sent? ==> Handle(c, body, now).outcome.response.id == RequestId(body)
    ensures Handle(c, body, now).outcome.Threw? ==> Handle(c, body, now).counter == c
  {
  }

  /** Whatever the request, the reply on the wire is a JSON-RPC 2.0 response
      object with exactly one of `result` and `error`. */
  lemma ReplyIsOneEnvelope(c: int, body: Json, now: string)
    ensures var h := RouteReply(Handle(c, body, now).outcome);
      && h.body.JObj?
      && h.body.fields["jsonrpc"] == JStr("2.0")
      && ("result" in h.body.fields <==> "error" !in h.body.fields)
  {
  }

  // ---------------------------------------------------------------------
  // The method switch.

  /** `initialize` reports the protocol version and both capabilities, and
      changes nothing. */
  lemma InitializeIsStateless(c: int, body: Json, now: string)
    requires Accepted(body) && body.fields["method"] == JStr("initialize")
    ensures Handle(c, body, now) == Step(Sent(Response(Result(InitializeResult), RequestId(body))), c)
    ensures InitializeResult.fields["protocolVersion"] == JStr("2025-03-26")
    ensures InitializeResult.fields["capabilities"].fields["supportsToolsList"] == JBool(true)
    ensures InitializeResult.fields["capabilities"].fields["supportsToolsCall"] == JBool(true)
  {
  }

  /** `tools/list` lists `increment`, `status` and `reset`, in that order,
      each with the empty-object input schema, and changes nothing. */
  lemma ToolsListed(c: int, body: Json, now: string)
    requires Accepted(body) && body.fields["method"] == JStr("tools/list")
    ensures Handle(c, body, now).counter == c
    ensures Handle(c, body, now).outcome.Sent?
    ensures var p := Handle(c, body, now).outcome.response.payload;
      && p.Result?
      && p.value.JObj? && "tools" in p.value.fields && p.value.fields["tools"].JArr?
      && |p.value.fields["tools"].items| == |ToolNames|
      && forall k :: 0 <= k < |ToolNames| ==>
           && p.value.fields["tools"].items[k].JObj?
           && p.value.fields["tools"].items[k].fields.Keys == {"name", "description", "inputSchema"}
           && p.value.fields["tools"].items[k].fields["name"] == JStr(ToolNames[k])
           && p.value.fields["tools"].items[k].fields["inputSchema"] == EmptyInputSchema
  {
  }

  /** Any method other than the five handled ones is answered with -32601 and
      no result, and the counter is unchanged; -32601 is given for nothing
      else. */
  lemma UnknownMethodRejected(c: int, body: Json, now: string)
    requires Accepted(body)
    ensures var s := Handle(c, body, now);
      (s.outcome.Sent? && s.outcome.response.payload.Error? && s.outcome.response.payload.error.code == MethodNotFound)
      <==> !(body.fields["method"].JStr? && body.fields["method"].s in HandledMethods)
    ensures !(body.fields["method"].JStr? && body.fields["method"].s in HandledMethods) ==>
      Handle(c, body, now) == Step(Sent(Response(Error(RpcError(MethodNotFound,
        MethodNotFoundPrefix + ToJsString(body.fields["method"]).value)), RequestId(body))), c)
  {
  }

  /** `echo` answers with the request's `params`, or `{}` when they are absent
      or falsy, and changes nothing. */
  lemma EchoReturnsParams(c: int, body: Json, now: string)
    requires Accepted(body) && body.fields["method"] == JStr("echo")
    ensures Handle(c, body, now) == Step(Sent(Response(Result(ParamsOf(body)), RequestId(body))), c)
    ensures ("params" in body.fields && Truthy(body.fields["params"])) ==> ParamsOf(body) == body.fields["params"]
    ensures !("params" in body.fields && Truthy(body.fields["params"])) ==> ParamsOf(body) == EmptyObject
  {
  }

  // ---------------------------------------------------------------------
  // tools/call

  /** `tools/call` without a truthy `params.name` is answered with -32602 and
      leaves the counter unchanged. */
  lemma MissingToolNameRejected(c: int, body: Json, now: string)
    requires Accepted(body) && body.fields["method"] == JStr("tools/call")
    requires var n := Prop(ParamsOf(body), "name"); n.None? || !Truthy(n.value)
    ensures Handle(c, body, now) == Step(Sent(Response(Error(RpcError(InvalidParams, MissingToolNameMessage)), RequestId(body))), c)
  {
    AcceptedIsDispatched(c, body, now);
    ToolsCallIsCallTool(c, ToJsString(body.fields["method"]).value, ParamsOf(body), RequestId(body), now);
  }

  /** The shape of every successful `tools/call`: the request id is the
      `tool_call_id`, the role is "tool", the name is the tool name, the
      content is an array of exactly one text block, and `is_error` is
      present. A call succeeds exactly when its name is truthy and can be
      converted to a string. */
  lemma ToolCallResultShape(c: int, body: Json, now: string, name: Json)
    requires IsToolCall(body, name)
    ensures var s := Handle(c, body, now);
      s.outcome.Sent? && (s.outcome.response.payload.Result? <==> Truthy(name) && ToJsString(name).Some?)
    ensures var p := Handle(c, body, now).outcome.response.payload;
      p.Result? ==>
        && p.value.JObj?
        && p.value.fields.Keys == {"tool_call_id", "role", "name", "content", "is_error"}
        && p.value.fields["tool_call_id"] == RequestId(body)
        && p.value.fields["role"] == JStr("tool")
        && p.value.fields["name"] == name
        && p.value.fields["content"].JArr?
        && |p.value.fields["content"].items| == 1
        && p.value.fields["content"].items[0].JObj?
        && p.value.fields["content"].items[0].fields["type"] == JStr("text")
        && p.value.fields["content"].items[0].fields["text"].JStr?
        && p.value.fields["is_error"].JBool?
  {
    ToolCallIsCallTool(c, body, now, name);
    CallToolResult(c, ParamsOf(body), RequestId(body), name);
  }

  /** The counter tools: `increment` raises the counter by one and reports
      the new value, `status` reports it unchanged, `reset` sets it to zero
      and reports zero; none is flagged as an error. */
  lemma CounterToolsAct(c: int, body: Json, now: string, tool: string)
    requires tool in ToolNames && IsToolCall(body, JStr(tool))
    ensures var after := if tool == "increment" then c + 1 else if tool == "reset" then 0 else c;
      && Handle(c, body, now).counter == after
      && Handle(c, body, now).outcome
         == Sent(Response(Result(ToolResult(RequestId(body), JStr(tool),
              Counted(after, if tool == "increment" then Incremented
                             else if tool == "reset" then WasReset else CurrentValue),
              false)), RequestId(body)))
  {
    ToolCallIsCallTool(c, body, now, JStr(tool));
  }

  /** A tool the server does not have is a successful JSON-RPC answer flagged
      `is_error`, whose text names the tool, and the counter is unchanged. */
  lemma UnknownToolIsToolError(c: int, body: Json, now: string, name: Json)
    requires IsToolCall(body, name) && Truthy(name) && ToJsString(name).Some?
    requires !(name.JStr? && name.s in ToolNames)
    ensures Handle(c, body, now) == Step(Sent(Response(Result(ToolResult(RequestId(body), name,
              ToolFailure(ToolNotFoundPrefix + ToJsString(name).value), true)), RequestId(body))), c)
  {
    ToolCallIsCallTool(c, body, now, name);
    CallToolUnknown(c, ParamsOf(body), RequestId(body), name);
  }

  /** A truthy tool name whose string conversion throws: the conversion in
      the debug line throws, the catch around the tool switch converts the
      name again and throws, and the handler's outer catch answers a server
      error -32000 with the engine's message; the counter is unchanged. */
  lemma NonConvertibleNameIsServerError(c: int, body: Json, now: string, name: Json)
    requires IsToolCall(body, name) && Truthy(name) && ToJsString(name).None?
    ensures Handle(c, body, now)
         == Step(Sent(Response(Error(RpcError(ServerError, ExecutionErrorPrefix + FaultMessage(NoPrimitive))),
                               RequestId(body))), c)
  {
    ToolCallIsCallTool(c, body, now, name);
  }

  /** The counter changes only through `tools/call` of `increment` or
      `reset`. */
  predicate ChangesCounter(body: Json) {
    IsToolCall(body, JStr("increment")) || IsToolCall(body, JStr("reset"))
  }

  lemma OnlyCounterToolsWrite(c: int, body: Json, now: string)
    ensures Handle(c, body, now).counter != c ==> ChangesCounter(body)
  {
  }

  // ---------------------------------------------------------------------
  // Requests one after another.

  /** A run of requests none of which calls `increment` or `reset` leaves the
      counter where it was. */
  lemma {:induction false} CounterStableWithoutWrites(c: int, bodies: seq<Json>, now: string)
    requires forall k :: 0 <= k < |bodies| ==> !ChangesCounter(bodies[k])
    ensures Serve(c, bodies, now).counter == c
    decreases bodies
  {
    if bodies != [] {
      OnlyCounterToolsWrite(c, bodies[0], now);
      assert forall k :: 0 <= k < |bodies[1..]| ==> bodies[1..][k] == bodies[k + 1];
      CounterStableWithoutWrites(c, bodies[1..], now);
    }
  }

  /** The reply to the call of `increment` in `body` that reports `value`. */
  function IncrementReply(body: Json, value: int): Outcome {
    Sent(Response(Result(ToolResult(RequestId(body), JStr("increment"), Counted(value, Incremented), false)),
                  RequestId(body)))
  }

  /** One `increment` call: its reply and the counter it leaves. */
  lemma IncrementHandled(c: int, body: Json, now: string)
    requires IsToolCall(body, JStr("increment"))
    ensures Handle(c, body, now) == Step(IncrementReply(body, c + 1), c + 1)
  {
    CounterToolsAct(c, body, now, "increment");
  }

  /** The replies to a run of `increment` calls starting from `c`. */
  function IncrementReplies(c: int, bodies: seq<Json>): (r: seq<Outcome>)
    ensures |r| == |bodies|
    decreases bodies
  {
    if bodies == [] then [] else [IncrementReply(bodies[0], c + 1)] + IncrementReplies(c + 1, bodies[1..])
  }

  /** The k-th reply to a run of `increment` calls reports the counter plus
      k + 1. */
  lemma {:induction false} IncrementRepliesAt(c: int, bodies: seq<Json>, k: int)
    requires 0 <= k < |bodies|
    ensures IncrementReplies(c, bodies)[k] == IncrementReply(bodies[k], c + k + 1)
    decreases bodies
  {
    if k > 0 {
      IncrementRepliesAt(c + 1, bodies[1..], k - 1);
    }
  }

  /** `n` calls of `increment` raise the counter by `n`, and the k-th of them
      reports the counter plus k + 1. */
  lemma {:induction false} IncrementsCount(c: int, bodies: seq<Json>, now: string)
    requires forall k :: 0 <= k < |bodies| ==> IsToolCall(bodies[k], JStr("increment"))
    ensures Serve(c, bodies, now) == Served(IncrementReplies(c, bodies), c + |bodies|)
    decreases bodies
  {
    if bodies != [] {
      IncrementHandled(c, bodies[0], now);
      var tail := bodies[1..];
      assert forall k :: 0 <= k < |tail| ==> tail[k] == bodies[k + 1];
      IncrementsCount(c + 1, tail, now);
    }
  }

  /** After a `reset`, the counter is zero, whatever came before; a run of
      `n` increments that follows it leaves `n`. */
  lemma {:induction false} ResetThenIncrements(c: int, reset: Json, bodies: seq<Json>, now: string)
    requires IsToolCall(reset, JStr("reset"))
    requires forall k :: 0 <= k < |bodies| ==> IsToolCall(bodies[k], JStr("increment"))
    ensures Serve(c, [reset] + bodies, now).counter == |bodies|
  {
    CounterToolsAct(c, reset, now, "reset");
    assert ([reset] + bodies)[1..] == bodies;
    IncrementsCount(0, bodies, now);
  }
}
