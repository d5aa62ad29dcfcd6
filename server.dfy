/** The JSON-RPC 2.0 request handler of the tool server
    (`StreamableHTTPServerTransport.handleRequest`): validation of the request
    object, dispatch on its method, the three counter tools behind
    `tools/call`, and the response envelope. The process-wide counter is the
    only state. `Handle` specifies one request as a function of the counter
    and the request; `Server.HandleRequest` follows the handler statement by
    statement and is proved to compute `Handle`. */
module McpServer {
  import opened Wrappers
  import opened Json
  import opened JsSemantics

  // Error codes of section 5.1 of the JSON-RPC 2.0 Specification, and the
  // implementation-defined server error.
  const InvalidRequest: int := -32600
  const MethodNotFound: int := -32601
  const InvalidParams: int := -32602
  const InternalError: int := -32603
  const ServerError: int := -32000

  const InvalidRequestMessage: string :=
    "Invalid JSON-RPC 2.0 Request: Check \"jsonrpc\", \"method\", and \"id\" fields."
  const MissingToolNameMessage: string := "Invalid params: Tool name is required."
  const MethodNotFoundPrefix: string := "Method not found: "
  const ToolNotFoundPrefix: string := "Tool not found: "
  const ExecutionErrorPrefix: string := "Internal server error during method execution: "
  const RouteErrorPrefix: string := "Internal server error: "

  datatype RpcError = RpcError(code: int, message: string)

  /** The body of a response: a `result` or an `error`, never both. */
  datatype Payload = Result(value: Json) | Error(error: RpcError)

  datatype Response = Response(payload: Payload, id: Json)

  /** A runtime fault that escapes the handler: reading a property of `null`,
      or converting to a string an object whose conversion throws. */
  datatype Fault = NullPropertyRead(key: string) | NoPrimitive

  /** The JavaScript engine's message for a fault. */
  function FaultMessage(f: Fault): string {
    match f
    case NullPropertyRead(key) => "Cannot read properties of null (reading '" + key + "')"
    case NoPrimitive => "Cannot convert object to primitive value"
  }

  /** What one call of the handler does: send a response, or throw. */
  datatype Outcome = Sent(response: Response) | Threw(fault: Fault)

  /** The JSON object sent for a response: `jsonrpc` is "2.0", `id` is the
      response's id, and exactly one of `result` and `error` is present; an
      error is the object of its code and message. */
  function Encode(r: Response): (j: Json)
    ensures j.JObj?
    ensures j.fields.Keys == {"jsonrpc", "id", if r.payload.Result? then "result" else "error"}
    ensures j.fields["jsonrpc"] == JStr("2.0") && j.fields["id"] == r.id
    ensures "result" in j.fields <==> r.payload.Result?
    ensures "error" in j.fields <==> r.payload.Error?
    ensures r.payload.Result? ==> j.fields["result"] == r.payload.value
    ensures r.payload.Error? ==>
      j.fields["error"] == JObj(map["code" := JNum(r.payload.error.code), "message" := JStr(r.payload.error.message)])
  {
    match r.payload
    case Result(v) => JObj(map["jsonrpc" := JStr("2.0"), "result" := v, "id" := r.id])
    case Error(e) =>
      JObj(map["jsonrpc" := JStr("2.0"),
               "error" := JObj(map["code" := JNum(e.code), "message" := JStr(e.message)]),
               "id" := r.id])
  }

  datatype HttpReply = HttpReply(status: int, body: Json)

  /** The `/mcp` POST route around the handler: a sent response goes out with
      status 200; a fault that escapes the handler is caught by the route and
      answered with status 500, error -32603 and a null id. */
  function RouteReply(o: Outcome): (h: HttpReply)
    ensures h.status == 200 <==> o.Sent?
    ensures o.Sent? ==> h.body == Encode(o.response)
    ensures o.Threw? ==>
      && h.status == 500
      && h.body.JObj? && h.body.fields.Keys == {"jsonrpc", "error", "id"}
      && h.body.fields["jsonrpc"] == JStr("2.0")
      && h.body.fields["id"] == JNull
      && h.body.fields["error"].JObj?
      && "code" in h.body.fields["error"].fields && "message" in h.body.fields["error"].fields
      && h.body.fields["error"].fields["code"] == JNum(InternalError)
      && h.body.fields["error"].fields["message"].JStr?
      && RouteErrorPrefix <= h.body.fields["error"].fields["message"].s
  {
    match o
    case Sent(r) => HttpReply(200, Encode(r))
    case Threw(f) => HttpReply(500, Encode(Response(Error(RpcError(InternalError, RouteErrorPrefix + FaultMessage(f))), JNull)))
  }

  // ---------------------------------------------------------------------
  // The request object (section 4 of the JSON-RPC 2.0 Specification).

  /** The request object the handler accepts: an object whose `jsonrpc` member
      is the string "2.0" and whose `method` member is truthy. */
  predicate IsValidRequest(body: Json) {
    && body.JObj?
    && "jsonrpc" in body.fields && body.fields["jsonrpc"] == JStr("2.0")
    && "method" in body.fields && Truthy(body.fields["method"])
  }

  /** The id a response carries: the request's `id` member when the request is
      an object that has one, `null` otherwise. */
  function RequestId(body: Json): Json {
    if body.JObj? && "id" in body.fields then body.fields["id"] else JNull
  }

  /** `body.params || {}` */
  function ParamsOf(body: Json): Json {
    if body.JObj? && "params" in body.fields && Truthy(body.fields["params"])
    then body.fields["params"] else EmptyObject
  }

  // ---------------------------------------------------------------------
  // Fixed results.

  const InitializeResult: Json :=
    JObj(map[
      "protocolVersion" := JStr("2025-03-26"),
      "capabilities" := JObj(map["supportsToolsList" := JBool(true), "supportsToolsCall" := JBool(true)]),
      "serverInfo" := JObj(map["name" := JStr("Your MCP Server"), "version" := JStr("1.0.0")]),
      "message" := JStr("MCP server initialized successfully!")])

  /** `{type: "object", properties: {}, required: []}` */
  const EmptyInputSchema: Json :=
    JObj(map["type" := JStr("object"), "properties" := EmptyObject, "required" := JArr([])])

  function ToolDefinition(name: string, description: string): Json {
    JObj(map["name" := JStr(name), "description" := JStr(description), "inputSchema" := EmptyInputSchema])
  }

  /** The names of the registered tools, in the order `tools/list` reports them. */
  const ToolNames: seq<string> := ["increment", "status", "reset"]

  const ToolsListResult: Json :=
    JObj(map["tools" := JArr([
      ToolDefinition("increment", "Increments the counter by one."),
      ToolDefinition("status", "Returns the current counter value."),
      ToolDefinition("reset", "Resets the counter to zero.")])])

  // ---------------------------------------------------------------------
  // Tools.

  /** The three messages of the counter tools. */
  datatype CounterMessage = Incremented | CurrentValue | WasReset

  function MessageText(m: CounterMessage): string {
    match m
    case Incremented => "Counter incremented."
    case CurrentValue => "Current counter value."
    case WasReset => "Counter reset."
  }

  /** The object a tool produces, before it is stringified into the result:
      `{value, message}` from a counter tool, `{error}` otherwise. */
  datatype ToolOutput = Counted(value: int, message: CounterMessage) | ToolFailure(error: string)

  /** `JSON.stringify` of a tool output object, members in the order the
      handler builds them. The counter messages hold no character that needs
      escaping, so they are written between quotes as they are
      (`CounterMessagesNeedNoEscape` shows this agrees with `Quote`). */
  function OutputText(o: ToolOutput): string {
    match o
    case Counted(v, m) => "{\"value\":" + Decimal(v) + ",\"message\":\"" + MessageText(m) + "\"}"
    case ToolFailure(e) => "{\"error\":" + Quote(e) + "}"
  }

  lemma CounterMessagesNeedNoEscape(m: CounterMessage)
    ensures Quote(MessageText(m)) == "\"" + MessageText(m) + "\""
  {
    PlainTextIsNotEscaped(MessageText(m));
  }

  /** `OutputText` is `JSON.stringify` of the output object: `value` then
      `message` for a counter tool, the value in decimal and the message as a
      JSON string; `error` as a JSON string otherwise. */
  lemma OutputTextIsStringify(o: ToolOutput)
    ensures o.Counted? ==>
      OutputText(o) == "{\"value\":" + Decimal(o.value) + ",\"message\":" + Quote(MessageText(o.message)) + "}"
    ensures o.ToolFailure? ==> OutputText(o) == "{\"error\":" + Quote(o.error) + "}"
  {
    if o.Counted? {
      CounterMessagesNeedNoEscape(o.message);
    }
  }

  /** The `result` of a `tools/call`: the request id as `tool_call_id`, role
      "tool", the tool name, one text content block holding the stringified
      output, and the tool-level error flag. */
  function ToolResult(id: Json, name: Json, output: ToolOutput, isError: bool): Json {
    JObj(map[
      "tool_call_id" := id,
      "role" := JStr("tool"),
      "name" := name,
      "content" := JArr([JObj(map["type" := JStr("text"), "text" := JStr(OutputText(output))])]),
      "is_error" := JBool(isError)])
  }

  datatype ToolRun = ToolRun(output: ToolOutput, isError: bool, counter: int)

  /** Running the tool called `name` (whose string form is `nameText`) on the
      counter. */
  function RunTool(counter: int, name: Json, nameText: string): ToolRun {
    if name == JStr("increment") then ToolRun(Counted(counter + 1, Incremented), false, counter + 1)
    else if name == JStr("status") then ToolRun(Counted(counter, CurrentValue), false, counter)
    else if name == JStr("reset") then ToolRun(Counted(0, WasReset), false, 0)
    else ToolRun(ToolFailure(ToolNotFoundPrefix + nameText), true, counter)
  }

  datatype Dispatched = Dispatched(payload: Payload, counter: int)

  /** `tools/call`: a missing or falsy `params.name` is an invalid-params
      error; a name whose string conversion throws is caught, twice, and ends
      as a server error; any other name runs its tool, and an unknown one is
      a successful result flagged `is_error`. */
  function CallTool(counter: int, params: Json, id: Json): Dispatched {
    var name := Prop(params, "name");
    if name.None? || !Truthy(name.value) then
      Dispatched(Error(RpcError(InvalidParams, MissingToolNameMessage)), counter)
    else match ToJsString(name.value)
      case None =>
        Dispatched(Error(RpcError(ServerError, ExecutionErrorPrefix + FaultMessage(NoPrimitive))), counter)
      case Some(nameText) =>
        var run := RunTool(counter, name.value, nameText);
        Dispatched(Result(ToolResult(id, name.value, run.output, run.isError)), run.counter)
  }

  /** The method switch, for a method whose string form is `methodText`. */
  function Dispatch(counter: int, rpcMethod: Json, methodText: string, params: Json, id: Json, now: string): Dispatched {
    if rpcMethod == JStr("initialize") then Dispatched(Result(InitializeResult), counter)
    else if rpcMethod == JStr("tools/list") then Dispatched(Result(ToolsListResult), counter)
    else if rpcMethod == JStr("tools/call") then CallTool(counter, params, id)
    else if rpcMethod == JStr("echo") then Dispatched(Result(params), counter)
    else if rpcMethod == JStr("getCurrentTime") then Dispatched(Result(JStr(now)), counter)
    else Dispatched(Error(RpcError(MethodNotFound, MethodNotFoundPrefix + methodText)), counter)
  }

  datatype Step = Step(outcome: Outcome, counter: int)

  /** One request handled with the counter at `counter`; `now` is the
      wall-clock time `getCurrentTime` would report. An invalid request is
      answered with -32600, except a `null` body, for which reading its id
      throws. A valid request is logged with its method and id converted to
      strings, which can throw, and is then dispatched. */
  function Handle(counter: int, body: Json, now: string): (r: Step)
    ensures r.counter == counter || r.counter == counter + 1 || r.counter == 0
    ensures r.outcome.Threw? ==> r.counter == counter
  {
    if !IsValidRequest(body) then
      if body.JNull? then Step(Threw(NullPropertyRead("id")), counter)
      else Step(Sent(Response(Error(RpcError(InvalidRequest, InvalidRequestMessage)), RequestId(body))), counter)
    else
      var rpcMethod := body.fields["method"];
      var id := RequestId(body);
      match (ToJsString(rpcMethod), ToJsString(id))
      case (Some(methodText), Some(_)) =>
        var d := Dispatch(counter, rpcMethod, methodText, ParamsOf(body), id, now);
        Step(Sent(Response(d.payload, id)), d.counter)
      case _ => Step(Threw(NoPrimitive), counter)
  }

  datatype Served = Served(outcomes: seq<Outcome>, counter: int)

  /** Requests handled one at a time, each seeing the counter the previous
      one left. */
  function Serve(counter: int, bodies: seq<Json>, now: string): (r: Served)
    ensures |r.outcomes| == |bodies|
    decreases bodies
  {
    if bodies == [] then Served([], counter)
    else
      var s := Handle(counter, bodies[0], now);
      var rest := Serve(s.counter, bodies[1..], now);
      Served([s.outcome] + rest.outcomes, rest.counter)
  }

  /** The tool server's state: the module-level counter, shared by every
      transport the route creates. */
  class Server {
    var counter: int

    constructor ()
      ensures counter == 0
    {
      counter := 0;
    }

    /** `handleRequest(req, res, body)`; what it sends, or the fault that
        escapes it, is the outcome. */
    method HandleRequest(body: Json, now: string) returns (outcome: Outcome)
      modifies this
      ensures Step(outcome, counter) == Handle(old(counter), body, now)
    {
      ghost var start := counter;
      var jsonrpc := Prop(body, "jsonrpc");
      var rawMethod := Prop(body, "method");
      var rawId := Prop(body, "id");
      if || !Truthy(body) || TypeOf(body) != "object" || jsonrpc != Some(JStr("2.0"))
         || rawMethod.None? || !Truthy(rawMethod.value)
         || (rawId.None? && jsonrpc != Some(JStr("2.0")))
      {
        var errorId := JNull;
        if TypeOf(body) == "object" {
          if body.JNull? {
            outcome := Threw(NullPropertyRead("id"));
            return;
          }
          if rawId.Some? {
            errorId := rawId.value;
          }
        }
        outcome := Sent(Response(Error(RpcError(InvalidRequest, InvalidRequestMessage)), errorId));
        return;
      }

      var rpcMethod := rawMethod.value;
      var rawParams := Prop(body, "params");
      var params := if rawParams.Some? && Truthy(rawParams.value) then rawParams.value else EmptyObject;
      var id := if rawId.Some? then rawId.value else JNull;

      // The request is logged with its method and id in a template literal.
      var methodText := ToJsString(rpcMethod);
      if methodText.None? || ToJsString(id).None? {
        outcome := Threw(NoPrimitive);
        return;
      }
      assert IsValidRequest(body) && params == ParamsOf(body) && id == RequestId(body);
      ghost var d := Dispatch(start, rpcMethod, methodText.value, params, id, now);
      assert Handle(start, body, now) == Step(Sent(Response(d.payload, id)), d.counter);

      var jsonrpcResult: Json := JNull;
      var jsonrpcError: Option<RpcError> := None;
      if rpcMethod == JStr("initialize") {
        jsonrpcResult := InitializeResult;
      } else if rpcMethod == JStr("tools/list") {
        outcome := Sent(Response(Result(ToolsListResult), id));
        return;
      } else if rpcMethod == JStr("tools/call") {
        jsonrpcResult, jsonrpcError := CallToolsMethod(params, id);
      } else if rpcMethod == JStr("echo") {
        jsonrpcResult := params;
      } else if rpcMethod == JStr("getCurrentTime") {
        jsonrpcResult := JStr(now);
      } else {
        jsonrpcError := Some(RpcError(MethodNotFound, MethodNotFoundPrefix + methodText.value));
      }

      if jsonrpcError.Some? {
        outcome := Sent(Response(Error(jsonrpcError.value), id));
      } else {
        outcome := Sent(Response(Result(jsonrpcResult), id));
      }
    }

    /** The `tools/call` case of the method switch: the `result` it assigns,
        or the `error`. */
    method CallToolsMethod(params: Json, id: Json) returns (jsonrpcResult: Json, jsonrpcError: Option<RpcError>)
      modifies this
      ensures Dispatched(if jsonrpcError.Some? then Error(jsonrpcError.value) else Result(jsonrpcResult), counter)
              == CallTool(old(counter), params, id)
    {
      jsonrpcResult, jsonrpcError := JNull, None;
      var toolName := Prop(params, "name");
      if toolName.None? || !Truthy(toolName.value) {
        jsonrpcError := Some(RpcError(InvalidParams, MissingToolNameMessage));
        return;
      }
      // The tool's debug log line converts the name; so does the message built
      // in its catch block, so the exception reaches the outer catch.
      var nameText := ToJsString(toolName.value);
      if nameText.None? {
        jsonrpcError := Some(RpcError(ServerError, ExecutionErrorPrefix + FaultMessage(NoPrimitive)));
        return;
      }
      var toolOutputContentObject, toolIsError := ExecuteTool(toolName.value, nameText.value);
      jsonrpcResult := ToolResult(id, toolName.value, toolOutputContentObject, toolIsError);
    }

    /** The switch over the tool name. */
    method ExecuteTool(toolName: Json, nameText: string) returns (toolOutputContentObject: ToolOutput, toolIsError: bool)
      modifies this
      ensures ToolRun(toolOutputContentObject, toolIsError, counter) == RunTool(old(counter), toolName, nameText)
    {
      toolIsError := false;
      if toolName == JStr("increment") {
        counter := counter + 1;
        toolOutputContentObject := Counted(counter, Incremented);
      } else if toolName == JStr("status") {
        toolOutputContentObject := Counted(counter, CurrentValue);
      } else if toolName == JStr("reset") {
        counter := 0;
        toolOutputContentObject := Counted(0, WasReset);
      } else {
        toolIsError := true;
        toolOutputContentObject := ToolFailure(ToolNotFoundPrefix + nameText);
      }
    }
  }
}
