# A verified model of an MCP counter server and its PHP tool-call bridge

The repository pairs two programs.

- A Node.js tool server exposes three counter tools (`increment`, `status`,
  `reset`) over JSON-RPC 2.0 on `POST /mcp`. Its handler,
  `StreamableHTTPServerTransport.handleRequest`, does three things in one
  function. It validates the request object. It dispatches on `method`
  (`initialize`, `tools/list`, `tools/call`, `echo`, `getCurrentTime`). It
  wraps the outcome in a response envelope. The only state is the
  module-level `counter`.
- A PHP class, `AI::mcp`, bridges a chat-completion model to that server.
  - It discovers the server's tools and offers them to the model as
    functions.
  - It calls the server once for each tool call the model asks for, and
    builds a transcript from the results.
  - It asks the model for a second completion and echoes the chosen answer.

The model is written in Dafny.

| file | module | contents |
|---|---|---|
| `wrappers.dfy` | `Wrappers` | `Option` |
| `json.dfy` | `Json` | JSON values, with objects as maps; decimal rendering of integers |
| `js.dfy` | `JsSemantics` | the JavaScript the handler relies on (see below) |
| `php.dfy` | `PhpSemantics` | the PHP the bridge relies on (see below) |
| `server.dfy` | `McpServer` | the handler: a specification function over the counter and a `Server` class (see below) |
| `server_props.dfy` | `McpServerProperties` | what the handler promises, stated and proved over `Handle` |
| `client.dfy` | `McpClient` | the bridge (see below) |
| `end_to_end.dfy` | `EndToEnd` | the bridge's requests fed to the handler, and its replies read back by the bridge |

`js.dfy` covers `typeof`, truthiness, own-property reads, the string
conversion of template literals (which can throw), and the `JSON.stringify`
form of strings.

`php.dfy` covers offsets into values from `json_decode($s, true)`, `isset`
and `??`, plain reads that can raise, and `empty`.

In `server.dfy`, `Handle` is a function of the counter and the request.
`Server.HandleRequest` follows the JavaScript statement by statement. It
updates the `counter` field and is proved to agree with `Handle`.

In `client.dfy`, `Mcp` is a method that follows the PHP run. Its loop over
the tool calls, which builds the transcript and the `tools/call` requests,
is the method `CallTools`. Both are proved against the specification
functions `MapTools`, `CallRequests`, `ToolMessages`, `ToolOutputText` and
`SecondAnswer`.

Several inputs become parameters:
- the wall clock read by `getCurrentTime` (`now`);
- the result of each HTTP request (`discovered`, and one `McpReply` per tool call);
- the two completions (`first`, `second`);
- the `uniqid()` request ids (`callIds`).

A handler call that throws is an `Outcome` of its own, `Threw`. The route's
catch block turns it into an HTTP 500 reply (`RouteReply`).

## Model

| member | source | states |
|---|---|---|
| Json.Decimal | server/server.js:151 | the rendering of an integer is non-empty, starts with '-' exactly for negatives, and is all digits after that sign |
| Json.DecimalValue | server/server.js:151 | the digits of the rendering of an integer, after its sign, denote the integer's magnitude |
| Json.Digits | server/server.js:151 | the decimal digits of a natural number are non-empty digits, and the first is '0' exactly for 0 |
| Json.DigitsValue | server/server.js:151 | the decimal digits of a natural number, read back from the left, denote that number |
| JsSemantics.ToJsString | server/server.js:46 | a string converts to itself and every scalar converts; an object fails to convert exactly when it has an own `toString` member |
| JsSemantics.JoinElements | server/server.js:46 | an array fails to convert exactly when some element that is not null fails to convert |
| JsSemantics.EscapeChar | server/server.js:151 | a character is written as it is exactly when it is not a quote, a backslash or a control character; otherwise it becomes a backslash escape of at least two characters |
| JsSemantics.Escape | server/server.js:151 | escaping never shortens a string |
| JsSemantics.PlainTextIsNotEscaped | server/server.js:151 | a string without quotes, backslashes or control characters stringifies to itself between quotes |
| JsSemantics.Quote | server/server.js:151 | a stringified string is enclosed in double quotes and is at least two characters longer than the string |
| PhpSemantics.Isset | client/client.php:115 | `isset` of an offset path finds a value only when it is not null |
| PhpSemantics.IssetIsNonNullLookup | client/client.php:115 | `isset` of an offset path finds a value exactly when a value exists at that path and is not null, and then finds that value |
| McpServer.Encode | server/server.js:180-194 | a response object has exactly the keys `jsonrpc`, `id` and one of `result`/`error`; `jsonrpc` is "2.0", `id` is the response id, `result` is present exactly for a success and is the result, and `error` is the object of the error's `code` and `message` |
| McpServer.RouteReply | server/server.js:202-226 | the HTTP status is 200 exactly when the handler sent a response, whose encoding is the body; a throw becomes status 500 with a body holding only `jsonrpc` "2.0", an error with code -32603 and a message starting "Internal server error: ", and a null id, and no `result` |
| McpServer.CounterMessagesNeedNoEscape | server/server.js:151 | the three counter messages stringify to themselves between quotes |
| McpServer.OutputTextIsStringify | server/server.js:151 | the tool text is `JSON.stringify` of the output object: `{"value":<decimal>,"message":<quoted message>}` for a counter tool, `{"error":<quoted error>}` otherwise |
| McpServer.Handle | server/server.js:25-195 | one request moves the counter only to itself, to itself plus one, or to 0, and a request that throws leaves it unchanged |
| McpServer.Serve | server/server.js:6 | requests handled one after another each get exactly one outcome |
| McpServer.Server.constructor | server/server.js:6 | the counter starts at 0 |
| McpServer.Server.HandleRequest | server/server.js:25-195 | the outcome and the new counter are what `Handle` gives for the old counter and the request |
| McpServer.Server.CallToolsMethod | server/server.js:97-156 | the `tools/call` branch leaves `jsonrpcResult`/`jsonrpcError` and the counter as `CallTool` says |
| McpServer.Server.ExecuteTool | server/server.js:108-139 | the tool switch produces the output object, the error flag and the counter `RunTool` gives |
| McpServerProperties.InvalidRequestRejected | server/server.js:29-39 | error -32600 is given exactly to non-null bodies that are not valid requests; it has no result, carries the request's id or null, and leaves the counter unchanged |
| McpServerProperties.NullBodyEscapes | server/server.js:38 | a null body makes the handler throw while reading `id`, and the route answers it with 500 / -32603 |
| McpServerProperties.ResponseIdEchoed | server/server.js:44 | every sent response carries the request's `id`, or null when it has none, on success and on error |
| McpServerProperties.ReplyIsOneEnvelope | server/server.js:180-194 | every reply body has `jsonrpc` "2.0" and exactly one of `result` and `error` |
| McpServerProperties.InitializeIsStateless | server/server.js:54-69 | `initialize` returns the fixed result, with protocol version 2025-03-26 and both capabilities true, and leaves the counter unchanged |
| McpServerProperties.ToolsListed | server/server.js:71-95 | `tools/list` lists `increment`, `status` and `reset` in that order, each with the empty-object input schema, and leaves the counter unchanged |
| McpServerProperties.UnknownMethodRejected | server/server.js:168-172 | -32601 is given exactly when the method is not one of the five handled ones, with the method named in the message |
| McpServerProperties.EchoReturnsParams | server/server.js:158-161 | `echo` returns `params` verbatim, or `{}` when they are absent or falsy |
| McpServerProperties.MissingToolNameRejected | server/server.js:100-106 | `tools/call` without a truthy `params.name` gets -32602 and leaves the counter unchanged |
| McpServerProperties.CallToolResult | server/server.js:97-156 | the `tools/call` branch gives a result exactly when the name is truthy and converts to a string, and that result is the tool result built from running the named tool |
| McpServerProperties.ToolCallResultShape | server/server.js:143-155 | a `tools/call` succeeds exactly when its name is truthy and convertible; its result has `tool_call_id` = request id, role "tool", the name, one text block, and `is_error` |
| McpServerProperties.CounterToolsAct | server/server.js:114-127 | `increment` adds one and reports the new value, `status` reports the value unchanged, `reset` sets and reports 0; none is an error |
| McpServerProperties.UnknownToolIsToolError | server/server.js:128-132 | an unknown tool is a successful result flagged `is_error`, whose text names the tool, and the counter is unchanged |
| McpServerProperties.NonConvertibleNameIsServerError | server/server.js:108-177 | a truthy tool name whose string conversion throws is answered with server error -32000, "Internal server error during method execution: " and the engine's message, with the request's id, and the counter is unchanged |
| McpServerProperties.CallToolUnknown | server/server.js:128-132 | for an unknown tool name the `tools/call` branch gives a result flagged `is_error` with the "Tool not found: " text and leaves the counter unchanged |
| McpServerProperties.OnlyCounterToolsWrite | server/server.js:115-124 | the counter changes only through `tools/call` of `increment` or `reset` |
| McpServerProperties.CounterStableWithoutWrites | server/server.js:6 | a run of requests with no `increment` or `reset` call leaves the counter where it was |
| McpServerProperties.IncrementRepliesAt | server/server.js:114-118 | the k-th reply of a run of increments reports the starting counter plus k + 1 |
| McpServerProperties.IncrementHandled | server/server.js:114-118 | one `increment` call raises the counter by one and reports the new value |
| McpServerProperties.IncrementsCount | server/server.js:114-118 | n increments raise the counter by n, and the k-th reports the starting counter plus k + 1 |
| McpServerProperties.ResetThenIncrements | server/server.js:123-127 | after a `reset`, n increments leave the counter at n, whatever came before |
| McpClient.DiscoveredTools | client/client.php:33-34 | a reply without `result.tools` (or with null there) yields an empty tool list; an array there is the tool list; anything else there aborts the run, and nothing else does |
| McpClient.MapToolsKeepsTools | client/client.php:36-49 | mapping fails exactly when some discovered tool is a string; otherwise it keeps length and order, and each function has type "function", the tool's name and description, and the empty parameter schema |
| McpClient.FunctionToolShape | client/client.php:37-48 | a mapped function has type "function", the given name and description, and the empty parameter schema |
| McpClient.CallRequests | client/client.php:80-91 | there is one request per tool call, each with `jsonrpc` "2.0", method `tools/call`, `params.name` = the function name, empty `params.arguments`, and the call's request id |
| McpClient.ToolOutputText | client/client.php:109-121 | a failed or non-200 reply gives text starting "Error calling MCP server: "; otherwise `result.content[0].text` when set, else "Error: Invalid JSON-RPC response format from MCP server: " followed by the reply; the output is never null |
| McpClient.ToolMessagesFollowCalls | client/client.php:127-132 | there is exactly one tool message per tool call, in order, with that call's id, its function name and the text of its reply |
| McpClient.CallTools | client/client.php:62-133 | the loop makes one `tools/call` request per tool call, in order, and builds the transcript: the user message, the assistant message, then one tool message per call |
| McpClient.SecondAnswer | client/client.php:141-151 | the second-turn answer is never empty: the content when it is not PHP-empty, else the fixed advice when tool calls came back, else the fixed apology |
| McpClient.Mcp | client/client.php:15-158 | see the note below the table |
| EndToEnd.DiscoveryAnswered | server/server.js:71-95 | the server answers the bridge's discovery request with its tool list and the request's id, and leaves the counter unchanged |
| EndToEnd.ToolListDiscovered | client/client.php:33-34 | the bridge finds the server's tool list in an encoded `tools/list` answer |
| EndToEnd.ToolListMapped | client/client.php:36-49 | the server's tool list maps to the three counter functions, in order, with the server's names and descriptions |
| EndToEnd.DiscoveryOffersServerTools | client/client.php:21-49 | discovery leaves the counter unchanged and offers exactly the server's three tools, in order; the parameter schema equals the server's input schema |
| EndToEnd.ToolCallRequestAccepted | client/client.php:83-91 | every tool-call request of the bridge is a `tools/call` the handler accepts, naming the function the model asked for |
| EndToEnd.ResultTextRead | client/client.php:114-116 | the bridge reads the stringified tool output from a successful `tools/call` reply |
| EndToEnd.ErrorReplyRead | client/client.php:117-120 | for an error reply the bridge records the format-error text quoting the reply |
| EndToEnd.ToolCallTextReachesTranscript | client/client.php:103-121 | a tool call's transcript text is the stringified output of the tool the server ran, and the counter moves as that tool says; an empty function name gives the format-error text |
| EndToEnd.EmptyNameRead | client/client.php:103-121 | a call with an empty function name is rejected by the server, and the bridge records the format-error text |
| EndToEnd.CounterToolRun | server/server.js:113-127 | running a counter tool reports the counter it leaves, with that tool's message, and is not an error |
| EndToEnd.UnknownToolRun | server/server.js:128-132 | running an unknown tool gives the "Tool not found: " error naming it, flags an error and leaves the counter unchanged |
| EndToEnd.CounterToolRead | client/client.php:103-121 | a counter tool's transcript text is that tool's stringified output |
| EndToEnd.UnknownToolRead | client/client.php:103-121 | an unknown tool's transcript text is the stringified "Tool not found" error |
| EndToEnd.IncrementReplyRead | client/client.php:114-116 | the bridge reads the value an `increment` reply reports |
| EndToEnd.IncrementReplyReadAt | client/client.php:114-116 | the k-th reply of a run of increments is read as the starting counter plus k + 1 |
| EndToEnd.IncrementRepliesRead | client/client.php:69-133 | the tool messages built from a run of increment replies report the counter plus k + 1 at position k |
| EndToEnd.IncrementRequestsAreToolCalls | client/client.php:83-91 | the bridge's requests for `increment` calls are accepted `increment` calls |
| EndToEnd.IncrementCallsReachTranscript | client/client.php:69-133 | n `increment` calls raise the server's counter by n, and the k-th tool message carries the k-th call's id and reports the counter plus k + 1 |

Note on `McpClient.Mcp`: its contract states the whole run.
- The discovery request is `{jsonrpc:"2.0", method:"tools/list", id:"php-client"}`.
- A discovered tool list that cannot be mapped aborts the run.
- Otherwise the first request offers the mapped functions with tool choice "auto".
- With no tool calls, no `tools/call` request is made, and the first content is echoed.
- With tool calls, the run makes one `tools/call` request per call.
- The second request then carries the user message, the assistant message and one tool message per call, with no tools.
- The echoed answer is the second-turn choice, and no tool call after the second turn is acted on.

## Left out

- Logging (`console.*`, `error_log`, `print_r`) is not modelled. It has no effect on the replies, with two exceptions, both string conversions in template literals that can throw:
  - the line at server/server.js:46 converts the method and the id; its throw escapes the handler and is modelled as `Threw(NoPrimitive)`;
  - the line at server/server.js:112 converts the tool name; its throw is caught at server/server.js:135, the catch block converts the name again at server/server.js:137 and throws, and the outer catch at server/server.js:174-177 answers -32000. `Server.CallToolsMethod` and `CallTool` model this.
- The Express wiring is left out: `express.json()`, `getServer`, the GET/DELETE handlers and the `res.on('close')` hook. The route's catch block survives only as `RouteReply`.
- `getCurrentTime` reads the wall clock. The model takes the time as the string parameter `now`.
- The HTTP requests, curl and the chat-completion calls are parameters of `Mcp`.
  - A failed chat call or a failed discovery request (an exception or `false`) is not modelled.
  - `discovered` is the already-decoded discovery reply.
- Each `McpReply` carries the reply text and its decoded value independently. The model does not check that one is the JSON decoding of the other.
- `uniqid()` request ids are the parameter `callIds`.
- The tool-call arguments decoded at client/client.php:71 are not modelled. They are neither sent nor used, and only reach a log line.
- In the server, `params.arguments` (server/server.js:101) is read but unused.
- JSON numbers are integers. Fractions, exponents, NaN, -0 and the exponent form JavaScript uses for 1e21 and above are not represented.
- `JsSemantics.ToJsString`, `Json.Decimal`: an integer of magnitude 2^53 or more is written with every digit. JavaScript holds such a number as a double, which `JSON.parse` already rounds, and writes it with at most 17 significant digits (`String(2**60)` is "1152921504606847000"). So a method or tool name given as such a number is named with different digits in the "Method not found: " (server/server.js:170) and "Tool not found: " (server/server.js:130) messages than the server sends.
- `McpServer.Serve`: every request in a run sees the same time `now`, so a run models `getCurrentTime` as answering one time throughout. No property depends on the time.
- Strings are sequences of Unicode scalar values, not of UTF-16 code units as in JavaScript. A character outside the Basic Multilingual Plane is one element, and a lone surrogate cannot occur, so `JSON.stringify`'s escaping of lone surrogates is not modelled.
- JSON objects are maps, so the order of their members is not modelled. The text of a tool output is built from the typed `ToolOutput`, in the order the handler writes its members.
- `McpClient.DiscoveredTools`: a `result.tools` value that is a JSON object aborts the run in the model. PHP would map the object's values and keep its keys.
- PHP before version 8 is not modelled. There, a string offset like `$tool['name']` on a string is a warning, not an error.
- The undefined `$tools` at client/client.php:138 is null, so the second request offers no tools. The model sends `tools: None` and models no more of it.
- The constructor is not modelled. Its `parent::__construct()` call (client/client.php:11) is in a class without a parent, which PHP 8 rejects with a fatal error when it compiles the file, so client/client.php as written does not load; the model describes `mcp` as if that call were absent.
- `McpServer.RunTool`, `McpServerProperties.IncrementsCount`: the counter is an unbounded integer. In JavaScript it is a double, and from 2^53 on `counter++` (server/server.js:115) no longer changes it. The model does not capture that saturation, which needs 2^53 increments.
- Concurrency is not modelled: requests to the server are handled one at a time. `Serve` threads the counter through a sequence of requests.

Where the code departs from section 4 of the JSON-RPC 2.0 Specification or from what its own comments suggest, the model follows the code.
- Validation (server/server.js:29) asks for a truthy `method`, not a string. A request with `method: 5` passes validation and gets -32601.
- A `null` body is not answered with -32600, although the comment at server/server.js:38 says the id is preserved "if available". Reading `null.id` throws, and the route answers with HTTP status 500 and error -32603. With the Express wiring as it stands, `express.json()` in its default strict mode rejects a `null` or scalar body before the route runs, so this path is reached only if that wiring changes. The model takes the handler as it is written.
- The inner catch block (server/server.js:135-139) is meant to turn a failing tool into an `is_error` result. For a tool name whose string conversion throws, it throws again, so the reply is error -32000.
- With no tool calls, the first completion's content is echoed as it is (client/client.php:154). A null content echoes nothing.
- The tool server always receives an empty `arguments` object (client/client.php:80, client/client.php:88), not the arguments decoded from the model's tool call at client/client.php:71.
