# Copilot SDK client core, modelled in Dafny

This project models the decision logic of the Copilot SDK. The SDK drives the
Copilot CLI as a JSON-RPC server. The model covers three parts:

- **The Python `CopilotClient`** (`python/copilot/client.py`):
  - option validation in the constructor and the `cli_url` parser;
  - the connection state machine: `start`, the protocol-version gate, `stop`
    and `force_stop`;
  - the session registry: create, resume, delete and notification routing;
  - the two brokers through which the server calls back into the client,
    `tool.call` and `permission.request`.
- **The Go `Session`** (`go/session.go`):
  - event subscriptions and their unsubscribe closures, and in-order dispatch;
  - the tool-handler table;
  - the permission, user-input and hook request handlers, with the typed hook
    inputs;
  - `Destroy`.
- **The Go JSON-RPC client** (`go/internal/jsonrpc2/jsonrpc2.go`):
  - `Content-Length` framing in both directions;
  - how an incoming message is classified;
  - the request-handler table and the answers `handleRequest` sends;
  - the pending-request table behind `Request`;
  - the version and variant bits of `generateUUID`.

Everything is an immutable datatype with pure functions over it. Three methods
carry loops: `Stop`, `DispatchEvent` and `RegisterTools`. Anything the code cannot see becomes
an input:

- a user callback (tool, permission, user-input or hook handler) is an opaque
  `HandlerId`;
- what a callback does is a function passed to the operation that calls it;
- the outcome of each RPC (`ping`, `session.destroy`, the RPC client's `stop`,
  `session.delete`) is given as a value;
- the random bytes of a UUID are given as a value.

"No handler was run" is then stated as "the answer is the same whatever the
handlers would do".

Modules:

| module | file | models |
|---|---|---|
| `Wrappers` | wrappers.dfy | `Option`, `Result`, `Outcome` |
| `Values` | values.dfy | decoded JSON values, Python truthiness, Go's typed field reads |
| `Decimal` | decimal.dfy | `%d` text, Python `int()`/`str()` on integers |
| `CliUrl` | cli_url.dfy | `_parse_cli_url` |
| `CopilotClient` | client.dfy | constructor, `start`, version gate, `stop`, `force_stop`, registry |
| `InboundBrokers` | brokers.dfy | `_handle_tool_call_request`, `_execute_tool_call`, `_handle_permission_request` |
| `HookInputs` | hook_inputs.dfy | the `parse*Input` helpers of `go/session.go` |
| `SessionHandlers` | session_handlers.dfy | the Go session's subscriptions, tool table, request handlers, `Destroy` |
| `Framing` | framing.dfy | `sendMessage` header and the `readLoop` header/body reader |
| `Dispatch` | dispatch.dfy | classification, `SetRequestHandler`, `handleRequest`, `handleResponse`, `Request` |
| `Uuid` | uuid.dfy | `generateUUID` |

## Model

| member | source | states |
|---|---|---|
| Decimal.NatToString | go/internal/jsonrpc2/jsonrpc2.go:179 | `%d` of a length is a non-empty digit string without a leading zero whose decimal value is the length; it is one digit exactly when the length is below 10 |
| Decimal.ParseIntToString | python/copilot/client.py:163 | `int()` reads back the decimal text of every integer, negative ones included |
| CliUrl.SplitOn | python/copilot/client.py:169 | `split(":")` gives one more part than there are colons, no part holds a colon, and joining the parts with colons gives the text back |
| CliUrl.StripScheme | python/copilot/client.py:161 | the URL is what is left, or `http://` or `https://` followed by it; `StripSchemeCases` shows that a URL without a colon is kept whole |
| Decimal.ParseInt | python/copilot/client.py:173-177 | a value comes back exactly for digits with an optional sign, and it is the digits' value, negated after `-` |
| CliUrl.ParseCliUrl | python/copilot/client.py:140-182 | a parsed address has a port in 1..65535 and a non-empty host without a colon, and its scheme-less text was all digits or held exactly one colon; every error is "Invalid port in cli_url" or "Invalid cli_url format", and the format error happens exactly when that text is neither all digits nor split in two by one colon |
| CliUrl.ParsePortOnly | python/copilot/client.py:161-166 | a digits-only URL gives `("localhost", p)` when p is in range and the invalid-port error otherwise |
| CliUrl.ParseHostPort | python/copilot/client.py:158-182 | `host:port`, with or without an `http://` or `https://` prefix, gives that host (or `localhost` for an empty host) and port |
| CliUrl.ParseWithoutColon | python/copilot/client.py:168-171 | text that is neither digits nor holds a colon is a format error |
| CliUrl.ParseHostBadPort | python/copilot/client.py:173-180 | a port outside 1..65535, including 0 and negative ones, is the invalid-port error naming the whole URL |
| CliUrl.ExamplePortOnly | python/test_client.py:38-42 | `"8080"` parses to `("localhost", 8080)` |
| CliUrl.ExampleHostPort | python/test_client.py:44-48 | `"127.0.0.1:9000"` parses to `("127.0.0.1", 9000)` |
| CliUrl.ExampleSchemes | python/test_client.py:50-60 | the `http://` and `https://` forms parse to their host and port |
| CliUrl.ExampleInvalidFormat | python/test_client.py:62-64 | `"invalid-url"` is a format error |
| CliUrl.ExampleInvalidPort | python/test_client.py:66-76 | ports 99999, 0 and -1 are invalid-port errors |
| CopilotClient.NewClient | python/copilot/client.py:102-138 | construction fails exactly when `cli_url` is combined with `use_stdio` or `cli_path` (the "mutually exclusive" error) or does not parse (the parser's error); with `cli_url` the client is external, `use_stdio` is off and host and port are the parsed ones; the CLI path falls back to `COPILOT_CLI_PATH`, then to `copilot`; a new client is disconnected with no sessions |
| CopilotClient.VerifyProtocolVersion | python/copilot/client.py:739-757 | passes exactly when the ping reports the expected version; a missing version and a different version each fail with their own message, and a failed ping fails with its own error |
| CopilotClient.Start | python/copilot/client.py:184-221 | when already connected nothing changes; otherwise it ends `connected` exactly when the spawn (unless external), the connection and the version gate all pass, and `error` otherwise, re-raising the first failure; sessions and options are untouched |
| CopilotClient.StartIdempotent | python/copilot/client.py:202-203 | after a successful start, starting again changes nothing whatever the steps would do |
| CopilotClient.Stop | python/copilot/client.py:223-275 | the registry is empty; every drained session's destroy is attempted exactly once; the errors are the failure messages of those attempts; if closing the RPC client raises, `stop` re-raises it, otherwise it ends `disconnected` without a client |
| CopilotClient.FailureMessagesCount | python/copilot/client.py:250-254 | there is exactly one error message per session whose destroy failed |
| CopilotClient.FailureMessagesEmpty | python/copilot/client.py:232-234 | the error list is empty exactly when every destroy succeeded |
| CopilotClient.FailureMessagesNameSessions | python/copilot/client.py:254 | every error reads "Failed to destroy session <id>: <reason>" for a drained session whose destroy failed with that reason |
| CopilotClient.ForceStop | python/copilot/client.py:277-312 | never raises: the registry is empty, there is no client, the state is `disconnected`, and options, host and port are kept |
| CopilotClient.EnsureConnected | python/copilot/client.py:342-346 | a connected client is left alone; an unconnected one without `auto_start` is refused with "Client not connected. Call start() first."; a pass means a connection exists; the registry is untouched |
| CopilotClient.OpenSession | python/copilot/client.py:444-451 | on success the session is filed under the id the server answered with, replacing only that entry; on failure the registry is unchanged |
| CopilotClient.CreateSession | python/copilot/client.py:314-453 | a created session is registered with its tools, and every other registered session is kept as it was |
| CopilotClient.ResumeSession | python/copilot/client.py:548-555 | the session is filed under the id the server answers with; an id that was asked for but not answered is not registered |
| CopilotClient.DeleteSession | python/copilot/client.py:708-737 | it passes exactly when connected and the server reports success; a failure leaves the client unchanged and names the id and the reason ("Unknown error" by default); success removes the id and keeps every other entry |
| CopilotClient.RouteNotification | python/copilot/client.py:920-929 | a notification reaches a session exactly when it is `session.event` and names a registered session |
| InboundBrokers.UnsupportedToolResult | python/copilot/client.py:1157-1172 | an unsupported tool gives a `failure` result with error "tool '<name>' not supported" and empty telemetry |
| InboundBrokers.ExecuteToolCall | python/copilot/client.py:1088-1139 | a returned result passes through; a raised exception gives `failure` with the fixed text for the model and the exception text only in `error`; a `None` return gives `failure` with "tool returned no result" |
| InboundBrokers.HandleToolCall | python/copilot/client.py:1048-1086 | a missing or empty session id, call id or tool name raises "invalid tool call payload"; an unknown session raises "unknown session <id>"; an unregistered tool gives the unsupported result; otherwise the session's handler runs with the payload's invocation |
| InboundBrokers.UnsupportedToolRunsNothing | python/copilot/client.py:1073-1075 | for a tool the session lacks, the answer is the same whatever the handlers would do |
| InboundBrokers.ToolCallContained | python/copilot/client.py:1116-1137 | a call that reaches a known session always yields a result, never an error, and a non-failure result is one a handler returned |
| InboundBrokers.ToolCallLocal | python/copilot/client.py:1068-1071 | the answer depends only on the registry entry of the session it names |
| InboundBrokers.HandlePermission | python/copilot/client.py:1013-1046 | a missing session id or request raises "invalid permission request payload"; an unknown session raises; otherwise the session's decision is returned, and a raising decision becomes the `denied-no-approval-rule-and-could-not-request-from-user` denial |
| InboundBrokers.PermissionFailsClosed | python/copilot/client.py:1036-1046 | the broker approves only what the session approved, and a raising permission path is always the fail-closed denial |
| InboundBrokers.UnknownSessionIsAnError | python/copilot/client.py:1029-1071 | an unknown session is "unknown session <id>" for both brokers |
| HookInputs.ParsePreToolUseInput | go/session.go:449-462 | `timestamp`, `cwd` and `toolName` are each the value under the key when it has the expected type and the zero value otherwise; `toolArgs` is copied as is |
| HookInputs.ParsePostToolUseInput | go/session.go:464-478 | the same typed-or-zero reads, with `toolArgs` and `toolResult` copied as they are |
| HookInputs.ParseUserPromptSubmittedInput | go/session.go:480-492 | `timestamp`, `cwd` and `prompt` are typed-or-zero reads |
| HookInputs.ParseSessionStartInput | go/session.go:494-509 | `timestamp`, `cwd`, `source` and `initialPrompt` are typed-or-zero reads |
| HookInputs.ParseSessionEndInput | go/session.go:511-529 | `timestamp`, `cwd`, `reason`, `finalMessage` and `error` are typed-or-zero reads |
| HookInputs.ParseErrorOccurredInput | go/session.go:531-549 | `timestamp`, `cwd`, `error`, `errorContext` and the boolean `recoverable` are typed-or-zero reads |
| HookInputs.ParseWireRoundTrip | go/session.go:449-549 | each `parse*Input` reads back exactly the fields of that input as the CLI sends them |
| HookInputs.IllTypedFieldsAreIgnored | go/session.go:449-549 | a value of the wrong type under a key parses as if the key were absent, so the field keeps its zero value |
| HookInputs.ToolPayloadCopied | go/session.go:460-476 | `toolArgs` and `toolResult` are copied whatever their shape |
| SessionHandlers.On | go/session.go:235-243 | subscribing appends one entry at the end under an id no current subscription has, and keeps ids increasing |
| SessionHandlers.OnIdsIncrease | go/session.go:239-241 | each subscription's id is one more than the previous one's |
| SessionHandlers.FirstIndex | go/session.go:248-253 | the unsubscribe loop stops at the first entry with the id: it carries the id and no earlier entry does |
| SessionHandlers.Unsubscribe | go/session.go:245-254 | only the subscription list changes: it is unchanged when no entry carries the id and otherwise loses exactly the first entry that does; in a valid session the ids stay increasing and below the counter and no entry carries the id afterwards |
| SessionHandlers.UnsubscribeIdempotent | go/session.go:245-254 | calling an unsubscribe closure twice is the same as calling it once |
| SessionHandlers.OnThenUnsubscribe | go/session.go:235-254 | unsubscribing right after subscribing gives back the previous subscription list |
| SessionHandlers.DispatchEvent | go/session.go:554-573 | every subscriber is called exactly once, in subscription order, with the event; a panicking handler does not stop the later ones |
| SessionHandlers.GetToolHandler | go/session.go:278-283 | a name has a handler exactly when the table holds one under it, and it is that handler |
| SessionHandlers.RegisterTools | go/session.go:263-283 | the new table replaces the old; a name finds the handler of the last tool declared under it, skipping empty names and nil handlers; nothing else in the session changes |
| SessionHandlers.HandlePermissionRequest | go/session.go:306-330 | without a handler the answer is `denied-no-approval-rule-and-could-not-request-from-user` with no error; otherwise the handler's answer to a request that has the typed `kind` and `toolCallId` and the whole request as `Extra` |
| SessionHandlers.HandleUserInputRequest | go/session.go:353-365 | without a handler the answer is the zero response and the error "no user input handler registered"; otherwise the handler's own answer |
| SessionHandlers.HandleHooksInvoke | go/session.go:388-445 | without hooks the answer is `(nil, nil)` for every hook type; with hooks, an unknown type is "unknown hook type: <t>", a known type with a nil callback is `(nil, nil)`, and otherwise the callback's answer to the parsed input |
| SessionHandlers.Destroy | go/session.go:644-668 | a failed request wraps its error and changes nothing; success clears the subscribers, the tool table and the permission handler and keeps the user-input handler, the hooks and the id counter |
| SessionHandlers.DestroyedSessionBehaviour | go/session.go:654-667 | after a successful destroy, tool lookups find nothing and permission requests get the default denial, while user-input and hook requests are answered exactly as before |
| SessionHandlers.DestroyThenOnFreshId | go/session.go:239-241 | subscribing after a destroy never reuses an id handed out before |
| Framing.ReadLine | go/internal/jsonrpc2/jsonrpc2.go:200-207 | the next line ends with its only newline and, together with what follows, is the stream; without a newline there is no line |
| Framing.ReadLineOfLine | go/internal/jsonrpc2/jsonrpc2.go:200 | a stream that starts with a whole line is read as that line followed by the rest |
| Framing.DigitPrefix | go/internal/jsonrpc2/jsonrpc2.go:216 | `%d` reads the longest run of digits at the front |
| Framing.ParseContentLength | go/internal/jsonrpc2/jsonrpc2.go:214-218 | only a line that starts with "Content-Length: " gives a length |
| Framing.ReadHeader | go/internal/jsonrpc2/jsonrpc2.go:199-219 | the header loop always consumes input, so the read loop makes progress, and afterwards the reader stands at a suffix of the stream |
| Framing.BlankLineEndsHeader | go/internal/jsonrpc2/jsonrpc2.go:209-212 | a blank line ends the header with the length read so far, and the reader stands right after it |
| Framing.ReadFrame | go/internal/jsonrpc2/jsonrpc2.go:196-230 | a frame is skipped exactly when the header announces no or zero length, ends the loop exactly when the stream ends inside the header or before the announced body is complete, and is otherwise a body of exactly the announced length followed by the rest of the stream; skipped and read frames consume input |
| Framing.ReadStream | go/internal/jsonrpc2/jsonrpc2.go:191-253 | the outer read loop yields only non-empty bodies; `StreamRoundTrip` shows they are the messages written, in order |
| Framing.EncodeFrame | go/internal/jsonrpc2/jsonrpc2.go:169-188 | a frame starts with "Content-Length: " and ends with the data itself; `FrameRoundTrip` reads it back |
| Framing.OtherHeaderIgnored | go/internal/jsonrpc2/jsonrpc2.go:214-218 | a header line that is neither blank nor a length is ignored |
| Framing.LengthHeaderOverrides | go/internal/jsonrpc2/jsonrpc2.go:214-218 | a length line replaces any earlier length: the last one wins |
| Framing.LengthLineParses | go/internal/jsonrpc2/jsonrpc2.go:179 | the header line `sendMessage` writes is one line, not blank, and parses back to the length |
| Framing.EncodedHeaderReads | go/internal/jsonrpc2/jsonrpc2.go:179-219 | the header `sendMessage` writes is read back as the data's length, and the reader then stands at the data |
| Framing.FrameRoundTrip | go/internal/jsonrpc2/jsonrpc2.go:179-230 | a written frame is read back as exactly its data, and an empty message is skipped |
| Framing.StreamRoundTrip | go/internal/jsonrpc2/jsonrpc2.go:191-253 | a stream of written frames is read back as the same non-empty messages in the same order |
| Dispatch.Classify | go/internal/jsonrpc2/jsonrpc2.go:232-251 | a method and an id make a request; otherwise an id makes a response; otherwise a method makes a notification; anything else is dropped (each as an if-and-only-if) |
| Dispatch.SentMessagesClassify | go/internal/jsonrpc2/jsonrpc2.go:135-165 | requests and notifications this client writes are classified as such when they name a method, and its responses always classify as responses |
| Dispatch.SetRequestHandler | go/internal/jsonrpc2/jsonrpc2.go:107-115 | a nil handler removes the method and any other handler is installed under it; no other method's entry changes |
| Dispatch.HandleRequest | go/internal/jsonrpc2/jsonrpc2.go:284-311 | the answer is a response with the request's id carrying either a result or an error; -32601 "Method not found: <m>" without a handler, the handler's own error, -32603 "request handler panic: <v>" on a panic, and an empty map for a nil result |
| Dispatch.UnhandledMethodRunsNothing | go/internal/jsonrpc2/jsonrpc2.go:289-292 | a method without a handler (or whose handler was removed) is answered without running any handler |
| Dispatch.ResponseKey | go/internal/jsonrpc2/jsonrpc2.go:257-260 | a string id is read as itself, `null` reads as the empty string, and no other id is read |
| Dispatch.HandleResponse | go/internal/jsonrpc2/jsonrpc2.go:256-271 | the table's keys never change, buffers hold at most one response, only the entry named by the response can change, and it changes only when its buffer was empty |
| Dispatch.DeliverAll | go/internal/jsonrpc2/jsonrpc2.go:256-271 | responses never add or remove pending entries |
| Dispatch.DeliverAllKeepsFirst | go/internal/jsonrpc2/jsonrpc2.go:122 | a waiting request ends up holding the first response addressed to it, and later ones are dropped |
| Dispatch.DeliverAllFull | go/internal/jsonrpc2/jsonrpc2.go:266-269 | a full buffer is never overwritten |
| Dispatch.LateResponseDropped | go/internal/jsonrpc2/jsonrpc2.go:128-132 | a response whose request has stopped waiting changes nothing |
| Dispatch.OutcomeError | go/internal/jsonrpc2/jsonrpc2.go:142-155 | `Request` returns an error exactly when sending failed, the server answered with an error, or the client stopped |
| Dispatch.Request | go/internal/jsonrpc2/jsonrpc2.go:118-156 | the id is removed from the pending table on every exit; send failure, stop, remote error and result are decided by the first response addressed to the id; a request still waiting keeps its empty entry |
| Dispatch.RequestGetsItsAnswer | go/internal/jsonrpc2/jsonrpc2.go:147-152 | a request answered under its own id returns that answer's result |
| Uuid.SetVersionBits | go/internal/jsonrpc2/jsonrpc2.go:343-344 | byte 6 has high nibble 4, byte 8 has top bits `10`, and every other bit is kept |
| Uuid.SetVersionBitsIdempotent | go/internal/jsonrpc2/jsonrpc2.go:343-344 | forcing the bits twice is the same as forcing them once |
| Uuid.Hex | go/internal/jsonrpc2/jsonrpc2.go:345 | `%x` of a byte slice is two lower-case hex digits per byte, high nibble first |
| Uuid.GenerateUuid | go/internal/jsonrpc2/jsonrpc2.go:340-346 | 36 characters, hyphens at 8, 13, 18 and 23, lower-case hex elsewhere, `4` at 14 and one of `8 9 a b` at 19 |
| Uuid.HexRoundTrip | go/internal/jsonrpc2/jsonrpc2.go:345 | hex text decodes back to the bytes it was printed from |
| Uuid.HexAppend | go/internal/jsonrpc2/jsonrpc2.go:345 | printing two byte slices one after another is printing their concatenation |
| Uuid.HexGroups | go/internal/jsonrpc2/jsonrpc2.go:345 | the five groups `b[0:4]` … `b[10:]` printed one after another are the hex of all sixteen bytes |
| Uuid.LayoutShape | go/internal/jsonrpc2/jsonrpc2.go:345 | the `%x-%x-%x-%x-%x` layout of groups of 8, 4, 4, 4 and 12 hex digits puts hyphens at 8, 13, 18 and 23 and hex digits everywhere else |
| Uuid.UuidDecodes | go/internal/jsonrpc2/jsonrpc2.go:340-346 | removing the hyphens and decoding gives back the random bytes with only the version and variant bits forced |

## Left out

- Processes and sockets are not modelled: spawning the CLI, the port announcement and its timeout, stdio or TCP connection, terminate, wait and kill. Each is an outcome given as input (`StartSteps`, `rpcStop`). The bookkeeping of the spawned process and the port it announced is dropped too.
- Concurrency is not modelled: locks, asyncio, goroutines, channels and `WaitGroup`. Each locked section is one atomic step. The TCP notification handler reads the registry without the lock (python/copilot/client.py:1001), unlike the stdio one (python/copilot/client.py:926-927). Both route the same way here.
- JSON encoding and decoding are not modelled: `json.Marshal`/`Unmarshal`, `session_event_from_dict` and `UnmarshalSessionEvent`. Messages are records with an optional method, id, params, result and error. A body that fails to decode is not modelled.
- The outbound RPC wrappers (`ping`, `get_status`, `list_models`, `Send`, `SendAndWait`, `Abort`, `GetMessages`, `Notify`) and `handleNotification` are left out. So are the payload building and key renaming in `create_session`/`resume_session`. Neither decides anything the model needs.
- `_normalize_tool_result` is the identity on the tagged `ToolResult` record.
- The Python session class (`session.py`) is not part of this model. Its tool table is given as a map from tool name to `HandlerId`. Its permission path is an input function.
- `CliUrl.ParseCliUrl` reads a port as an optional sign followed by ASCII digits. Python's `int()` also accepts surrounding whitespace, underscores and non-ASCII digits, and `isdigit` accepts non-ASCII digits; neither is modelled.
- `Framing.ParseContentLength` reads the length as unsigned digits after exactly "Content-Length: ". Go's `Sscanf` also accepts a sign and flexible spacing, and fails on numbers that overflow `int`; none of this is modelled.
- `Framing.ReadFrame` counts characters as bytes: one character of a stream stands for one byte.
- `HookInputs.ParsePreToolUseInput` and the other parsers take `timestamp` as an integer. The source converts a JSON float with `int64(ts)`, and the truncation is not modelled.
- `SessionHandlers.On` uses an unbounded id counter. The source's `uint64` counter could wrap around, which is not modelled.
- `Dispatch.Request` takes the request id as a parameter instead of calling `generateUUID` itself. If two pending requests shared an id, the second would overwrite the first's entry; the model allows that and does not exclude it.
- `Dispatch.HandleRequest` answers synchronously. In the source the handler runs in its own goroutine.
- `Uuid.GenerateUuid` takes the random bytes as input. The error result of `rand.Read` is ignored in the source and is not modelled.
- `CopilotClient.Stop` follows the code rather than the method's summary. When closing the RPC client raises, the exception propagates: the sessions have already been drained, but the state is not set to `disconnected` and the client reference is kept. The model returns `StopRaised` with that state.
- Logging to stdout and the user-visible text printed by the Go read loop are not modelled.
