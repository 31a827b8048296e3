/** The two brokers through which the server calls back into the Python client:
    `tool.call` (`_handle_tool_call_request` / `_execute_tool_call`) and
    `permission.request` (`_handle_permission_request`). Both resolve the
    session in the registry first; both contain every failure of user code. */
module InboundBrokers {
  import opened Wrappers
  import opened Values
  import opened CopilotClient

  // ---------------------------------------------------------------------------
  // Tool calls

  datatype ToolResultType = SuccessResult | FailureResult | RejectedResult | DeniedResult

  datatype ToolResult = ToolResult(
    textResultForLlm: string,
    resultType: ToolResultType,
    error: Option<string>,
    sessionLog: Option<string>,
    toolTelemetry: map<string, Value>)

  /** What the handler is called with. */
  datatype ToolInvocation = ToolInvocation(sessionId: string, toolCallId: string, toolName: string, arguments: Value)

  /** What a tool handler did when called: returned a result, returned `None`,
      or raised. */
  datatype ToolOutcome = Returned(result: ToolResult) | ReturnedNone | Raised(message: string)

  /** The `tool.call` request parameters; `None` is an absent key. */
  datatype ToolCallParams = ToolCallParams(
    sessionId: Option<string>,
    toolCallId: Option<string>,
    toolName: Option<string>,
    arguments: Option<Value>)

  const InvalidToolCall: string := "invalid tool call payload"
  const InvalidPermissionRequest: string := "invalid permission request payload"
  const ToolErrorText: string := "Invoking this tool produced an error. Detailed information is not available."
  const NoResultText: string := "Tool returned no result."
  const NoResultError: string := "tool returned no result"

  function UnknownSession(id: string): string {
    "unknown session " + id
  }

  function NotSupportedError(name: string): string {
    "tool '" + name + "' not supported"
  }

  /** `_build_unsupported_tool_result`. */
  function UnsupportedToolResult(name: string): (r: ToolResult)
    ensures r.resultType == FailureResult && r.error == Some(NotSupportedError(name))
    ensures r.textResultForLlm == "Tool '" + name + "' is not supported."
    ensures r.toolTelemetry == map[]
  {
    ToolResult("Tool '" + name + "' is not supported.", FailureResult, Some(NotSupportedError(name)), None, map[])
  }

  /** `_execute_tool_call`: runs the handler and turns whatever it did into a
      result. A raised exception becomes a failure whose text for the model is
      fixed, with the exception text kept only in `error`; a `None` return
      becomes a failure too; a returned result passes through unchanged. */
  function ExecuteToolCall(invocation: ToolInvocation, handler: HandlerId,
                           run: (HandlerId, ToolInvocation) -> ToolOutcome): (r: ToolResult)
    ensures run(handler, invocation).Returned? ==> r == run(handler, invocation).result
    ensures run(handler, invocation).Raised? ==>
              && r.resultType == FailureResult
              && r.textResultForLlm == ToolErrorText
              && r.error == Some(run(handler, invocation).message)
    ensures run(handler, invocation).ReturnedNone? ==>
              r.resultType == FailureResult && r.error == Some(NoResultError) && r.textResultForLlm == NoResultText
  {
    match run(handler, invocation)
    case Returned(result) => result
    case Raised(message) => ToolResult(ToolErrorText, FailureResult, Some(message), None, map[])
    case ReturnedNone => ToolResult(NoResultText, FailureResult, Some(NoResultError), None, map[])
  }

  /** Python truthiness of an optional string field. */
  predicate Present(s: Option<string>) {
    s.Some? && s.value != ""
  }

  /** `_handle_tool_call_request`: a payload missing (or with an empty)
      session id, call id or tool name raises; so does a session that is not
      registered. A tool the session does not have is a normal failure result;
      otherwise the session's handler for the tool runs with the invocation
      built from the payload. */
  function HandleToolCall(sessions: Registry, params: ToolCallParams,
                          run: (HandlerId, ToolInvocation) -> ToolOutcome): (r: Result<ToolResult, string>)
    ensures !Present(params.sessionId) || !Present(params.toolCallId) || !Present(params.toolName)
            ==> r == Failure(InvalidToolCall)
    ensures Present(params.sessionId) && Present(params.toolCallId) && Present(params.toolName) ==>
              var id := params.sessionId.value;
              && (id !in sessions ==> r == Failure(UnknownSession(id)))
              && (id in sessions && params.toolName.value !in sessions[id].tools
                  ==> r == Success(UnsupportedToolResult(params.toolName.value)))
              && (id in sessions && params.toolName.value in sessions[id].tools ==>
                    r == Success(ExecuteToolCall(
                           ToolInvocation(id, params.toolCallId.value, params.toolName.value,
                                          params.arguments.GetOr(Null)),
                           sessions[id].tools[params.toolName.value], run)))
    ensures r.Failure? ==> r.error == InvalidToolCall || r.error == UnknownSession(params.sessionId.value)
  {
    if !Present(params.sessionId) || !Present(params.toolCallId) || !Present(params.toolName) then
      Failure(InvalidToolCall)
    else
      var id := params.sessionId.value;
      if id !in sessions then
        Failure(UnknownSession(id))
      else
        var name := params.toolName.value;
        var tools := sessions[id].tools;
        if name !in tools then
          Success(UnsupportedToolResult(name))
        else
          var invocation := ToolInvocation(id, params.toolCallId.value, name, params.arguments.GetOr(Null));
          Success(ExecuteToolCall(invocation, tools[name], run))
  }

  /** A tool the session has not registered is answered without running any
      handler: the answer is the same whatever the handlers would do. */
  lemma UnsupportedToolRunsNothing(sessions: Registry, params: ToolCallParams,
                                   run1: (HandlerId, ToolInvocation) -> ToolOutcome,
                                   run2: (HandlerId, ToolInvocation) -> ToolOutcome)
    requires params.sessionId.Some? && params.sessionId.value in sessions
    requires params.toolName.Some? && params.toolName.value !in sessions[params.sessionId.value].tools
    ensures HandleToolCall(sessions, params, run1) == HandleToolCall(sessions, params, run2)
  {
  }

  /** Fault containment: a tool call that reaches a known session always
      answers with a result, never an error, whatever its handler does; and
      the answer reports success only when a handler itself returned it. */
  lemma ToolCallContained(sessions: Registry, params: ToolCallParams,
                          run: (HandlerId, ToolInvocation) -> ToolOutcome)
    requires Present(params.sessionId) && Present(params.toolCallId) && Present(params.toolName)
    requires params.sessionId.value in sessions
    ensures HandleToolCall(sessions, params, run).Success?
    ensures HandleToolCall(sessions, params, run).value.resultType != FailureResult
            ==> exists h, inv :: run(h, inv) == Returned(HandleToolCall(sessions, params, run).value)
  {
    var id := params.sessionId.value;
    var name := params.toolName.value;
    if name in sessions[id].tools {
      var inv := ToolInvocation(id, params.toolCallId.value, name, params.arguments.GetOr(Null));
      var h := sessions[id].tools[name];
      if run(h, inv).Returned? {
        assert run(h, inv) == Returned(HandleToolCall(sessions, params, run).value);
      }
    }
  }

  /** Isolation between sessions: the answer depends only on the session the
      call names, so no other session's state can change it. */
  lemma ToolCallLocal(sessions1: Registry, sessions2: Registry, params: ToolCallParams,
                      run: (HandlerId, ToolInvocation) -> ToolOutcome)
    requires params.sessionId.Some?
    requires params.sessionId.value in sessions1 <==> params.sessionId.value in sessions2
    requires params.sessionId.value in sessions1 ==>
               sessions1[params.sessionId.value] == sessions2[params.sessionId.value]
    ensures HandleToolCall(sessions1, params, run) == HandleToolCall(sessions2, params, run)
  {
  }

  // ---------------------------------------------------------------------------
  // Permission requests

  datatype PermissionKind =
    | Approved
    | DeniedByRules
    | DeniedNoApprovalRule
    | DeniedInteractivelyByUser

  /** The wire names of the permission result kinds. */
  function KindName(k: PermissionKind): string {
    match k
    case Approved => "approved"
    case DeniedByRules => "denied-by-rules"
    case DeniedNoApprovalRule => "denied-no-approval-rule-and-could-not-request-from-user"
    case DeniedInteractivelyByUser => "denied-interactively-by-user"
  }

  datatype PermissionResult = PermissionResult(kind: PermissionKind, rules: Option<seq<Value>>)

  /** What the session's permission path did with the request. */
  datatype PermissionOutcome = Decided(result: PermissionResult) | PermissionRaised(message: string)

  /** The `permission.request` parameters; `None` is an absent key. */
  datatype PermissionParams = PermissionParams(sessionId: Option<string>, permissionRequest: Option<Value>)

  const FailClosed: PermissionResult := PermissionResult(DeniedNoApprovalRule, None)

  /** `_handle_permission_request`: a missing or empty session id or request
      raises, as does an unregistered session; otherwise the session decides,
      and if deciding raises the answer is the fail-closed denial. */
  function HandlePermission(sessions: Registry, params: PermissionParams,
                            decide: (SessionEntry, Value) -> PermissionOutcome): (r: Result<PermissionResult, string>)
    ensures !Present(params.sessionId) || params.permissionRequest.None? || !Truthy(params.permissionRequest.value)
            ==> r == Failure(InvalidPermissionRequest)
    ensures r.Failure? ==> r.error == InvalidPermissionRequest || r.error == UnknownSession(params.sessionId.value)
    ensures r.Failure? && r.error != InvalidPermissionRequest ==> params.sessionId.value !in sessions
    ensures r.Success? ==>
              && params.sessionId.Some? && params.sessionId.value in sessions
              && params.permissionRequest.Some?
              && match decide(sessions[params.sessionId.value], params.permissionRequest.value)
                 case Decided(result) => r.value == result
                 case PermissionRaised(_) => r.value == FailClosed
  {
    if !Present(params.sessionId) || params.permissionRequest.None? || !Truthy(params.permissionRequest.value) then
      Failure(InvalidPermissionRequest)
    else
      var id := params.sessionId.value;
      if id !in sessions then
        Failure(UnknownSession(id))
      else
        match decide(sessions[id], params.permissionRequest.value)
        case Decided(result) => Success(result)
        case PermissionRaised(_) => Success(FailClosed)
  }

  /** Never fails open: the broker approves only what the session itself
      approved, and a raising permission path is always a denial. */
  lemma PermissionFailsClosed(sessions: Registry, params: PermissionParams,
                              decide: (SessionEntry, Value) -> PermissionOutcome)
    requires HandlePermission(sessions, params, decide).Success?
    ensures var r := HandlePermission(sessions, params, decide).value;
            var asked := decide(sessions[params.sessionId.value], params.permissionRequest.value);
            && (r.kind == Approved ==> asked == Decided(r))
            && (asked.PermissionRaised? ==> KindName(r.kind) == "denied-no-approval-rule-and-could-not-request-from-user")
  {
  }

  /** The asymmetry between the brokers: an unknown session is an error for
      both, but a known session lacking the named tool is a result, not an
      error. */
  lemma UnknownSessionIsAnError(sessions: Registry, id: string, toolCallId: string, name: string,
                                request: Value, args: Option<Value>,
                                run: (HandlerId, ToolInvocation) -> ToolOutcome,
                                decide: (SessionEntry, Value) -> PermissionOutcome)
    requires id != "" && toolCallId != "" && name != "" && Truthy(request)
    requires id !in sessions
    ensures HandleToolCall(sessions, ToolCallParams(Some(id), Some(toolCallId), Some(name), args), run)
            == Failure(UnknownSession(id))
    ensures HandlePermission(sessions, PermissionParams(Some(id), Some(request)), decide)
            == Failure(UnknownSession(id))
  {
  }
}
