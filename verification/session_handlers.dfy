/** The Go `Session`'s local state and the handlers through which the CLI calls
    into it: event subscriptions (`On` and the unsubscribe closure it returns),
    `dispatchEvent`, the tool-handler table, the permission, user-input and
    hook brokers, and `Destroy`. Every user callback is an opaque `HandlerId`;
    what it does when called is a parameter of the operation that calls it. */
module SessionHandlers {
  import opened Wrappers
  import opened Values
  import opened HookInputs

  /** A Go `(value, error)` pair; `err == None` is a nil error. */
  datatype GoReply<T> = GoReply(value: T, err: Option<string>)

  datatype Subscription = Subscription(id: nat, handler: HandlerId)

  /** A tool as declared by the application; `handler == None` is a nil handler. */
  datatype Tool = Tool(name: string, handler: Option<HandlerId>)

  /** `SessionHooks`: each callback may be nil. */
  datatype Hooks = Hooks(
    onPreToolUse: Option<HandlerId>,
    onPostToolUse: Option<HandlerId>,
    onUserPromptSubmitted: Option<HandlerId>,
    onSessionStart: Option<HandlerId>,
    onSessionEnd: Option<HandlerId>,
    onErrorOccurred: Option<HandlerId>)

  datatype Session = Session(
    sessionId: string,
    handlers: seq<Subscription>,
    nextHandlerId: nat,
    toolHandlers: map<string, HandlerId>,
    permissionHandler: Option<HandlerId>,
    userInputHandler: Option<HandlerId>,
    hooks: Option<Hooks>)

  /** Subscriptions are kept in the order they were made, so their ids are
      strictly increasing, and every id was handed out before `nextHandlerId`. */
  predicate Valid(s: Session) {
    (forall i, j :: 0 <= i < j < |s.handlers| ==> s.handlers[i].id < s.handlers[j].id) &&
    (forall i :: 0 <= i < |s.handlers| ==> s.handlers[i].id < s.nextHandlerId)
  }

  function NewSession(sessionId: string): (s: Session)
    ensures Valid(s) && s.handlers == [] && s.toolHandlers == map[]
  {
    Session(sessionId, [], 0, map[], None, None, None)
  }

  // ---------------------------------------------------------------------------
  // Subscriptions

  /** `On`: appends the handler under a fresh id; the id is what the returned
      unsubscribe closure captures. */
  function On(s: Session, handler: HandlerId): (r: (Session, nat))
    requires Valid(s)
    ensures Valid(r.0)
    ensures r.0.handlers == s.handlers + [Subscription(r.1, handler)]
    ensures forall i :: 0 <= i < |s.handlers| ==> s.handlers[i].id != r.1
    ensures r.0.sessionId == s.sessionId && r.0.toolHandlers == s.toolHandlers
  {
    var id := s.nextHandlerId;
    (s.(handlers := s.handlers + [Subscription(id, handler)], nextHandlerId := id + 1), id)
  }

  /** Each subscription's id is one more than the previous subscription's. */
  lemma OnIdsIncrease(s: Session, first: HandlerId, second: HandlerId)
    requires Valid(s)
    ensures On(On(s, first).0, second).1 == On(s, first).1 + 1
    ensures On(On(s, first).0, second).0.handlers ==
      s.handlers + [Subscription(On(s, first).1, first), Subscription(On(s, first).1 + 1, second)]
  {
  }

  /** The position of the first subscription carrying `id`, or `|hs|` when
      there is none. */
  function FirstIndex(hs: seq<Subscription>, id: nat): (k: nat)
    ensures k <= |hs|
    ensures k < |hs| ==> hs[k].id == id
    ensures forall j :: 0 <= j < |hs| && hs[j].id == id ==> k <= j
  {
    if |hs| == 0 then 0
    else if hs[0].id == id then 0
    else 1 + FirstIndex(hs[1..], id)
  }

  /** The unsubscribe loop: the first subscription carrying `id` is spliced
      out and the loop stops there; without one the list is unchanged. */
  function RemoveFirst(hs: seq<Subscription>, id: nat): seq<Subscription> {
    var k := FirstIndex(hs, id);
    if k < |hs| then hs[..k] + hs[k + 1..] else hs
  }

  /** The unsubscribe closure `On` returns: only the subscription list
      changes, and at most the first entry carrying `id` leaves it. In a valid
      session ids are unique, so afterwards no entry carries `id`. */
  function Unsubscribe(s: Session, id: nat): (r: Session)
    ensures r == s.(handlers := r.handlers)
    ensures (forall i :: 0 <= i < |s.handlers| ==> s.handlers[i].id != id) ==> r.handlers == s.handlers
    ensures r.handlers == s.handlers ||
      exists k :: 0 <= k < |s.handlers| && s.handlers[k].id == id && r.handlers == s.handlers[..k] + s.handlers[k + 1..]
    ensures Valid(s) ==> Valid(r)
    ensures Valid(s) ==> forall i :: 0 <= i < |r.handlers| ==> r.handlers[i].id != id
  {
    var r := s.(handlers := RemoveFirst(s.handlers, id));
    if Valid(s) then RemoveFirstKeepsValid(s, id); r else r
  }

  /** Where each entry of a list with position `k` removed came from. */
  lemma RemovedAt(hs: seq<Subscription>, k: nat, m: nat)
    requires k < |hs| && m < |hs| - 1
    ensures (hs[..k] + hs[k + 1..])[m] == hs[if m < k then m else m + 1]
  {
  }

  /** In a valid session, removing the first entry carrying `id` keeps the ids
      increasing and below the counter, and leaves no entry carrying `id`. */
  lemma RemoveFirstKeepsValid(s: Session, id: nat)
    requires Valid(s)
    ensures Valid(s.(handlers := RemoveFirst(s.handlers, id)))
    ensures forall i :: 0 <= i < |RemoveFirst(s.handlers, id)| ==> RemoveFirst(s.handlers, id)[i].id != id
  {
    var hs := s.handlers;
    var k := FirstIndex(hs, id);
    if k < |hs| {
      var r := hs[..k] + hs[k + 1..];
      forall i, j | 0 <= i < j < |r|
        ensures r[i].id < r[j].id
      {
        RemovedAt(hs, k, i);
        RemovedAt(hs, k, j);
      }
      forall i | 0 <= i < |r|
        ensures r[i].id < s.nextHandlerId && r[i].id != id
      {
        RemovedAt(hs, k, i);
      }
    }
  }

  /** Calling an unsubscribe closure twice has the effect of calling it once. */
  lemma UnsubscribeIdempotent(s: Session, id: nat)
    requires Valid(s)
    ensures Unsubscribe(Unsubscribe(s, id), id) == Unsubscribe(s, id)
  {
    var r := Unsubscribe(s, id);
    assert FirstIndex(r.handlers, id) == |r.handlers|;
  }

  /** Unsubscribing right after subscribing restores the subscription list. */
  lemma OnThenUnsubscribe(s: Session, handler: HandlerId)
    requires Valid(s)
    ensures Unsubscribe(On(s, handler).0, On(s, handler).1).handlers == s.handlers
  {
    var (s', id) := On(s, handler);
    var hs := s'.handlers;
    assert hs[|s.handlers|].id == id;
    var k := FirstIndex(hs, id);
    assert forall j :: 0 <= j < |s.handlers| ==> hs[j].id != id;
    assert k == |s.handlers|;
    assert hs[..k] == s.handlers;
  }

  // ---------------------------------------------------------------------------
  // Event dispatch

  /** One call of a subscribed handler and whether it panicked. */
  datatype Delivery = Delivery(handler: HandlerId, event: Value, panicked: bool)

  /** `dispatchEvent`: takes a snapshot of the subscribers and calls each in
      subscription order; a panicking handler is recovered and the rest are
      still called. */
  method DispatchEvent(s: Session, event: Value, panics: HandlerId -> bool) returns (log: seq<Delivery>)
    ensures |log| == |s.handlers|
    ensures forall i :: 0 <= i < |log| ==>
      log[i] == Delivery(s.handlers[i].handler, event, panics(s.handlers[i].handler))
  {
    var snapshot := s.handlers;
    log := [];
    var i := 0;
    while i < |snapshot|
      invariant 0 <= i <= |snapshot|
      invariant |log| == i
      invariant forall k :: 0 <= k < i ==>
        log[k] == Delivery(snapshot[k].handler, event, panics(snapshot[k].handler))
    {
      var h := snapshot[i].handler;
      log := log + [Delivery(h, event, panics(h))];
      i := i + 1;
    }
  }

  // ---------------------------------------------------------------------------
  // Tool handlers

  /** The reference meaning of a registration list: the handler of the LAST
      tool declared under `name`, skipping tools with an empty name or a nil
      handler. */
  function LastHandler(tools: seq<Tool>, name: string): Option<HandlerId> {
    if |tools| == 0 then None
    else
      var t := tools[|tools| - 1];
      if t.name == name && t.name != "" && t.handler.Some? then t.handler
      else LastHandler(tools[..|tools| - 1], name)
  }

  function Lookup(table: map<string, HandlerId>, name: string): Option<HandlerId> {
    if name in table then Some(table[name]) else None
  }

  /** `getToolHandler`: the handler registered under `name`, if any. */
  function GetToolHandler(s: Session, name: string): (r: Option<HandlerId>)
    ensures r.None? <==> name !in s.toolHandlers
    ensures r.Some? ==> r.value == s.toolHandlers[name]
  {
    Lookup(s.toolHandlers, name)
  }

  /** `registerTools`: replaces the table with a fresh one filled in
      declaration order, so a later tool of the same name wins. */
  method RegisterTools(s: Session, tools: seq<Tool>) returns (r: Session)
    ensures r == s.(toolHandlers := r.toolHandlers)
    ensures forall name :: GetToolHandler(r, name) == LastHandler(tools, name)
    ensures "" !in r.toolHandlers
  {
    var table: map<string, HandlerId> := map[];
    var i := 0;
    while i < |tools|
      invariant 0 <= i <= |tools|
      invariant forall name :: Lookup(table, name) == LastHandler(tools[..i], name)
      invariant "" !in table
    {
      var t := tools[i];
      assert tools[..i + 1][..i] == tools[..i];
      if t.name != "" && t.handler.Some? {
        table := table[t.name := t.handler.value];
      }
      i := i + 1;
    }
    assert tools[..i] == tools;
    r := s.(toolHandlers := table);
  }

  // ---------------------------------------------------------------------------
  // Permission requests

  datatype PermissionRequest = PermissionRequest(kind: string, toolCallId: string, extra: Object)

  /** `PermissionRequestResult`; only `Kind` is modelled, the other fields
      travel opaquely. */
  datatype PermissionRequestResult = PermissionRequestResult(kind: string, rest: Value)

  const NoApprovalRule: string := "denied-no-approval-rule-and-could-not-request-from-user"

  /** `handlePermissionRequest`: without a handler it denies, with a nil error;
      otherwise the handler gets the typed `kind` and `toolCallId` and the
      whole request as `Extra`, and its answer is returned as it is. */
  function HandlePermissionRequest(s: Session, requestData: Object,
                                   run: (HandlerId, PermissionRequest, string) -> GoReply<PermissionRequestResult>)
    : (r: GoReply<PermissionRequestResult>)
    ensures s.permissionHandler.None? ==> r == GoReply(PermissionRequestResult(NoApprovalRule, Null), None)
    ensures s.permissionHandler.Some? ==>
      exists request :: r == run(s.permissionHandler.value, request, s.sessionId) &&
        request.extra == requestData &&
        request.kind == StringField(requestData, "kind") && request.toolCallId == StringField(requestData, "toolCallId")
  {
    match s.permissionHandler
    case None => GoReply(PermissionRequestResult(NoApprovalRule, Null), None)
    case Some(h) =>
      var request := PermissionRequest(StringField(requestData, "kind"), StringField(requestData, "toolCallId"), requestData);
      run(h, request, s.sessionId)
  }

  // ---------------------------------------------------------------------------
  // User input requests

  datatype UserInputResponse = UserInputResponse(answer: string, wasFreeform: bool)

  const NoUserInputHandler: string := "no user input handler registered"

  /** `handleUserInputRequest`: an error with the zero response when no
      handler is registered, the handler's own answer otherwise. */
  function HandleUserInputRequest(s: Session, request: Value,
                                  run: (HandlerId, Value, string) -> GoReply<UserInputResponse>)
    : (r: GoReply<UserInputResponse>)
    ensures s.userInputHandler.None? ==> r == GoReply(UserInputResponse("", false), Some(NoUserInputHandler))
    ensures s.userInputHandler.Some? ==> r == run(s.userInputHandler.value, request, s.sessionId)
  {
    match s.userInputHandler
    case None => GoReply(UserInputResponse("", false), Some(NoUserInputHandler))
    case Some(h) => run(h, request, s.sessionId)
  }

  // ---------------------------------------------------------------------------
  // Hooks

  predicate KnownHookType(hookType: string) {
    hookType in {"preToolUse", "postToolUse", "userPromptSubmitted", "sessionStart", "sessionEnd", "errorOccurred"}
  }

  /** The callback registered for a known hook type. */
  function HookCallback(hooks: Hooks, hookType: string): Option<HandlerId>
    requires KnownHookType(hookType)
  {
    match hookType
    case "preToolUse" => hooks.onPreToolUse
    case "postToolUse" => hooks.onPostToolUse
    case "userPromptSubmitted" => hooks.onUserPromptSubmitted
    case "sessionStart" => hooks.onSessionStart
    case "sessionEnd" => hooks.onSessionEnd
    case _ => hooks.onErrorOccurred
  }

  /** The typed input a known hook type is called with. */
  function ParseHookInput(hookType: string, input: Object): HookInput
    requires KnownHookType(hookType)
  {
    match hookType
    case "preToolUse" => PreToolUse(ParsePreToolUseInput(input))
    case "postToolUse" => PostToolUse(ParsePostToolUseInput(input))
    case "userPromptSubmitted" => UserPromptSubmitted(ParseUserPromptSubmittedInput(input))
    case "sessionStart" => SessionStart(ParseSessionStartInput(input))
    case "sessionEnd" => SessionEnd(ParseSessionEndInput(input))
    case _ => ErrorOccurred(ParseErrorOccurredInput(input))
  }

  function UnknownHookType(hookType: string): string {
    "unknown hook type: " + hookType
  }

  /** `handleHooksInvoke`: no hooks means a nil answer for ANY type, even an
      unknown one; with hooks, an unknown type is an error, a known type with
      a nil callback a nil answer, and otherwise the callback's answer. */
  function HandleHooksInvoke(s: Session, hookType: string, input: Object,
                             run: (HandlerId, HookInput, string) -> GoReply<Option<Value>>)
    : (r: GoReply<Option<Value>>)
    ensures s.hooks.None? ==> r == GoReply(None, None)
    ensures s.hooks.Some? && !KnownHookType(hookType) ==> r == GoReply(None, Some(UnknownHookType(hookType)))
    ensures s.hooks.Some? && KnownHookType(hookType) ==>
      match HookCallback(s.hooks.value, hookType)
      case None => r == GoReply(None, None)
      case Some(h) => r == run(h, ParseHookInput(hookType, input), s.sessionId)
  {
    match s.hooks
    case None => GoReply(None, None)
    case Some(hooks) =>
      if !KnownHookType(hookType) then GoReply(None, Some(UnknownHookType(hookType)))
      else
        match HookCallback(hooks, hookType)
        case None => GoReply(None, None)
        case Some(h) => run(h, ParseHookInput(hookType, input), s.sessionId)
  }

  // ---------------------------------------------------------------------------
  // Destroy

  function DestroyFailed(reason: string): string {
    "failed to destroy session: " + reason
  }

  /** `Destroy`, given the error of the `session.destroy` request (`None` when
      it succeeded). A failed request wraps the error and changes nothing; a
      successful one clears the event subscribers, the tool table and the
      permission handler, and leaves everything else in place. */
  function Destroy(s: Session, requestError: Option<string>): (r: (Session, Option<string>))
    ensures requestError.Some? ==> r == (s, Some(DestroyFailed(requestError.value)))
    ensures requestError.None? ==>
      r.1.None? && r.0.handlers == [] && r.0.toolHandlers == map[] && r.0.permissionHandler.None?
    ensures r.0.sessionId == s.sessionId && r.0.nextHandlerId == s.nextHandlerId
    ensures r.0.userInputHandler == s.userInputHandler && r.0.hooks == s.hooks
    ensures Valid(s) ==> Valid(r.0)
  {
    match requestError
    case Some(e) => (s, Some(DestroyFailed(e)))
    case None => (s.(handlers := [], toolHandlers := map[], permissionHandler := None), None)
  }

  /** After a successful `Destroy`, tool lookups find nothing and permission
      requests get the default denial whatever handler had been registered,
      while user-input requests and hooks are answered exactly as before. */
  lemma DestroyedSessionBehaviour(s: Session, name: string, requestData: Object, hookType: string, input: Object,
                                  request: Value,
                                  permit: (HandlerId, PermissionRequest, string) -> GoReply<PermissionRequestResult>,
                                  ask: (HandlerId, Value, string) -> GoReply<UserInputResponse>,
                                  hook: (HandlerId, HookInput, string) -> GoReply<Option<Value>>)
    ensures var d := Destroy(s, None).0;
      GetToolHandler(d, name).None? &&
      HandlePermissionRequest(d, requestData, permit) == GoReply(PermissionRequestResult(NoApprovalRule, Null), None) &&
      HandleUserInputRequest(d, request, ask) == HandleUserInputRequest(s, request, ask) &&
      HandleHooksInvoke(d, hookType, input, hook) == HandleHooksInvoke(s, hookType, input, hook)
  {
  }

  /** Subscribing again after a `Destroy` still hands out ids never used
      before, because the counter survives. */
  lemma DestroyThenOnFreshId(s: Session, handler: HandlerId, id: nat)
    requires Valid(s) && exists i :: 0 <= i < |s.handlers| && s.handlers[i].id == id
    ensures On(Destroy(s, None).0, handler).1 != id
  {
  }
}
