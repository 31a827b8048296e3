/** What the Go JSON-RPC client decides once a message body has been decoded:
    whether it is a request, a response or a notification; which handler an
    incoming request goes to and what is answered; and how responses reach
    the `Request` calls waiting for them through the pending-request table. */
module Dispatch {
  import opened Wrappers
  import opened Values
  import opened Decimal

  /** The JSON-RPC `error` member: `Error{Code, Message, Data}`. */
  datatype ErrorObject = ErrorObject(code: int, message: string, data: Option<Object>)

  /** A decoded body. `methodName == ""` is an absent method; `id` is the raw id,
      `None` when absent and `Some(Null)` for a literal `null`. */
  datatype Message = Message(
    methodName: string,
    id: Option<Value>,
    params: Object,
    result: Option<Object>,
    error: Option<ErrorObject>)

  datatype Kind = RequestKind | ResponseKind | NotificationKind | DroppedKind

  /** The order of `readLoop`'s three attempts: a method AND an id make a
      request; otherwise an id makes a response; otherwise a method makes a
      notification; anything else is dropped. */
  function Classify(m: Message): (k: Kind)
    ensures k == RequestKind <==> m.methodName != "" && m.id.Some?
    ensures k == ResponseKind <==> m.methodName == "" && m.id.Some?
    ensures k == NotificationKind <==> m.methodName != "" && m.id.None?
    ensures k == DroppedKind <==> m.methodName == "" && m.id.None?
  {
    if m.methodName != "" && m.id.Some? then RequestKind
    else if m.id.Some? then ResponseKind
    else if m.methodName != "" then NotificationKind
    else DroppedKind
  }

  // What this client writes.

  function RequestMessage(id: string, methodName: string, params: Object): Message {
    Message(methodName, Some(Str(id)), params, None, None)
  }

  function NotificationMessage(methodName: string, params: Object): Message {
    Message(methodName, None, params, None, None)
  }

  function ResultResponse(id: Option<Value>, result: Object): Message {
    Message("", id, map[], Some(result), None)
  }

  function ErrorResponse(id: Option<Value>, error: ErrorObject): Message {
    Message("", id, map[], None, Some(error))
  }

  /** Messages this client writes are classified on the other side as what
      they are, provided a request or notification names a method and a
      response answers a request that had an id. */
  lemma SentMessagesClassify(id: string, methodName: string, params: Object, rid: Value, result: Object,
                             error: ErrorObject)
    ensures Classify(RequestMessage(id, methodName, params)) == RequestKind <==> methodName != ""
    ensures Classify(NotificationMessage(methodName, params)) == NotificationKind <==> methodName != ""
    ensures Classify(ResultResponse(Some(rid), result)) == ResponseKind
    ensures Classify(ErrorResponse(Some(rid), error)) == ResponseKind
  {
  }

  // ---------------------------------------------------------------------------
  // Incoming requests

  type HandlerTable = map<string, HandlerId>

  /** `SetRequestHandler`: a nil handler removes the method, any other is
      installed under it. */
  function SetRequestHandler(table: HandlerTable, methodName: string, handler: Option<HandlerId>): (r: HandlerTable)
    ensures methodName in r <==> handler.Some?
    ensures handler.Some? ==> r[methodName] == handler.value
    ensures forall other :: other != methodName ==> (other in r <==> other in table)
    ensures forall other :: other != methodName && other in table ==> r[other] == table[other]
  {
    match handler
    case None => table - {methodName}
    case Some(h) => table[methodName := h]
  }

  /** What a request handler did: returned a result (`None` for a nil map),
      returned an error, or panicked with a value shown as text. */
  datatype HandlerOutcome = Answered(result: Option<Object>) | Rejected(error: ErrorObject) | Panicked(value: string)

  const MethodNotFound: int := -32601
  const InternalError: int := -32603

  function MethodNotFoundMessage(methodName: string): string {
    "Method not found: " + methodName
  }

  function PanicMessage(value: string): string {
    "request handler panic: " + value
  }

  /** `handleRequest`: the response sent back for a request. */
  function HandleRequest(table: HandlerTable, request: Message, run: (HandlerId, Object) -> HandlerOutcome)
    : (response: Message)
    requires Classify(request) == RequestKind
    ensures Classify(response) == ResponseKind && response.id == request.id
    ensures response.result.Some? <==> response.error.None?
    ensures request.methodName !in table ==>
      response.error == Some(ErrorObject(MethodNotFound, MethodNotFoundMessage(request.methodName), None))
    ensures request.methodName in table ==>
      match run(table[request.methodName], request.params)
      case Answered(result) => response.result == Some(result.GetOr(map[]))
      case Rejected(e) => response.error == Some(e)
      case Panicked(v) => response.error == Some(ErrorObject(InternalError, PanicMessage(v), None))
  {
    if request.methodName !in table then
      ErrorResponse(request.id, ErrorObject(MethodNotFound, MethodNotFoundMessage(request.methodName), None))
    else
      match run(table[request.methodName], request.params)
      case Answered(result) => ResultResponse(request.id, result.GetOr(map[]))
      case Rejected(e) => ErrorResponse(request.id, e)
      case Panicked(v) => ErrorResponse(request.id, ErrorObject(InternalError, PanicMessage(v), None))
  }

  /** A method without a handler is answered without running any handler,
      and a method whose handler was removed is answered the same way. */
  lemma UnhandledMethodRunsNothing(table: HandlerTable, request: Message,
                                   run1: (HandlerId, Object) -> HandlerOutcome,
                                   run2: (HandlerId, Object) -> HandlerOutcome)
    requires Classify(request) == RequestKind
    ensures request.methodName !in table ==> HandleRequest(table, request, run1) == HandleRequest(table, request, run2)
    ensures HandleRequest(SetRequestHandler(table, request.methodName, None), request, run1).error ==
      Some(ErrorObject(MethodNotFound, MethodNotFoundMessage(request.methodName), None))
  {
  }

  // ---------------------------------------------------------------------------
  // Pending requests

  /** Each waiting `Request` owns a channel with room for one response; the
      sequence is what that channel holds. */
  type Pending = map<string, seq<Message>>

  predicate Buffered(p: Pending) {
    forall id :: id in p ==> |p[id]| <= 1
  }

  /** `json.Unmarshal(response.ID, &id)` into a string: a string id is read as
      itself, a `null` leaves the string empty without an error, and any other
      id fails and the response is ignored. */
  function ResponseKey(id: Option<Value>): (r: Option<string>)
    ensures id.Some? && id.value.Str? ==> r == Some(id.value.s)
    ensures id == Some(Null) ==> r == Some("")
    ensures r.Some? ==> id.Some? && (id.value.Str? || id.value.Null?)
  {
    match id
    case Some(Str(s)) => Some(s)
    case Some(Null) => Some("")
    case _ => None
  }

  /** `handleResponse`: hands the response to the request waiting under its
      id if that request's buffer is free; otherwise drops it. */
  function HandleResponse(p: Pending, response: Message): (r: Pending)
    ensures r.Keys == p.Keys
    ensures Buffered(p) ==> Buffered(r)
    ensures forall id :: id in p && Some(id) != ResponseKey(response.id) ==> r[id] == p[id]
    ensures forall id :: id in p && Some(id) == ResponseKey(response.id) ==>
      r[id] == if |p[id]| == 0 then [response] else p[id]
  {
    match ResponseKey(response.id)
    case Some(id) =>
      if id in p && |p[id]| == 0 then p[id := [response]] else p
    case None => p
  }

  /** Responses arriving one after another. */
  function DeliverAll(p: Pending, incoming: seq<Message>): (r: Pending)
    ensures r.Keys == p.Keys
    decreases |incoming|
  {
    if |incoming| == 0 then p else DeliverAll(HandleResponse(p, incoming[0]), incoming[1..])
  }

  /** The first of `incoming` addressed to `id`. */
  function FirstFor(incoming: seq<Message>, id: string): Option<Message> {
    if |incoming| == 0 then None
    else if ResponseKey(incoming[0].id) == Some(id) then Some(incoming[0])
    else FirstFor(incoming[1..], id)
  }

  function AsSeq(m: Option<Message>): seq<Message> {
    match m
    case None => []
    case Some(x) => [x]
  }

  /** A request that is waiting with an empty buffer ends up holding the FIRST
      response addressed to it; later ones are dropped. */
  lemma {:induction false} DeliverAllKeepsFirst(p: Pending, id: string, incoming: seq<Message>)
    requires id in p && |p[id]| == 0
    ensures DeliverAll(p, incoming)[id] == AsSeq(FirstFor(incoming, id))
    decreases |incoming|
  {
    if |incoming| > 0 {
      var p1 := HandleResponse(p, incoming[0]);
      if ResponseKey(incoming[0].id) == Some(id) {
        DeliverAllFull(p1, id, incoming[1..]);
      } else {
        DeliverAllKeepsFirst(p1, id, incoming[1..]);
      }
    }
  }

  /** A full buffer stays as it is. */
  lemma {:induction false} DeliverAllFull(p: Pending, id: string, incoming: seq<Message>)
    requires id in p && |p[id]| > 0
    ensures DeliverAll(p, incoming)[id] == p[id]
    decreases |incoming|
  {
    if |incoming| > 0 {
      DeliverAllFull(HandleResponse(p, incoming[0]), id, incoming[1..]);
    }
  }

  /** A response whose request is no longer waiting changes nothing. */
  lemma LateResponseDropped(p: Pending, id: string, response: Message)
    requires ResponseKey(response.id) == Some(id)
    ensures HandleResponse(p - {id}, response) == p - {id}
  {
  }

  // ---------------------------------------------------------------------------
  // Request

  datatype RequestOutcome =
    | Blocked                      // still waiting: no response and the client not stopped
    | SendFailed(reason: string)
    | RemoteError(error: ErrorObject)
    | Returned(result: Option<Object>)
    | ClientStopped

  function SendFailedMessage(reason: string): string {
    "failed to send request: " + reason
  }

  /** The text of a returned `*Error`. */
  function ErrorText(e: ErrorObject): string {
    "JSON-RPC Error " + IntToString(e.code) + ": " + e.message
  }

  /** The error text `Request` returns for each way it can fail. */
  function OutcomeError(o: RequestOutcome): (r: Option<string>)
    ensures r.None? <==> o.Blocked? || o.Returned?
  {
    match o
    case SendFailed(reason) => Some(SendFailedMessage(reason))
    case RemoteError(e) => Some(ErrorText(e))
    case ClientStopped => Some("client stopped")
    case _ => None
  }

  /** `Request` under the id `generateUUID` gave it: registers the id, sends
      (failing with `sendError` if given), lets `incoming` responses arrive,
      then takes the buffered response, or gives up if the client stopped
      (`stopped` also stands for Go's `select` choosing the stop channel when
      both are ready). On every exit the id is removed again. */
  function Request(p: Pending, id: string, sendError: Option<string>, incoming: seq<Message>, stopped: bool)
    : (r: (Pending, RequestOutcome))
    ensures r.1.Blocked? <==> sendError.None? && !stopped && FirstFor(incoming, id).None?
    ensures !r.1.Blocked? ==> r.0.Keys == p.Keys - {id}
    ensures r.1.Blocked? ==> r.0.Keys == p.Keys + {id} && r.0[id] == []
    ensures sendError.Some? ==> r == (p - {id}, SendFailed(sendError.value))
    ensures sendError.None? && stopped ==> r.1 == ClientStopped
    ensures sendError.None? && !stopped && FirstFor(incoming, id).Some? ==>
      var answer := FirstFor(incoming, id).value;
      r.1 == if answer.error.Some? then RemoteError(answer.error.value) else Returned(answer.result)
  {
    var registered := p[id := []];
    if sendError.Some? then
      assert registered - {id} == p - {id};
      (registered - {id}, SendFailed(sendError.value))
    else
      var arrived := DeliverAll(registered, incoming);
      DeliverAllKeepsFirst(registered, id, incoming);
      var buffer := arrived[id];
      if stopped then (arrived - {id}, ClientStopped)
      else if |buffer| == 0 then (arrived, Blocked)
      else
        var response := buffer[0];
        if response.error.Some? then (arrived - {id}, RemoteError(response.error.value))
        else (arrived - {id}, Returned(response.result))
  }

  /** A request answered with the same id it was sent under gets that answer. */
  lemma RequestGetsItsAnswer(p: Pending, id: string, methodName: string, params: Object, result: Object)
    ensures Request(p, id, None, [ResultResponse(Some(Str(id)), result)], false).1 == Returned(Some(result))
  {
    assert FirstFor([ResultResponse(Some(Str(id)), result)], id).Some?;
  }
}
