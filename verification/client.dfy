/** The Python `CopilotClient`: constructor validation, the connection state
    machine (`start`, `stop`, `force_stop`), the protocol-version gate and the
    session registry. Every locked section of the source is one atomic step;
    the RPC calls it makes and the user code it runs are inputs. */
module CopilotClient {
  import opened Wrappers
  import opened Values
  import opened Decimal
  import opened CliUrl

  datatype ConnectionState = Disconnected | Connecting | Connected | Error

  /** The options dictionary handed to the constructor; `None` is an absent key. */
  datatype ClientOptions = ClientOptions(
    cliPath: Option<string>,
    port: Option<int>,
    useStdio: Option<bool>,
    cliUrl: Option<string>,
    logLevel: Option<string>,
    autoStart: Option<bool>,
    autoRestart: Option<bool>)

  /** The options after defaults are filled in (`self.options`). */
  datatype ResolvedOptions = ResolvedOptions(
    cliPath: string,
    port: int,
    useStdio: bool,
    logLevel: string,
    autoStart: bool,
    autoRestart: bool,
    cliUrl: Option<string>)

  /** A registered session: its id and its tool table (tool name to handler). */
  datatype SessionEntry = SessionEntry(id: string, tools: map<string, HandlerId>)

  type Registry = map<string, SessionEntry>

  /** The client object. `hasRpc` says whether `self._client` is set. */
  datatype Client = Client(
    options: ResolvedOptions,
    host: string,
    port: Option<int>,
    isExternal: bool,
    state: ConnectionState,
    hasRpc: bool,
    sessions: Registry)

  /** The invariant every operation keeps: a connected client has an RPC
      connection, and each session is filed under its own id. */
  ghost predicate Valid(c: Client) {
    && (c.state == Connected ==> c.hasRpc)
    && (forall id :: id in c.sessions ==> c.sessions[id].id == id)
  }

  /** Python truthiness of an optional string option. */
  predicate Given(s: Option<string>) {
    s.Some? && s.value != ""
  }

  const MutuallyExclusive: string := "cli_url is mutually exclusive with use_stdio and cli_path"
  const DefaultCliPath: string := "copilot"

  // ---------------------------------------------------------------------------
  // Construction

  /** `CopilotClient.__init__`. `envCliPath` is the `COPILOT_CLI_PATH`
      environment variable. Fails before any I/O on conflicting options or a
      malformed `cli_url`. */
  function NewClient(opts: ClientOptions, envCliPath: Option<string>): (r: Result<Client, string>)
    ensures Given(opts.cliUrl) && (opts.useStdio == Some(true) || Given(opts.cliPath))
            ==> r == Failure(MutuallyExclusive)
    ensures r.Failure? <==> Given(opts.cliUrl) && (opts.useStdio == Some(true) || Given(opts.cliPath)
                                                 || ParseCliUrl(opts.cliUrl.value).Failure?)
    ensures r.Failure? && r.error != MutuallyExclusive ==> r.error == ParseCliUrl(opts.cliUrl.value).error
    ensures r.Success? ==> Valid(r.value) && r.value.state == Disconnected
                           && !r.value.hasRpc && r.value.sessions == map[]
    ensures r.Success? && Given(opts.cliUrl) ==>
              && r.value.isExternal && !r.value.options.useStdio
              && r.value.options.cliUrl == opts.cliUrl
              && r.value.port.Some?
              && ParseCliUrl(opts.cliUrl.value) == Success(Endpoint(r.value.host, r.value.port.value))
    ensures r.Success? && !Given(opts.cliUrl) ==>
              && !r.value.isExternal && r.value.host == Localhost && r.value.port == None
              && r.value.options.useStdio == opts.useStdio.GetOr(true)
              && r.value.options.cliUrl == None
    ensures r.Success? ==> r.value.options.cliPath == opts.cliPath.GetOr(envCliPath.GetOr(DefaultCliPath))
  {
    if Given(opts.cliUrl) && (opts.useStdio == Some(true) || Given(opts.cliPath)) then
      Failure(MutuallyExclusive)
    else
      var target :- if Given(opts.cliUrl) then
                      match ParseCliUrl(opts.cliUrl.value)
                      case Success(e) => Success(Some(e))
                      case Failure(msg) => Failure(msg)
                    else Success(None);
      var resolved := ResolvedOptions(
        cliPath := opts.cliPath.GetOr(envCliPath.GetOr(DefaultCliPath)),
        port := opts.port.GetOr(0),
        useStdio := if Given(opts.cliUrl) then false else opts.useStdio.GetOr(true),
        logLevel := opts.logLevel.GetOr("info"),
        autoStart := opts.autoStart.GetOr(true),
        autoRestart := opts.autoRestart.GetOr(true),
        cliUrl := if Given(opts.cliUrl) then opts.cliUrl else None);
      Success(Client(
        options := resolved,
        host := if target.Some? then target.value.host else Localhost,
        port := if target.Some? then Some(target.value.port) else None,
        isExternal := target.Some?,
        state := Disconnected,
        hasRpc := false,
        sessions := map[]))
  }

  // ---------------------------------------------------------------------------
  // Protocol-version gate and start

  /** What the `ping` request during start produced: a failure, or a reply whose
      `protocolVersion` may be missing. */
  datatype PingReply = PingFailed(message: string) | Pong(protocolVersion: Option<int>)

  /** The outcomes of the steps `start` performs, in order. */
  datatype StartSteps = StartSteps(spawn: Outcome, connect: Outcome, ping: PingReply)

  const VersionMismatch := "SDK protocol version mismatch: SDK expects version "
  const NoVersionReported := ", but server does not report a protocol version. Please update your server to ensure compatibility."
  const UpdateAdvice := ". Please update your SDK or server to ensure compatibility."

  function MissingVersion(expected: int): string {
    VersionMismatch + IntToString(expected) + NoVersionReported
  }

  function WrongVersion(expected: int, reported: int): string {
    VersionMismatch + IntToString(expected) + ", but server reports version " + IntToString(reported) + UpdateAdvice
  }

  /** `_verify_protocol_version`: passes exactly when the server reports the
      expected version; otherwise the message names what the SDK expects. */
  function VerifyProtocolVersion(expected: int, ping: PingReply): (r: Outcome)
    ensures r.Pass? <==> ping == Pong(Some(expected))
    ensures ping.PingFailed? ==> r == Fail(ping.message)
    ensures ping == Pong(None) ==> r == Fail(MissingVersion(expected))
    ensures ping.Pong? && ping.protocolVersion.Some? && ping.protocolVersion.value != expected
            ==> r == Fail(WrongVersion(expected, ping.protocolVersion.value))
  {
    if ping.PingFailed? then Fail(ping.message)
    else if ping.protocolVersion.None? then Fail(MissingVersion(expected))
    else if ping.protocolVersion.value != expected then Fail(WrongVersion(expected, ping.protocolVersion.value))
    else Pass
  }

  /** `start`: a no-op when already connected; otherwise spawns the server
      (unless it is external), connects and runs the version gate, ending in
      `Connected` only when every step passed and `Error` on the first failure,
      whose message it re-raises. Sessions and options are never touched. */
  function Start(c: Client, steps: StartSteps, expected: int): (r: (Client, Outcome))
    ensures Valid(c) ==> Valid(r.0)
    ensures c.state == Connected ==> r == (c, Pass)
    ensures c.state != Connected ==>
              && (r.1.Pass? <==> (c.isExternal || steps.spawn.Pass?) && steps.connect.Pass?
                                 && steps.ping == Pong(Some(expected)))
              && r.0.state == (if r.1.Pass? then Connected else Error)
    ensures r.0.sessions == c.sessions && r.0.options == c.options && r.0.isExternal == c.isExternal
    ensures c.state != Connected && r.1.Pass? ==> r.0.hasRpc
    ensures c.state != Connected && !c.isExternal && steps.spawn.Fail? ==> r.1 == steps.spawn
    ensures c.state != Connected && (c.isExternal || steps.spawn.Pass?) && steps.connect.Fail? ==> r.1 == steps.connect
    ensures c.state != Connected && (c.isExternal || steps.spawn.Pass?) && steps.connect.Pass?
            ==> r.1 == VerifyProtocolVersion(expected, steps.ping)
  {
    if c.state == Connected then
      (c, Pass)
    else
      var failed := c.(state := Error);
      if !c.isExternal && steps.spawn.Fail? then
        (failed, steps.spawn)
      else if steps.connect.Fail? then
        (failed, steps.connect)
      else
        var linked := c.(hasRpc := true);
        match VerifyProtocolVersion(expected, steps.ping)
        case Fail(msg) => (linked.(state := Error), Fail(msg))
        case Pass => (linked.(state := Connected), Pass)
  }

  /** Once `start` has connected, calling it again changes nothing, whatever
      the steps would have done. */
  lemma StartIdempotent(c: Client, first: StartSteps, again: StartSteps, expected: int)
    requires Start(c, first, expected).1.Pass?
    ensures Start(Start(c, first, expected).0, again, expected) == Start(c, first, expected)
  {
  }

  // ---------------------------------------------------------------------------
  // stop and force_stop

  /** What one `session.destroy()` call did. */
  datatype DestroyOutcome = Destroyed | DestroyFailed(reason: string)

  /** `stop` either returns its list of cleanup errors or re-raises the failure
      of closing the RPC connection. */
  datatype StopResult = Stopped(errors: seq<string>) | StopRaised(message: string)

  function DestroyError(id: string, reason: string): string {
    "Failed to destroy session " + id + ": " + reason
  }

  predicate NoDuplicates<T(==)>(s: seq<T>) {
    forall i, j :: 0 <= i < j < |s| ==> s[i] != s[j]
  }

  /** The cleanup errors of destroying the sessions filed under `order`, in that
      order: one message per failed destroy. */
  function FailureMessages(sessions: Registry, order: seq<string>, destroy: string -> DestroyOutcome): seq<string>
    requires forall i :: 0 <= i < |order| ==> order[i] in sessions
  {
    if order == [] then []
    else
      var rest := FailureMessages(sessions, order[..|order| - 1], destroy);
      var id := sessions[order[|order| - 1]].id;
      match destroy(id)
      case Destroyed => rest
      case DestroyFailed(reason) => rest + [DestroyError(id, reason)]
  }

  predicate FailedKey(sessions: Registry, destroy: string -> DestroyOutcome, k: string)
    requires k in sessions
  {
    destroy(sessions[k].id).DestroyFailed?
  }

  /** `stop`: drains the registry in one step, attempts `destroy` once per
      drained session (in `attempted` order) collecting one error per failure,
      then closes the RPC connection. If closing raises, `stop` re-raises and
      the state is left as it was; otherwise it ends `Disconnected` with no
      connection. */
  method Stop(c: Client, destroy: string -> DestroyOutcome, rpcStop: Outcome)
    returns (c': Client, attempted: seq<string>, result: StopResult)
    ensures c'.sessions == map[]
    ensures NoDuplicates(attempted) && |attempted| == |c.sessions|
    ensures forall k :: k in c.sessions <==> k in attempted
    ensures c.hasRpc && rpcStop.Fail? ==>
              result == StopRaised(rpcStop.message) && c' == c.(sessions := map[])
    ensures !(c.hasRpc && rpcStop.Fail?) ==>
              && result == Stopped(FailureMessages(c.sessions, attempted, destroy))
              && c' == c.(sessions := map[], state := Disconnected, hasRpc := false)
    ensures Valid(c) ==> Valid(c')
  {
    var remaining := c.sessions.Keys;
    attempted := [];
    var errors: seq<string> := [];
    while remaining != {}
      invariant remaining <= c.sessions.Keys
      invariant forall i :: 0 <= i < |attempted| ==> attempted[i] in c.sessions && attempted[i] !in remaining
      invariant forall k :: k in c.sessions ==> k in remaining || k in attempted
      invariant NoDuplicates(attempted)
      invariant |attempted| + |remaining| == |c.sessions.Keys|
      invariant errors == FailureMessages(c.sessions, attempted, destroy)
      decreases remaining
    {
      var k :| k in remaining;
      var id := c.sessions[k].id;
      ghost var before := attempted;
      attempted := attempted + [k];
      assert attempted[..|attempted| - 1] == before;
      remaining := remaining - {k};
      match destroy(id) {
        case Destroyed =>
        case DestroyFailed(reason) =>
          errors := errors + [DestroyError(id, reason)];
      }
    }
    assert |c.sessions.Keys| == |c.sessions|;
    if c.hasRpc && rpcStop.Fail? {
      c' := c.(sessions := map[]);
      result := StopRaised(rpcStop.message);
    } else {
      c' := c.(sessions := map[], state := Disconnected, hasRpc := false);
      result := Stopped(errors);
    }
  }

  /** The cleanup errors hold one message per failed destroy: as many messages
      as distinct failing sessions. */
  lemma {:induction false} FailureMessagesCount(sessions: Registry, order: seq<string>, destroy: string -> DestroyOutcome)
    requires forall i :: 0 <= i < |order| ==> order[i] in sessions
    requires NoDuplicates(order)
    ensures |FailureMessages(sessions, order, destroy)|
            == |set k | k in order && k in sessions && FailedKey(sessions, destroy, k)|
  {
    if order != [] {
      var prefix := order[..|order| - 1];
      var last := order[|order| - 1];
      FailureMessagesCount(sessions, prefix, destroy);
      var before := set k | k in prefix && k in sessions && FailedKey(sessions, destroy, k);
      var after := set k | k in order && k in sessions && FailedKey(sessions, destroy, k);
      assert last !in prefix;
      assert order == prefix + [last];
      if FailedKey(sessions, destroy, last) {
        assert after == before + {last};
      } else {
        assert after == before;
      }
    }
  }

  /** No cleanup error means every destroy succeeded, and conversely. */
  lemma {:induction false} FailureMessagesEmpty(sessions: Registry, order: seq<string>, destroy: string -> DestroyOutcome)
    requires forall i :: 0 <= i < |order| ==> order[i] in sessions
    ensures FailureMessages(sessions, order, destroy) == []
            <==> forall i :: 0 <= i < |order| ==> destroy(sessions[order[i]].id) == Destroyed
  {
    if order != [] {
      var prefix := order[..|order| - 1];
      FailureMessagesEmpty(sessions, prefix, destroy);
      assert forall i :: 0 <= i < |prefix| ==> prefix[i] == order[i];
    }
  }

  /** Every cleanup error is "Failed to destroy session <id>: <reason>" for a
      drained session whose destroy failed with that reason. */
  lemma {:induction false} FailureMessagesNameSessions(sessions: Registry, order: seq<string>, destroy: string -> DestroyOutcome)
    requires forall i :: 0 <= i < |order| ==> order[i] in sessions
    ensures forall m :: m in FailureMessages(sessions, order, destroy) ==>
              exists i, reason :: 0 <= i < |order| && m == DestroyError(sessions[order[i]].id, reason)
                                  && destroy(sessions[order[i]].id) == DestroyFailed(reason)
  {
    if order != [] {
      var prefix := order[..|order| - 1];
      var last := order[|order| - 1];
      FailureMessagesNameSessions(sessions, prefix, destroy);
      forall m | m in FailureMessages(sessions, order, destroy)
        ensures exists i, reason :: 0 <= i < |order| && m == DestroyError(sessions[order[i]].id, reason)
                                    && destroy(sessions[order[i]].id) == DestroyFailed(reason)
      {
        if m in FailureMessages(sessions, prefix, destroy) {
          var i, reason :| 0 <= i < |prefix| && m == DestroyError(sessions[prefix[i]].id, reason)
                           && destroy(sessions[prefix[i]].id) == DestroyFailed(reason);
          assert order[i] == prefix[i];
        } else {
          var reason := destroy(sessions[last].id).reason;
          assert m == DestroyError(sessions[last].id, reason);
          assert order[|order| - 1] == last;
        }
      }
    }
  }

  /** `force_stop`: forgets every session without destroying it and drops the
      connection, ignoring any failure of closing it; never raises and always
      ends `Disconnected`. Since every failure of closing is swallowed, the
      outcome of closing is not an input. */
  function ForceStop(c: Client): (c': Client)
    ensures c'.sessions == map[] && !c'.hasRpc && c'.state == Disconnected
    ensures c'.options == c.options && c'.isExternal == c.isExternal
    ensures c'.host == c.host && c'.port == c.port
    ensures Valid(c')
  {
    c.(sessions := map[], hasRpc := false, state := Disconnected)
  }

  // ---------------------------------------------------------------------------
  // The session registry

  const NotConnected: string := "Client not connected"
  const NotStarted: string := "Client not connected. Call start() first."

  /** The connection check that opens `create_session` and `resume_session`:
      an unconnected client auto-starts when allowed and refuses otherwise. */
  function EnsureConnected(c: Client, steps: StartSteps, expected: int): (r: (Client, Outcome))
    ensures Valid(c) ==> Valid(r.0)
    ensures r.0.sessions == c.sessions
    ensures c.hasRpc ==> r == (c, Pass)
    ensures !c.hasRpc && !c.options.autoStart ==> r == (c, Fail(NotStarted))
    ensures r.1.Pass? ==> r.0.hasRpc
  {
    if c.hasRpc then (c, Pass)
    else if !c.options.autoStart then (c, Fail(NotStarted))
    else
      var (started, outcome) := Start(c, steps, expected);
      if outcome.Fail? then (started, outcome)
      else if !started.hasRpc then (started, Fail(NotConnected))
      else (started, Pass)
  }

  /** The registration that ends `create_session`/`resume_session`: once
      connected and once the server has answered with a session id, the new
      session is filed under that id, replacing any entry there. */
  function OpenSession(c: Client, steps: StartSteps, expected: int,
                       tools: map<string, HandlerId>, reply: Result<string, string>)
    : (r: (Client, Result<string, string>))
    ensures Valid(c) ==> Valid(r.0)
    ensures r.1.Success? ==> reply == Success(r.1.value)
                              && r.0.sessions == c.sessions[r.1.value := SessionEntry(r.1.value, tools)]
    ensures r.1.Failure? ==> r.0.sessions == c.sessions
    ensures c.hasRpc ==> r.1 == reply && r.0.state == c.state
  {
    var (ready, outcome) := EnsureConnected(c, steps, expected);
    if outcome.Fail? then (ready, Failure(outcome.message))
    else
      match reply
      case Failure(msg) => (ready, Failure(msg))
      case Success(id) => (ready.(sessions := ready.sessions[id := SessionEntry(id, tools)]), Success(id))
  }

  /** `create_session`: the server assigns the id. */
  function CreateSession(c: Client, steps: StartSteps, expected: int,
                         tools: map<string, HandlerId>, reply: Result<string, string>)
    : (r: (Client, Result<string, string>))
    ensures r.1.Success? ==> r.1.value in r.0.sessions && r.0.sessions[r.1.value].tools == tools
    ensures forall id :: id in c.sessions && (r.1.Failure? || id != r.1.value)
                         ==> id in r.0.sessions && r.0.sessions[id] == c.sessions[id]
  {
    OpenSession(c, steps, expected, tools, reply)
  }

  /** `resume_session`: the session is filed under the id the server answers
      with, not under the id that was asked for. */
  function ResumeSession(c: Client, requested: string, steps: StartSteps, expected: int,
                         tools: map<string, HandlerId>, reply: Result<string, string>)
    : (r: (Client, Result<string, string>))
    ensures c.hasRpc && reply.Success? ==> r.1 == reply && reply.value in r.0.sessions
    ensures r.1.Success? && r.1.value != requested && requested !in c.sessions ==> requested !in r.0.sessions
  {
    OpenSession(c, steps, expected, tools, reply)
  }

  /** The server's answer to `session.delete`. */
  datatype DeleteReply = DeleteReply(success: bool, error: Option<string>)

  function DeleteFailed(id: string, reason: string): string {
    "Failed to delete session " + id + ": " + reason
  }

  /** `delete_session`: needs a connection; on a reply without `success` it
      raises naming the id; on success it removes the id from the registry if
      present and leaves every other entry alone. */
  function DeleteSession(c: Client, id: string, reply: Result<DeleteReply, string>)
    : (r: (Client, Outcome))
    ensures Valid(c) ==> Valid(r.0)
    ensures !c.hasRpc ==> r == (c, Fail(NotConnected))
    ensures r.1.Fail? ==> r.0 == c
    ensures r.1.Pass? <==> c.hasRpc && reply.Success? && reply.value.success
    ensures c.hasRpc && reply.Success? && !reply.value.success
            ==> r.1 == Fail(DeleteFailed(id, reply.value.error.GetOr("Unknown error")))
    ensures r.1.Pass? ==> id !in r.0.sessions
    ensures forall k :: k != id ==> (k in r.0.sessions <==> k in c.sessions)
    ensures forall k :: k != id && k in c.sessions ==> r.0.sessions[k] == c.sessions[k]
    ensures r.0.state == c.state && r.0.hasRpc == c.hasRpc
  {
    if !c.hasRpc then (c, Fail(NotConnected))
    else
      match reply
      case Failure(msg) => (c, Fail(msg))
      case Success(answer) =>
        if !answer.success then (c, Fail(DeleteFailed(id, answer.error.GetOr("Unknown error"))))
        else (c.(sessions := c.sessions - {id}), Pass)
  }

  /** The notification handler installed by `start`: a `session.event`
      notification goes to the session it names, if that session is still
      registered; anything else goes nowhere. */
  function RouteNotification(c: Client, methodName: string, sessionId: string): (r: Option<SessionEntry>)
    ensures r.Some? <==> methodName == "session.event" && sessionId in c.sessions
    ensures r.Some? ==> r.value == c.sessions[sessionId]
  {
    if methodName == "session.event" && sessionId in c.sessions then Some(c.sessions[sessionId]) else None
  }
}
