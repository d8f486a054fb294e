/** The download-broker session of src/lib/web-socket.ts: the module variables
    `cachedSessionId`, `websocket` and `connectionPromise`, the `getClientId`
    entry point and the socket's event handlers. How a handshake ends is an
    input; the WebSocket itself is reduced to its ready state, and every socket
    opened is recorded by the client id it was opened with. */
module WebSocket {
  import opened Wrappers

  /** `CONNECTION_TIMEOUT`, in milliseconds. */
  const ConnectionTimeout: nat := 5000

  const TimeoutMessage := "WebSocket connection timeout"
  const HandshakeErrorMessage := "Failed to establish WebSocket connection"

  datatype ReadyState = Connecting | Open

  /** What the broker does with a new socket: accepts it, fails it, or stays silent. */
  datatype Handshake = OpensAfter(ms: nat) | FailsAfter(ms: nat) | NoAnswer

  datatype HandshakeEnd = Opened | Errored | TimedOut

  /** Which of `onopen`, `onerror` and the timer settles the connection promise. */
  function Settle(h: Handshake): (e: HandshakeEnd)
    ensures e == Opened <==> h.OpensAfter? && h.ms < ConnectionTimeout
    ensures e == Errored <==> h.FailsAfter? && h.ms < ConnectionTimeout
  {
    match h
    case OpensAfter(ms) => if ms < ConnectionTimeout then Opened else TimedOut
    case FailsAfter(ms) => if ms < ConnectionTimeout then Errored else TimedOut
    case NoAnswer => TimedOut
  }

  datatype ClientIdResult = Ok(id: string) | Failed(message: string)

  class BrokerConnection {
    var cachedSessionId: Option<string>
    /** `websocket`: None is `null`. */
    var websocket: Option<ReadyState>
    /** Whether `connectionPromise` is non-null. It is written and never read. */
    var connectionPromise: bool
    /** The `client_id` of every socket opened, in order. */
    var socketsOpened: seq<string>

    /** A cached id is a uuid, so never the empty (falsy) string. */
    ghost predicate Valid()
      reads this
    {
      cachedSessionId.Some? ==> cachedSessionId.value != ""
    }

    constructor ()
      ensures Valid()
      ensures cachedSessionId == None && websocket == None && !connectionPromise && socketsOpened == []
    {
      cachedSessionId, websocket, connectionPromise, socketsOpened := None, None, false, [];
    }

    /** `closeWebSocket`. */
    method CloseWebSocket()
      modifies this
      ensures websocket == None && !connectionPromise
      ensures cachedSessionId == old(cachedSessionId) && socketsOpened == old(socketsOpened)
    {
      if websocket.Some? {
        websocket := None;
      }
      connectionPromise := false;
    }

    /** The socket's `onclose` handler, clean or not: the connection is forgotten and
        the session id kept, so the next `getClientId` reconnects under the same id. */
    method OnClose(wasClean: bool)
      modifies this
      ensures websocket == None && !connectionPromise
      ensures cachedSessionId == old(cachedSessionId) && socketsOpened == old(socketsOpened)
    {
      websocket := None;
      connectionPromise := false;
    }

    /** `getClientId()`, run to completion. `freshId` is what `uuidv4()` would return. */
    method GetClientId(freshId: string, handshake: Handshake) returns (r: ClientIdResult)
      requires Valid() && freshId != ""
      modifies this
      ensures Valid()
      // an open socket and a cached id: answered at once, nothing opened
      ensures old(websocket) == Some(Open) && old(cachedSessionId).Some? ==>
        r == Ok(old(cachedSessionId).value) &&
        cachedSessionId == old(cachedSessionId) && websocket == old(websocket) &&
        connectionPromise == old(connectionPromise) && socketsOpened == old(socketsOpened)
      // otherwise a new socket is opened, under the cached id if there is one
      ensures !(old(websocket) == Some(Open) && old(cachedSessionId).Some?) ==>
        var id := old(cachedSessionId).GetOr(freshId);
        socketsOpened == old(socketsOpened) + [id] &&
        match Settle(handshake)
        case Opened =>
          r == Ok(id) && cachedSessionId == Some(id) && websocket == Some(Open) && connectionPromise
        case Errored =>
          r == Failed(HandshakeErrorMessage) &&
          cachedSessionId == None && websocket == None && !connectionPromise
        case TimedOut =>
          r == Failed(TimeoutMessage) &&
          cachedSessionId == None && websocket == None && !connectionPromise
    {
      if websocket == Some(Open) && cachedSessionId.Some? {
        return Ok(cachedSessionId.value);
      }

      var id := if cachedSessionId.Some? then cachedSessionId.value else freshId;
      cachedSessionId := Some(id);

      // createWebSocketConnection(id)
      websocket := Some(Connecting);
      socketsOpened := socketsOpened + [id];
      connectionPromise := true;

      match Settle(handshake)
      case Opened =>
        websocket := Some(Open);
        r := Ok(cachedSessionId.value);
      case Errored =>
        CloseWebSocket();
        cachedSessionId := None;
        connectionPromise := false;
        r := Failed(HandshakeErrorMessage);
      case TimedOut =>
        CloseWebSocket();
        cachedSessionId := None;
        connectionPromise := false;
        r := Failed(TimeoutMessage);
    }
  }
}
