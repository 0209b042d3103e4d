/**
 * The session with the relay of the current client
 * (apps/client/src/wsclip/services/websocket.py): connecting and the
 * authentication handshake, disconnecting, sending under the
 * authentication and size gates, the handler registry and the dispatch of
 * received messages, and the receive loop.
 *
 * The transport is abstract: whether `connect` manages to open it is the
 * parameter `openOk`, what arrives on it is a sequence of `Frame`s, and what
 * is sent is appended to `outbox` as the JSON object `json.dumps` encodes.
 */
module Session {
  import opened Wrappers
  import opened Messages
  import Strings
  import Url
  import Config
  import Backoff

  /** `Settings.MAX_MESSAGE_SIZE`: the largest clipboard text sent, in UTF-8 bytes. */
  const MaxMessageSize := 1048576

  /** The object behind `websocket`: none, open, or held although the other side closed it. */
  datatype Transport = NoSocket | Open | Dropped

  /** One `recv`: the connection closes, text that is not JSON, JSON that is not an object, or an object. */
  datatype Frame = Closed | Malformed | NonObject | Data(payload: Payload)

  /** What `_receive_message` raises: `ConnectionClosed`, or the error of decoding the object. */
  datatype ReceiveError = ConnectionClosed | Undecodable

  /** `_receive_message` on an open socket: a message, `None` for text that is not JSON, or an exception. */
  function Receive(f: Frame): (r: Result<Option<Message>, ReceiveError>)
    ensures r == Ok(None) <==> f == Malformed
    ensures r == Err(ConnectionClosed) <==> f == Closed
    ensures (r.Ok? && r.value.Some?) <==> f.Data? && DictToMessage(f.payload).Ok?
    ensures r.Ok? && r.value.Some? ==> r.value.value == DictToMessage(f.payload).value
  {
    match f
    case Closed => Err(ConnectionClosed)
    case Malformed => Ok(None)
    case NonObject => Err(Undecodable)
    case Data(d) =>
      match DictToMessage(d)
      case Ok(m) => Ok(Some(m))
      case Err(_) => Err(Undecodable)
  }

  /** A reply that completes the handshake: a decoded `auth_response` whose `success` is true. */
  predicate Accepts(reply: Frame)
  {
    var r := Receive(reply);
    r.Ok? && r.value.Some? && r.value.value.AuthResponseMessage? && r.value.value.success
  }

  /**
   * The handshake succeeds exactly on an object tagged `auth_response`
   * whose `success` is truthy; any other reply, including an error message,
   * a closed connection or text that is not JSON, fails it.
   */
  lemma AcceptsIff(reply: Frame)
    ensures Accepts(reply) <==>
      reply.Data? && Get(reply.payload, "type", Null) == Str("auth_response")
      && Truthy(Get(reply.payload, "success", Bool(false)))
  {
    if reply.Data? && Get(reply.payload, "type", Null) == Str("auth_response") {
      ParseTypeOfTag(AuthResponse);
    }
  }

  /** The URL `connect` opens, the destination host and port, and the proxy it goes through. */
  datatype Dial = Dial(url: string, dest: Url.Endpoint, proxyUrl: Option<string>)

  /** What `connect` works out before opening anything; no destination host means no attempt. */
  function PlanDial(workerUrl: string, token: string, peerId: string, proxy: Option<Config.ProxyConfig>)
    : (r: Result<Dial, Url.EndpointError>)
    ensures r.Ok? <==> Url.DestEndpoint(workerUrl).Ok?
    ensures r.Ok? ==> r.value.url == Url.ConnectUrl(workerUrl, token, peerId)
    ensures r.Ok? ==> r.value.dest == Url.DestEndpoint(workerUrl).value
    ensures r.Ok? ==> (r.value.proxyUrl.Some? <==> proxy.Some? && proxy.value.enabled)
    ensures r.Ok? && r.value.proxyUrl.Some? ==>
      r.value.proxyUrl.value
        == Url.ProxyUrl(proxy.value.host, proxy.value.port, proxy.value.auth.username, proxy.value.auth.password)
  {
    var dest :- Url.DestEndpoint(workerUrl);
    var proxyUrl :=
      if proxy.Some? && proxy.value.enabled then
        var p := proxy.value;
        Some(Url.ProxyUrl(p.host, p.port, p.auth.username, p.auth.password))
      else None;
    Ok(Dial(Url.ConnectUrl(workerUrl, token, peerId), dest, proxyUrl))
  }

  /**
   * The planned proxy URL leads to the configured proxy: it parses as
   * `socks5` with the proxy's host and port, and carries credentials exactly
   * when both are set and non-empty.
   */
  lemma PlannedProxy(workerUrl: string, token: string, peerId: string, proxy: Option<Config.ProxyConfig>)
    requires PlanDial(workerUrl, token, peerId, proxy).Ok? && proxy.Some? && proxy.value.enabled
    requires Url.PlainHost(proxy.value.host) && 0 <= proxy.value.port <= 65535
    requires proxy.value.auth.username.Some? ==> Url.PlainCredential(proxy.value.auth.username.value)
    requires proxy.value.auth.password.Some? ==> Url.PlainCredential(proxy.value.auth.password.value)
    ensures var p := proxy.value;
      var s := Url.Split(PlanDial(workerUrl, token, peerId, proxy).value.proxyUrl.value);
      && s.Ok? && s.value.scheme == "socks5"
      && Url.Hostname(s.value.netloc) == Some(p.host) && Url.Port(s.value.netloc) == Ok(Some(p.port))
      && ('@' in s.value.netloc <==>
           p.auth.username.Some? && p.auth.username.value != "" && p.auth.password.Some? && p.auth.password.value != "")
  {
    var p := proxy.value;
    Url.ProxyUrlRoundTrip(p.host, p.port, p.auth.username, p.auth.password);
  }

  /** What one call of `connect` meets: whether the transport opens, and the reply to `auth`. */
  datatype Attempt = Attempt(openOk: bool, reply: Frame)

  /**
   * How a sequence of calls of `connect` looks to the reconnection
   * strategy: a call succeeds when the worker URL names a host, the
   * transport opens and the reply accepts.
   */
  function Outcomes(workerUrl: string, attempts: nat -> Attempt): nat -> Backoff.ConnectOutcome
  {
    (i: nat) =>
      if Url.DestEndpoint(workerUrl).Ok? && attempts(i).openOk && Accepts(attempts(i).reply) then Backoff.Succeeded
      else Backoff.ReturnedFalse
  }

  /** What `send_clipboard` sends from a session in the given state: one frame, or nothing when gated or not open. */
  function ClipboardFrames(authenticated: bool, transport: Transport, peerId: string, content: string,
                           source: ClipboardSyncMode, messageId: string, now: string): seq<Payload>
  {
    if authenticated && Strings.Utf8Length(content) <= MaxMessageSize && transport == Open then
      [MessageToDict(ClipboardTextMessage(now, peerId, content, messageId, source))]
    else []
  }

  /** A message handler, known by its identity only. */
  type Handler = nat

  /**
   * `_handle_message`: the handler registered for the message's type runs
   * alone; otherwise the built-in branch sets the paired peer on
   * `peer_connected` and clears it on `peer_disconnected`.
   * Returns the handler that runs and the new paired peer.
   */
  function Dispatch(handlers: map<string, Handler>, pairedPeer: Option<string>, m: Message)
    : (Option<Handler>, Option<string>)
  {
    var tag := TypeTag(TypeOf(m));
    if tag in handlers then (Some(handlers[tag]), pairedPeer)
    else match m
      case PeerEventMessage(Connected, _, peer) => (None, Some(peer))
      case PeerEventMessage(Disconnected, _, _) => (None, None)
      case _ => (None, pairedPeer)
  }

  /** The receive loop's view of the session. */
  datatype Listen = Listen(
    pairedPeer: Option<string>, transport: Transport,
    dispatched: seq<(Handler, Message)>, running: bool)

  /** One pass of the `receive_loop` body; a dropped connection raises at once, whatever would arrive. */
  function ListenStep(handlers: map<string, Handler>, st: Listen, f: Frame): Listen
  {
    match Receive(if st.transport == Dropped then Closed else f)
    case Err(ConnectionClosed) => st.(running := false, transport := Dropped)
    case Err(Undecodable) => st.(running := false)
    case Ok(None) => st
    case Ok(Some(m)) =>
      var (h, peer) := Dispatch(handlers, st.pairedPeer, m);
      st.(pairedPeer := peer, dispatched := if h.Some? then st.dispatched + [(h.value, m)] else st.dispatched)
  }

  /** The loop over the frames received, until `_running` is cleared. */
  function ListenRun(handlers: map<string, Handler>, st: Listen, frames: seq<Frame>): Listen
  {
    if frames == [] then st
    else
      var mid := ListenRun(handlers, st, frames[..|frames| - 1]);
      if !mid.running then mid else ListenStep(handlers, mid, frames[|frames| - 1])
  }

  /** What `_send_message` raises: `RuntimeError` without a socket, or the socket's `ConnectionClosed`. */
  datatype SendError = NotConnected | SocketClosed

  class WebSocketService {
    const workerUrl: string
    const token: string
    const peerId: string
    const proxy: Option<Config.ProxyConfig>

    var transport: Transport
    var authenticated: bool
    var pairedPeer: Option<string>
    var sessionId: Option<string>
    /** `_message_handlers`, keyed by message type. */
    var handlers: map<string, Handler>
    /** `_running`. */
    var running: bool
    /** Whether a heartbeat task is held and not cancelled. */
    var heartbeat: bool
    /** Every message sent, in order, as the object `json.dumps` encodes. */
    var outbox: seq<Payload>

    /** Authentication happens on a socket, and only `disconnect` drops both. */
    ghost predicate Valid()
      reads this
    {
      authenticated ==> transport != NoSocket
    }

    /** `is_connected`: authenticated and holding a socket. */
    predicate IsConnected()
      reads this
      ensures Valid() ==> (IsConnected() <==> authenticated)
    {
      authenticated && transport != NoSocket
    }

    constructor(workerUrl: string, token: string, peerId: string, proxy: Option<Config.ProxyConfig>)
      ensures this.workerUrl == workerUrl && this.token == token && this.peerId == peerId && this.proxy == proxy
      ensures transport == NoSocket && !authenticated && pairedPeer == None && sessionId == None
      ensures handlers == map[] && !running && !heartbeat && outbox == []
      ensures Valid()
    {
      this.workerUrl := workerUrl;
      this.token := token;
      this.peerId := peerId;
      this.proxy := proxy;
      transport := NoSocket;
      authenticated := false;
      pairedPeer := None;
      sessionId := None;
      handlers := map[];
      running := false;
      heartbeat := false;
      outbox := [];
    }

    /** `_send_message`: encode and send, or raise when there is no open socket. */
    method SendMessage(m: Message) returns (r: Result<(), SendError>)
      modifies this
      ensures r.Ok? <==> transport == Open
      ensures r == Err(NotConnected) <==> transport == NoSocket
      ensures outbox == old(outbox) + (if r.Ok? then [MessageToDict(m)] else [])
      ensures transport == old(transport) && authenticated == old(authenticated)
      ensures pairedPeer == old(pairedPeer) && sessionId == old(sessionId) && handlers == old(handlers)
      ensures running == old(running) && heartbeat == old(heartbeat)
    {
      match transport
      case NoSocket =>
        r := Err(NotConnected);
      case Dropped =>
        r := Err(SocketClosed);
      case Open =>
        outbox := outbox + [MessageToDict(m)];
        r := Ok(());
    }

    /**
     * `connect`: work out the destination (no host, no attempt), open the
     * transport, send `auth` and read one reply; only an accepting
     * `auth_response` authenticates, taking the session id and paired peer
     * from it. Every failure returns false and leaves the authentication
     * state as it was.
     */
    method Connect(openOk: bool, reply: Frame, now: string) returns (ok: bool, dial: Option<Dial>)
      requires Valid()
      modifies this
      ensures Valid()
      ensures var plan := PlanDial(workerUrl, token, peerId, proxy);
        dial == (if plan.Ok? then Some(plan.value) else None)
      ensures ok <==> dial.Some? && openOk && Accepts(reply)
      ensures dial.None? || !openOk ==> transport == old(transport) && outbox == old(outbox)
      ensures dial.Some? && openOk ==>
        && outbox == old(outbox) + [MessageToDict(AuthMessage(now, token, peerId))]
        && transport == (if reply == Closed then Dropped else Open)
      ensures ok ==> var m := Receive(reply).value.value;
        authenticated && sessionId == m.sessionId && pairedPeer == m.pairedPeer && IsConnected()
      ensures !ok ==>
        authenticated == old(authenticated) && sessionId == old(sessionId) && pairedPeer == old(pairedPeer)
      ensures handlers == old(handlers) && running == old(running) && heartbeat == old(heartbeat)
    {
      var plan := PlanDial(workerUrl, token, peerId, proxy);
      if plan.Err? {
        return false, None;
      }
      dial := Some(plan.value);
      if !openOk {
        return false, dial;
      }
      ok := Authenticate(reply, now);
    }

    /** The part of `connect` after the socket opened: send `auth`, read one reply, take what an acceptance carries. */
    method Authenticate(reply: Frame, now: string) returns (ok: bool)
      requires Valid()
      modifies this
      ensures Valid()
      ensures ok <==> Accepts(reply)
      ensures outbox == old(outbox) + [MessageToDict(AuthMessage(now, token, peerId))]
      ensures transport == (if reply == Closed then Dropped else Open)
      ensures ok ==> var m := Receive(reply).value.value;
        authenticated && sessionId == m.sessionId && pairedPeer == m.pairedPeer && IsConnected()
      ensures !ok ==>
        authenticated == old(authenticated) && sessionId == old(sessionId) && pairedPeer == old(pairedPeer)
      ensures handlers == old(handlers) && running == old(running) && heartbeat == old(heartbeat)
    {
      transport := Open;
      var sent := SendMessage(AuthMessage(now, token, peerId));
      if reply == Closed {
        transport := Dropped;
      }
      ok := Accepts(reply);
      if ok {
        var m := Receive(reply).value.value;
        authenticated := true;
        sessionId := m.sessionId;
        pairedPeer := m.pairedPeer;
      }
    }

    /** `disconnect`: stop, drop the heartbeat and the socket, forget authentication and peer; the session id stays. */
    method Disconnect()
      modifies this
      ensures !running && !heartbeat && transport == NoSocket
      ensures !authenticated && pairedPeer == None && !IsConnected() && Valid()
      ensures sessionId == old(sessionId) && handlers == old(handlers) && outbox == old(outbox)
    {
      running := false;
      heartbeat := false;
      transport := NoSocket;
      authenticated := false;
      pairedPeer := None;
    }

    /**
     * `send_clipboard`: nothing is sent while unauthenticated or when the
     * text is over `MaxMessageSize` UTF-8 bytes; otherwise one
     * `clipboard_text` message from this peer.
     */
    method SendClipboard(content: string, source: ClipboardSyncMode, messageId: string, now: string)
      returns (r: Result<(), SendError>)
      requires Valid()
      modifies this
      ensures var gated := !authenticated || Strings.Utf8Length(content) > MaxMessageSize;
        && (gated ==> r.Ok? && outbox == old(outbox))
        && (!gated ==> (r.Ok? <==> transport == Open))
        && (!gated && transport == Open ==>
             outbox == old(outbox) + [MessageToDict(ClipboardTextMessage(now, peerId, content, messageId, source))])
        && (!gated && transport != Open ==> outbox == old(outbox))
      ensures outbox == old(outbox) + ClipboardFrames(authenticated, transport, peerId, content, source, messageId, now)
      ensures transport == old(transport) && authenticated == old(authenticated)
      ensures pairedPeer == old(pairedPeer) && sessionId == old(sessionId) && handlers == old(handlers)
      ensures running == old(running) && heartbeat == old(heartbeat) && Valid()
    {
      if !authenticated {
        return Ok(());
      }
      var size := Strings.Utf8Length(content);
      if size > MaxMessageSize {
        return Ok(());
      }
      var message := ClipboardTextMessage(now, peerId, content, messageId, source);
      r := SendMessage(message);
    }

    /** `register_handler`: a later registration for a type replaces an earlier one. */
    method RegisterHandler(messageType: string, handler: Handler)
      modifies this
      ensures handlers == old(handlers)[messageType := handler]
      ensures transport == old(transport) && authenticated == old(authenticated)
      ensures pairedPeer == old(pairedPeer) && sessionId == old(sessionId)
      ensures running == old(running) && heartbeat == old(heartbeat) && outbox == old(outbox)
    {
      handlers := handlers[messageType := handler];
    }

    /** `_handle_message`: returns the custom handler that runs, if one is registered. */
    method HandleMessage(m: Message) returns (handler: Option<Handler>)
      modifies this
      ensures (handler, pairedPeer) == Dispatch(old(handlers), old(pairedPeer), m)
      ensures transport == old(transport) && authenticated == old(authenticated)
      ensures handlers == old(handlers) && sessionId == old(sessionId)
      ensures running == old(running) && heartbeat == old(heartbeat) && outbox == old(outbox)
    {
      var tag := TypeTag(TypeOf(m));
      if tag in handlers {
        return Some(handlers[tag]);
      }
      handler := None;
      match m {
        case PeerEventMessage(event, _, peer) =>
          if event == Connected {
            pairedPeer := Some(peer);
          } else {
            pairedPeer := None;
          }
        case _ =>
      }
    }

    /**
     * `receive_loop`: nothing unless authenticated; otherwise run with a
     * heartbeat, receiving and dispatching until the connection closes or a
     * message cannot be decoded, then cancel the heartbeat. A run that is
     * still going when the frames run out is a loop waiting on `recv`.
     * Returns the custom handlers run, with their messages, and the number
     * of frames received.
     */
    method ReceiveLoop(frames: seq<Frame>) returns (dispatched: seq<(Handler, Message)>, consumed: nat)
      requires Valid()
      modifies this
      ensures !old(authenticated) ==>
        && consumed == 0 && dispatched == []
        && transport == old(transport) && pairedPeer == old(pairedPeer)
        && running == old(running) && heartbeat == old(heartbeat)
      ensures consumed <= |frames|
      ensures old(authenticated) ==>
        var fin := ListenRun(handlers, Listen(old(pairedPeer), old(transport), [], true), frames[..consumed]);
        && consumed <= |frames| && (consumed < |frames| ==> !fin.running)
        && Listen(pairedPeer, transport, dispatched, running) == fin
        && heartbeat == running
      ensures authenticated == old(authenticated) && handlers == old(handlers)
      ensures sessionId == old(sessionId) && outbox == old(outbox) && Valid()
    {
      dispatched := [];
      consumed := 0;
      if !authenticated {
        return;
      }
      running := true;
      heartbeat := true;
      ghost var start := Listen(pairedPeer, transport, [], true);
      while running && transport != NoSocket && consumed < |frames|
        invariant consumed <= |frames|
        invariant transport != NoSocket
        invariant authenticated == old(authenticated) && handlers == old(handlers)
        invariant sessionId == old(sessionId) && outbox == old(outbox) && heartbeat
        invariant Listen(pairedPeer, transport, dispatched, running)
          == ListenRun(handlers, start, frames[..consumed])
      {
        assert frames[..consumed + 1][..consumed] == frames[..consumed];
        var f := if transport == Dropped then Closed else frames[consumed];
        consumed := consumed + 1;
        match Receive(f) {
          case Err(ConnectionClosed) =>
            running := false;
            transport := Dropped;
          case Err(Undecodable) =>
            running := false;
          case Ok(None) =>
          case Ok(Some(m)) =>
            var h := HandleMessage(m);
            if h.Some? {
              dispatched := dispatched + [(h.value, m)];
            }
        }
      }
      if !running {
        heartbeat := false;
      }
    }
  }

  // ---------------------------------------------------------------------
  // Properties of dispatch and of the receive loop

  /**
   * A registered handler runs alone and the built-in branch is skipped;
   * without one, only peer events change the paired peer.
   */
  lemma DispatchExclusive(handlers: map<string, Handler>, pairedPeer: Option<string>, m: Message)
    ensures var (h, peer) := Dispatch(handlers, pairedPeer, m);
      && (TypeTag(TypeOf(m)) in handlers ==> h == Some(handlers[TypeTag(TypeOf(m))]) && peer == pairedPeer)
      && (TypeTag(TypeOf(m)) !in handlers ==> h == None)
      && (TypeTag(TypeOf(m)) !in handlers && m.PeerEventMessage? ==>
            peer == (if m.event == Connected then Some(m.peerId) else None))
      && (!m.PeerEventMessage? ==> peer == pairedPeer)
  {
  }

  /** The latest registration for a type is the one dispatch uses. */
  lemma LaterRegistrationWins(handlers: map<string, Handler>, t: MessageType, h1: Handler, h2: Handler,
                              pairedPeer: Option<string>, m: Message)
    requires TypeOf(m) == t
    ensures Dispatch(handlers[TypeTag(t) := h1][TypeTag(t) := h2], pairedPeer, m).0 == Some(h2)
  {
  }

  /** Once the loop has stopped, later frames are not received. */
  lemma {:induction false} StoppedStays(handlers: map<string, Handler>, st: Listen, frames: seq<Frame>, more: seq<Frame>)
    requires !ListenRun(handlers, st, frames).running
    ensures ListenRun(handlers, st, frames + more) == ListenRun(handlers, st, frames)
    decreases |more|
  {
    if more != [] {
      var init := more[..|more| - 1];
      assert (frames + more)[..|frames + more| - 1] == frames + init;
      StoppedStays(handlers, st, frames, init);
    } else {
      assert frames + more == frames;
    }
  }

  /** Text that is not JSON is skipped and the loop goes on. */
  lemma MalformedSkipped(handlers: map<string, Handler>, st: Listen, frames: seq<Frame>)
    requires ListenRun(handlers, st, frames).transport == Open
    ensures ListenRun(handlers, st, frames + [Malformed]) == ListenRun(handlers, st, frames)
  {
    assert (frames + [Malformed])[..|frames|] == frames;
  }

  /**
   * An object with a type outside the eight known ones ends the loop: the
   * decoding error is caught by the loop's generic handler, which clears
   * `_running`.
   */
  lemma UnknownTypeEndsLoop(handlers: map<string, Handler>, st: Listen, frames: seq<Frame>, d: Payload)
    requires DictToMessage(d).Err?
    ensures !ListenRun(handlers, st, frames + [Data(d)]).running
  {
    assert (frames + [Data(d)])[..|frames|] == frames;
  }

  /** Every entry pairs a message with the handler registered for its type. */
  ghost predicate AllRegistered(handlers: map<string, Handler>, ds: seq<(Handler, Message)>)
  {
    forall j :: 0 <= j < |ds| ==>
      TypeTag(TypeOf(ds[j].1)) in handlers && handlers[TypeTag(TypeOf(ds[j].1))] == ds[j].0
  }

  /** Every custom handler the loop ran is the one registered for its message's type. */
  lemma {:induction false} DispatchedRegistered(handlers: map<string, Handler>, st: Listen, frames: seq<Frame>)
    requires AllRegistered(handlers, st.dispatched)
    ensures AllRegistered(handlers, ListenRun(handlers, st, frames).dispatched)
  {
    if frames != [] {
      var init := frames[..|frames| - 1];
      var mid := ListenRun(handlers, st, init);
      DispatchedRegistered(handlers, st, init);
      if mid.running {
        var f := frames[|frames| - 1];
        var fin := ListenStep(handlers, mid, f);
        assert ListenRun(handlers, st, frames) == fin;
        var r := Receive(if mid.transport == Dropped then Closed else f);
        if r.Ok? && r.value.Some? {
          var m := r.value.value;
          var h := Dispatch(handlers, mid.pairedPeer, m).0;
          DispatchExclusive(handlers, mid.pairedPeer, m);
          if h.Some? {
            assert fin.dispatched == mid.dispatched + [(h.value, m)];
            forall j | 0 <= j < |fin.dispatched|
              ensures TypeTag(TypeOf(fin.dispatched[j].1)) in handlers
              ensures handlers[TypeTag(TypeOf(fin.dispatched[j].1))] == fin.dispatched[j].0
            {
              if j < |mid.dispatched| {
                assert fin.dispatched[j] == mid.dispatched[j];
              } else {
                assert fin.dispatched[j] == (h.value, m);
              }
            }
          } else {
            assert fin.dispatched == mid.dispatched;
          }
        } else {
          assert fin.dispatched == mid.dispatched;
        }
      }
    }
  }

  /** The frame `send_clipboard` sends: tagged `clipboard_text`, from this peer, with the text and its origin. */
  lemma ClipboardFrame(now: string, peerId: string, content: string, messageId: string, source: ClipboardSyncMode)
    ensures var d := MessageToDict(ClipboardTextMessage(now, peerId, content, messageId, source));
      && d.Keys == {"type", "timestamp", "from", "content", "message_id", "source"}
      && d["type"] == Str("clipboard_text") && d["from"] == Str(peerId)
      && d["content"] == Str(content) && d["source"] == Str(SyncModeValue(source))
  {
    var a := AsDict(ClipboardTextMessage(now, peerId, content, messageId, source));
    assert a.Keys == {"type", "timestamp", "from_peer", "content", "message_id", "source"};
  }
}
