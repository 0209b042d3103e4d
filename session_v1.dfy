/**
 * The session with the relay of the older client
 * (src/wsclip/core/websocket_client.py), over the older codec.
 *
 * It differs from the current service: there is no destination or proxy
 * planning and no size gate, `disconnect` keeps the paired peer, any
 * peer event other than `peer_connected` clears it, an error ends `listen`
 * without clearing `_running`, and `maintain_connection` keeps the session
 * up with the reconnection strategy.
 *
 * The older message module has no clipboard message class; the record
 * `send_clipboard` sends is kept abstract as `ClipboardOut`.
 */
module SessionV1 {
  import opened Wrappers
  import opened Messages
  import opened MessagesV1
  import Backoff
  import Url
  import Session

  type Frame = Session.Frame
  type Transport = Session.Transport
  type Handler = Session.Handler

  type Attempt = Session.Attempt

  /** What leaves the client: an encoded record, or the abstract clipboard record. */
  datatype Outgoing =
    | Encoded(payload: Payload)
    | ClipboardOut(fromPeer: string, content: string, messageId: string, source: string)

  /** `_receive_message`, with the older codec; `now` is the default `timestamp`. */
  function ReceiveV1(f: Frame, now: string): (r: Result<Option<MessageV1>, Session.ReceiveError>)
    ensures r == Ok(None) <==> f == Session.Malformed
    ensures r == Err(Session.ConnectionClosed) <==> f == Session.Closed
    ensures (r.Ok? && r.value.Some?) <==> f.Data? && DictToMessageV1(f.payload, now).Ok?
    ensures r.Ok? && r.value.Some? ==> r.value.value == DictToMessageV1(f.payload, now).value
  {
    match f
    case Closed => Err(Session.ConnectionClosed)
    case Malformed => Ok(None)
    case NonObject => Err(Session.Undecodable)
    case Data(d) =>
      match DictToMessageV1(d, now)
      case Ok(m) => Ok(Some(m))
      case Err(_) => Err(Session.Undecodable)
  }

  /** A reply that completes the older handshake: an `auth_response` record whose `success` is truthy. */
  predicate AcceptsV1(reply: Frame, now: string)
  {
    var r := ReceiveV1(reply, now);
    r.Ok? && r.value.Some? && r.value.value.AuthResponseV1? && Truthy(r.value.value.success)
  }

  /**
   * The older handshake succeeds exactly on an object tagged
   * `auth_response`, with no key outside that record's fields, whose
   * `success` is truthy.
   */
  lemma AcceptsV1Iff(reply: Frame, now: string)
    ensures AcceptsV1(reply, now) <==>
      && reply.Data? && Get(reply.payload, "type", Null) == Str("auth_response")
      && (forall key :: key in reply.payload ==> key in FieldNames(AuthResponseKind))
      && Truthy(Get(reply.payload, "success", Bool(false)))
  {
  }

  /** The auth record `connect` sends. */
  function AuthRecord(token: string, peerId: string, now: string): MessageV1
  {
    AuthV1(Str("auth"), Str(now), Str(token), Str(peerId))
  }

  /** How a sequence of attempts looks to the reconnection strategy. */
  function Outcomes(attempts: nat -> Attempt, now: string): nat -> Backoff.ConnectOutcome
  {
    (i: nat) => if attempts(i).openOk && AcceptsV1(attempts(i).reply, now) then Backoff.Succeeded
         else Backoff.ReturnedFalse
  }

  /**
   * `_handle_message`: a handler registered for the record's `type` runs
   * alone; otherwise a `peer_connected` event sets the paired peer and any
   * other peer event clears it. Returns the handler that runs and the new
   * paired peer (`Null` for `None`).
   */
  function DispatchV1(handlers: map<string, Handler>, pairedPeer: Scalar, m: MessageV1): (Option<Handler>, Scalar)
  {
    if m.tag.Str? && m.tag.s in handlers then (Some(handlers[m.tag.s]), pairedPeer)
    else if m.PeerEventV1? then (None, if m.tag == Str("peer_connected") then m.peerId else Null)
    else (None, pairedPeer)
  }

  /** The listening loop's view of the client; `ended` once an exception left the loop. */
  datatype ListenV1 = ListenV1(
    pairedPeer: Scalar, transport: Transport,
    dispatched: seq<(Handler, MessageV1)>, ended: bool)

  /** One pass of the `listen` body; a closed connection raises at once, whatever would arrive. */
  function ListenStepV1(handlers: map<string, Handler>, st: ListenV1, f: Frame, now: string): ListenV1
  {
    match ReceiveV1(if st.transport == Session.Dropped then Session.Closed else f, now)
    case Err(ConnectionClosed) => st.(ended := true, transport := Session.Dropped)
    case Err(Undecodable) => st.(ended := true)
    case Ok(None) => st
    case Ok(Some(m)) =>
      var (h, peer) := DispatchV1(handlers, st.pairedPeer, m);
      st.(pairedPeer := peer, dispatched := if h.Some? then st.dispatched + [(h.value, m)] else st.dispatched)
  }

  function ListenRunV1(handlers: map<string, Handler>, st: ListenV1, frames: seq<Frame>, now: string): ListenV1
  {
    if frames == [] then st
    else
      var mid := ListenRunV1(handlers, st, frames[..|frames| - 1], now);
      if mid.ended then mid else ListenStepV1(handlers, mid, frames[|frames| - 1], now)
  }

  /** A closed connection stays closed through `listen`, and the loop ends on its first pass. */
  lemma {:induction false} DroppedStaysDropped(handlers: map<string, Handler>, st: ListenV1, frames: seq<Frame>, now: string)
    requires st.transport == Session.Dropped && !st.ended
    ensures var fin := ListenRunV1(handlers, st, frames, now);
      fin.transport == Session.Dropped && fin.dispatched == st.dispatched && fin.pairedPeer == st.pairedPeer
      && (frames != [] ==> fin.ended)
  {
    if frames != [] {
      var init := frames[..|frames| - 1];
      DroppedStaysDropped(handlers, st, init, now);
      var mid := ListenRunV1(handlers, st, init, now);
      if !mid.ended {
        assert ReceiveV1(Session.Closed, now) == Err(Session.ConnectionClosed);
      }
    }
  }

  /** Listening never takes the socket away. */
  lemma {:induction false} ListenKeepsSocket(handlers: map<string, Handler>, st: ListenV1, frames: seq<Frame>, now: string)
    requires st.transport != Session.NoSocket
    ensures ListenRunV1(handlers, st, frames, now).transport != Session.NoSocket
  {
    if frames != [] {
      ListenKeepsSocket(handlers, st, frames[..|frames| - 1], now);
    }
  }

  class WebSocketClient {
    const workerUrl: string
    const token: string
    const peerId: string
    const enableReconnect: bool
    /** `reconnect_strategy`: the older defaults when reconnecting is enabled, else `None`. */
    const strategy: Backoff.ReconnectionStrategy?

    var transport: Transport
    var authenticated: bool
    /** `paired_peer` and `session_id` hold the raw values of the reply (`Null` for `None`). */
    var pairedPeer: Scalar
    var sessionId: Scalar
    var handlers: map<string, Handler>
    var running: bool
    var outbox: seq<Outgoing>

    ghost predicate Valid()
      reads this, strategy
    {
      && (authenticated ==> transport != Session.NoSocket)
      && (enableReconnect <==> strategy != null)
      && (strategy != null ==> strategy.Params() == Backoff.OlderDefaults)
    }

    constructor(workerUrl: string, token: string, peerId: string, enableReconnect: bool)
      ensures this.workerUrl == workerUrl && this.token == token && this.peerId == peerId
      ensures this.enableReconnect == enableReconnect
      ensures transport == Session.NoSocket && !authenticated && pairedPeer == Null && sessionId == Null
      ensures handlers == map[] && !running && outbox == []
      ensures Valid() && (strategy != null ==> fresh(strategy))
    {
      this.workerUrl := workerUrl;
      this.token := token;
      this.peerId := peerId;
      this.enableReconnect := enableReconnect;
      if enableReconnect {
        var s := new Backoff.ReconnectionStrategy(1.0, 30.0, 10);
        this.strategy := s;
      } else {
        this.strategy := null;
      }
      transport := Session.NoSocket;
      authenticated := false;
      pairedPeer := Null;
      sessionId := Null;
      handlers := map[];
      running := false;
      outbox := [];
    }

    /** `_send_message`: encode and send, or raise when there is no open socket. */
    method SendMessage(m: MessageV1) returns (r: Result<(), Session.SendError>)
      modifies this
      ensures r.Ok? <==> transport == Session.Open
      ensures r == Err(Session.NotConnected) <==> transport == Session.NoSocket
      ensures outbox == old(outbox) + (if r.Ok? then [Encoded(EncodeV1(m))] else [])
      ensures transport == old(transport) && authenticated == old(authenticated)
      ensures pairedPeer == old(pairedPeer) && sessionId == old(sessionId)
      ensures handlers == old(handlers) && running == old(running)
    {
      match transport
      case NoSocket =>
        r := Err(Session.NotConnected);
      case Dropped =>
        r := Err(Session.SocketClosed);
      case Open =>
        var data := MessageToDictV1(m);
        outbox := outbox + [Encoded(data)];
        r := Ok(());
    }

    /**
     * `connect`: dial `<worker_url>/ws?token=<token>&peer_id=<peer_id>`,
     * send `auth` and read one reply; only an accepting `auth_response`
     * authenticates, taking the session id and paired peer from it. Every
     * failure, raised or not, returns false and leaves the authentication
     * state as it was. `dialled` is the URL handed to the transport.
     */
    method Connect(a: Attempt, now: string) returns (ok: bool, dialled: string)
      requires Valid()
      modifies this
      ensures Valid()
      ensures dialled == Url.ConnectUrl(workerUrl, token, peerId)
      ensures ok <==> a.openOk && AcceptsV1(a.reply, now)
      ensures !a.openOk ==> transport == old(transport) && outbox == old(outbox)
      ensures a.openOk ==>
        && outbox == old(outbox) + [Encoded(EncodeV1(AuthRecord(token, peerId, now)))]
        && transport == (if a.reply == Session.Closed then Session.Dropped else Session.Open)
      ensures ok ==> var m := ReceiveV1(a.reply, now).value.value;
        authenticated && sessionId == m.sessionId && pairedPeer == m.pairedPeer
      ensures !ok ==>
        authenticated == old(authenticated) && sessionId == old(sessionId) && pairedPeer == old(pairedPeer)
      ensures handlers == old(handlers) && running == old(running)
    {
      dialled := workerUrl + "/ws?token=" + token + "&peer_id=" + peerId;
      if !a.openOk {
        return false, dialled;
      }
      transport := Session.Open;
      var sent := SendMessage(AuthRecord(token, peerId, now));
      var response := ReceiveV1(a.reply, now);
      if a.reply == Session.Closed {
        transport := Session.Dropped;
      }
      ok := false;
      if response.Ok? && response.value.Some? && response.value.value.AuthResponseV1? {
        var m := response.value.value;
        if Truthy(m.success) {
          authenticated := true;
          sessionId := m.sessionId;
          pairedPeer := m.pairedPeer;
          ok := true;
        }
      }
    }

    /** `disconnect`: stop and drop the socket and the authentication; the paired peer is kept. */
    method Disconnect()
      requires Valid()
      modifies this
      ensures !running && transport == Session.NoSocket && !authenticated
      ensures pairedPeer == old(pairedPeer) && sessionId == old(sessionId)
      ensures handlers == old(handlers) && outbox == old(outbox) && Valid()
    {
      running := false;
      transport := Session.NoSocket;
      authenticated := false;
    }

    /** `send_text`: nothing while unauthenticated, otherwise one `text_message` from this peer. */
    method SendText(content: string, messageId: string, now: string) returns (r: Result<(), Session.SendError>)
      requires Valid()
      modifies this
      ensures !authenticated ==> r.Ok? && outbox == old(outbox)
      ensures authenticated ==> (r.Ok? <==> transport == Session.Open)
      ensures authenticated && transport == Session.Open ==>
        outbox == old(outbox) + [Encoded(EncodeV1(TextV1(Str("text_message"), Str(now), Str(peerId), Str(content), Str(messageId))))]
      ensures authenticated && transport != Session.Open ==> outbox == old(outbox)
      ensures transport == old(transport) && authenticated == old(authenticated)
      ensures pairedPeer == old(pairedPeer) && sessionId == old(sessionId)
      ensures handlers == old(handlers) && running == old(running) && Valid()
    {
      if !authenticated {
        return Ok(());
      }
      r := SendMessage(TextV1(Str("text_message"), Str(now), Str(peerId), Str(content), Str(messageId)));
    }

    /** `send_clipboard`: only authentication is checked; text of any size is sent. */
    method SendClipboard(content: string, source: string, messageId: string) returns (r: Result<(), Session.SendError>)
      requires Valid()
      modifies this
      ensures !authenticated ==> r.Ok? && outbox == old(outbox)
      ensures authenticated ==> (r.Ok? <==> transport == Session.Open)
      ensures authenticated && transport == Session.Open ==>
        outbox == old(outbox) + [ClipboardOut(peerId, content, messageId, source)]
      ensures authenticated && transport != Session.Open ==> outbox == old(outbox)
      ensures transport == old(transport) && authenticated == old(authenticated)
      ensures pairedPeer == old(pairedPeer) && sessionId == old(sessionId)
      ensures handlers == old(handlers) && running == old(running) && Valid()
    {
      if !authenticated {
        return Ok(());
      }
      match transport
      case NoSocket =>
        r := Err(Session.NotConnected);
      case Dropped =>
        r := Err(Session.SocketClosed);
      case Open =>
        outbox := outbox + [ClipboardOut(peerId, content, messageId, source)];
        r := Ok(());
    }

    /** `register_handler`: a later registration for a type replaces an earlier one. */
    method RegisterHandler(messageType: string, handler: Handler)
      modifies this
      ensures handlers == old(handlers)[messageType := handler]
      ensures transport == old(transport) && authenticated == old(authenticated)
      ensures pairedPeer == old(pairedPeer) && sessionId == old(sessionId)
      ensures running == old(running) && outbox == old(outbox)
    {
      handlers := handlers[messageType := handler];
    }

    /** `_handle_message`: returns the custom handler that runs, if one is registered. */
    method HandleMessage(m: MessageV1) returns (handler: Option<Handler>)
      modifies this
      ensures (handler, pairedPeer) == DispatchV1(old(handlers), old(pairedPeer), m)
      ensures transport == old(transport) && authenticated == old(authenticated)
      ensures handlers == old(handlers) && sessionId == old(sessionId)
      ensures running == old(running) && outbox == old(outbox)
    {
      if m.tag.Str? && m.tag.s in handlers {
        return Some(handlers[m.tag.s]);
      }
      handler := None;
      if m.PeerEventV1? {
        if m.tag == Str("peer_connected") {
          pairedPeer := m.peerId;
        } else {
          pairedPeer := Null;
        }
      }
    }

    /**
     * `listen`: nothing unless authenticated; otherwise, while `_running`
     * and a socket is held, receive and dispatch until an exception ends the
     * loop. `_running` is never cleared here. Returns the custom handlers
     * run, with their records, the number of frames received, and whether an
     * exception ended the loop.
     */
    method Listen(frames: seq<Frame>, now: string)
      returns (dispatched: seq<(Handler, MessageV1)>, consumed: nat, ended: bool)
      requires Valid()
      modifies this
      ensures consumed <= |frames|
      ensures !old(authenticated) || !old(running) ==>
        consumed == 0 && dispatched == [] && !ended
        && transport == old(transport) && pairedPeer == old(pairedPeer)
      ensures old(authenticated) && old(running) ==>
        var fin := ListenRunV1(handlers, ListenV1(old(pairedPeer), old(transport), [], false), frames[..consumed], now);
        && (consumed < |frames| ==> fin.ended)
        && ListenV1(pairedPeer, transport, dispatched, ended) == fin
      ensures authenticated == old(authenticated) && handlers == old(handlers) && running == old(running)
      ensures sessionId == old(sessionId) && outbox == old(outbox) && Valid()
    {
      dispatched := [];
      consumed := 0;
      ended := false;
      if !authenticated {
        return;
      }
      ghost var start := ListenV1(pairedPeer, transport, [], false);
      while running && transport != Session.NoSocket && !ended && consumed < |frames|
        invariant consumed <= |frames|
        invariant transport != Session.NoSocket
        invariant authenticated == old(authenticated) && handlers == old(handlers) && running == old(running)
        invariant sessionId == old(sessionId) && outbox == old(outbox)
        invariant !running ==> consumed == 0
        invariant ListenV1(pairedPeer, transport, dispatched, ended)
          == ListenRunV1(handlers, start, frames[..consumed], now)
      {
        assert frames[..consumed + 1][..consumed] == frames[..consumed];
        var f := if transport == Session.Dropped then Session.Closed else frames[consumed];
        consumed := consumed + 1;
        match ReceiveV1(f, now) {
          case Err(ConnectionClosed) =>
            ended := true;
            transport := Session.Dropped;
          case Err(Undecodable) =>
            ended := true;
          case Ok(None) =>
          case Ok(Some(m)) =>
            var h := HandleMessage(m);
            if h.Some? {
              dispatched := dispatched + [(h.value, m)];
            }
        }
      }
    }

    /**
     * `connect_with_retry`: one `connect` when reconnecting is disabled;
     * otherwise the strategy's `connect_with_retry` with `connect` as the
     * attempt, the `i`-th call meeting `attempts(i)`. Returns the result
     * and the number of calls of `connect`.
     */
    method ConnectWithRetry(attempts: nat -> Attempt, now: string) returns (ok: bool, calls: nat)
      requires Valid()
      modifies this, strategy
      ensures Valid()
      ensures !enableReconnect ==> calls == 1 && (ok <==> Outcomes(attempts, now)(0) == Backoff.Succeeded)
      ensures enableReconnect ==>
        Backoff.RetryResult(ok, calls) == Backoff.Retry(Backoff.OlderDefaults, Outcomes(attempts, now))
      ensures ok ==> authenticated && transport != Session.NoSocket
      ensures handlers == old(handlers) && running == old(running)
    {
      if !enableReconnect {
        var dialled;
        ok, dialled := Connect(attempts(0), now);
        return ok, 1;
      }
      var s := strategy;
      var outcome := Outcomes(attempts, now);
      s.Reset();
      calls := 0;
      while true
        invariant Valid() && s == strategy && s.Valid() && calls == s.attemptCount
        invariant Backoff.Retry(s.Params(), outcome) == Backoff.RetryFrom(s.Params(), outcome, calls)
        invariant handlers == old(handlers) && running == old(running)
        decreases Backoff.Max0(s.maxAttempts) - s.attemptCount
      {
        var dialled;
        ok, dialled := Connect(attempts(calls), now);
        calls := calls + 1;
        if ok {
          s.Reset();
          return;
        }
        var delay := s.GetNextDelay();
        if delay < 0.0 {
          return;
        }
      }
    }

    /**
     * `maintain_connection`, for at most `rounds` passes of its loop: in
     * pass `r`, connect with retry through `attempts(r)` when not
     * authenticated or without a socket (giving up when that fails), then
     * listen to `traffic(r)`. Returns, per completed pass, whether it
     * connected and the transport it left, and whether it gave up.
     *
     * As written, the guard looks only at `authenticated` and at whether a
     * socket object is held, and `listen` clears neither when the relay
     * closes the connection: a connection that drops is never reopened, and
     * every later pass re-enters `listen`, which returns at once.
     */
    method MaintainConnection(rounds: nat, attempts: nat -> nat -> Attempt, traffic: nat -> seq<Frame>, now: string)
      returns (reconnected: seq<bool>, after: seq<Transport>, gaveUp: bool)
      requires Valid()
      modifies this, strategy
      ensures Valid() && running && handlers == old(handlers)
      ensures |reconnected| == |after| <= rounds
      ensures !enableReconnect ==> after == [] && !gaveUp
      ensures enableReconnect && |after| < rounds ==> gaveUp
      ensures gaveUp ==> after == []
      ensures forall j :: 0 < j < |reconnected| ==> !reconnected[j]
      ensures forall i, j :: 0 <= i < j < |after| && after[i] == Session.Dropped ==> after[j] == Session.Dropped
    {
      running := true;
      reconnected, after, gaveUp := [], [], false;
      while enableReconnect && running && |after| < rounds
        invariant Valid() && running && handlers == old(handlers) && !gaveUp
        invariant |reconnected| == |after| <= rounds
        invariant !enableReconnect ==> after == []
        invariant |after| > 0 ==> authenticated && transport == after[|after| - 1]
        invariant forall i :: 0 <= i < |after| ==> after[i] != Session.NoSocket
        invariant forall j :: 0 < j < |reconnected| ==> !reconnected[j]
        invariant forall i, j :: 0 <= i < j < |after| && after[i] == Session.Dropped ==> after[j] == Session.Dropped
        decreases rounds - |after|
      {
        var r := |after|;
        var connect := !authenticated || transport == Session.NoSocket;
        if connect {
          var ok, _ := ConnectWithRetry(attempts(r), now);
          if !ok {
            gaveUp := true;
            break;
          }
        }
        ghost var start := ListenV1(pairedPeer, transport, [], false);
        var _, consumed, _ := Listen(traffic(r), now);
        ListenKeepsSocket(handlers, start, traffic(r)[..consumed], now);
        if start.transport == Session.Dropped {
          DroppedStaysDropped(handlers, start, traffic(r)[..consumed], now);
        }
        reconnected := reconnected + [connect];
        after := after + [transport];
      }
    }

    /**
     * `maintain_connection` as its documentation intends ("reconnects on
     * disconnect"): the guard also reconnects when the socket held is no
     * longer open. A pass that follows one that left the connection closed
     * reconnects, and only such a pass does.
     */
    method MaintainConnectionReconnecting(rounds: nat, attempts: nat -> nat -> Attempt, traffic: nat -> seq<Frame>, now: string)
      returns (reconnected: seq<bool>, after: seq<Transport>, gaveUp: bool)
      requires Valid()
      modifies this, strategy
      ensures Valid() && running && handlers == old(handlers)
      ensures |reconnected| == |after| <= rounds
      ensures !enableReconnect ==> after == [] && !gaveUp
      ensures enableReconnect && |after| < rounds ==> gaveUp
      ensures forall j :: 0 < j < |reconnected| ==> (reconnected[j] <==> after[j - 1] == Session.Dropped)
    {
      running := true;
      reconnected, after, gaveUp := [], [], false;
      while enableReconnect && running && |after| < rounds
        invariant Valid() && running && handlers == old(handlers) && !gaveUp
        invariant |reconnected| == |after| <= rounds
        invariant !enableReconnect ==> after == []
        invariant |after| > 0 ==> authenticated && transport == after[|after| - 1]
        invariant forall i :: 0 <= i < |after| ==> after[i] != Session.NoSocket
        invariant forall j :: 0 < j < |reconnected| ==> (reconnected[j] <==> after[j - 1] == Session.Dropped)
        decreases rounds - |after|
      {
        var r := |after|;
        var connect := !authenticated || transport != Session.Open;
        assert r > 0 ==> (connect <==> after[r - 1] == Session.Dropped);
        if connect {
          var ok, _ := ConnectWithRetry(attempts(r), now);
          if !ok {
            gaveUp := true;
            break;
          }
        }
        ghost var start := ListenV1(pairedPeer, transport, [], false);
        var _, consumed, _ := Listen(traffic(r), now);
        ListenKeepsSocket(handlers, start, traffic(r)[..consumed], now);
        ghost var before := after;
        reconnected := reconnected + [connect];
        after := after + [transport];
        assert forall j :: 0 <= j < r ==> after[j] == before[j];
      }
    }
  }
}
