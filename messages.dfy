/**
 * The wire-message codec of the current client (apps/client/.../models/messages.py).
 *
 * A message is a tagged record; on the wire it is a flat JSON object whose
 * `type` key holds the tag. `MessageToDict` is `message_to_dict` (the
 * dataclass fields, with `from_peer` renamed to `from`) and `DictToMessage`
 * is `dict_to_message` (a lookup per field with a default, and an error for
 * a tag outside the eight known ones).
 */
module Messages {
  import opened Wrappers
  import Strings

  /** A JSON scalar, as found under a key of a decoded message object. */
  datatype Scalar = Null | Bool(b: bool) | Int(i: int) | Str(s: string)

  /** A message as a flat string-keyed map: the JSON object on the wire. */
  type Payload = map<string, Scalar>

  datatype MessageType =
    | Auth | AuthResponse | TextMessage | ClipboardText
    | PeerConnected | PeerDisconnected | Heartbeat | Error

  /** The string value of each `MessageType` member. */
  function TypeTag(t: MessageType): string
  {
    match t
    case Auth => "auth"
    case AuthResponse => "auth_response"
    case TextMessage => "text_message"
    case ClipboardText => "clipboard_text"
    case PeerConnected => "peer_connected"
    case PeerDisconnected => "peer_disconnected"
    case Heartbeat => "heartbeat"
    case Error => "error"
  }

  const KnownTags: set<string> :=
    {"auth", "auth_response", "text_message", "clipboard_text",
     "peer_connected", "peer_disconnected", "heartbeat", "error"}

  datatype ErrorCode = TokenInvalid | PeerLimit | AlreadyConnected | InternalError

  function ErrorCodeValue(c: ErrorCode): string
  {
    match c
    case TokenInvalid => "TOKEN_INVALID"
    case PeerLimit => "PEER_LIMIT"
    case AlreadyConnected => "ALREADY_CONNECTED"
    case InternalError => "INTERNAL_ERROR"
  }

  /** `ClipboardSyncMode`: why a clipboard message was sent, and the client's mode. */
  datatype ClipboardSyncMode = Auto | Manual

  function SyncModeValue(m: ClipboardSyncMode): string
  {
    match m
    case Auto => "auto"
    case Manual => "manual"
  }

  /** The `type` of a `PeerEventMessage`: one of the two peer tags. */
  datatype PeerEvent = Connected | Disconnected

  /** The message dataclasses. Every one carries the `timestamp` of `BaseMessage`. */
  datatype Message =
    | AuthMessage(timestamp: string, token: string, peerId: string)
    | AuthResponseMessage(timestamp: string, success: bool, sessionId: Option<string>,
                          pairedPeer: Option<string>, error: Option<string>)
    | TextMsg(timestamp: string, fromPeer: string, content: string, messageId: string)
    | ClipboardTextMessage(timestamp: string, fromPeer: string, content: string,
                           messageId: string, source: ClipboardSyncMode)
    | PeerEventMessage(event: PeerEvent, timestamp: string, peerId: string)
    | HeartbeatMessage(timestamp: string, peerId: string)
    | ErrorMessage(timestamp: string, code: ErrorCode, message: string)

  /** The `type` field of a message. */
  function TypeOf(m: Message): MessageType
  {
    match m
    case AuthMessage(_, _, _) => Auth
    case AuthResponseMessage(_, _, _, _, _) => AuthResponse
    case TextMsg(_, _, _, _) => TextMessage
    case ClipboardTextMessage(_, _, _, _, _) => ClipboardText
    case PeerEventMessage(e, _, _) => if e == Connected then PeerConnected else PeerDisconnected
    case HeartbeatMessage(_, _) => Heartbeat
    case ErrorMessage(_, _, _) => Error
  }

  function OptionalScalar(o: Option<string>): Scalar
  {
    match o
    case None => Null
    case Some(s) => Str(s)
  }

  /** `dataclasses.asdict(message)`: every field under its Python name. */
  function AsDict(m: Message): Payload
  {
    var base := map["type" := Str(TypeTag(TypeOf(m))), "timestamp" := Str(m.timestamp)];
    match m
    case AuthMessage(_, token, peerId) =>
      base["token" := Str(token)]["peer_id" := Str(peerId)]
    case AuthResponseMessage(_, success, sessionId, pairedPeer, error) =>
      base["success" := Bool(success)]["session_id" := OptionalScalar(sessionId)]
          ["paired_peer" := OptionalScalar(pairedPeer)]["error" := OptionalScalar(error)]
    case TextMsg(_, fromPeer, content, messageId) =>
      base["from_peer" := Str(fromPeer)]["content" := Str(content)]["message_id" := Str(messageId)]
    case ClipboardTextMessage(_, fromPeer, content, messageId, source) =>
      base["from_peer" := Str(fromPeer)]["content" := Str(content)]["message_id" := Str(messageId)]
          ["source" := Str(SyncModeValue(source))]
    case PeerEventMessage(_, _, peerId) =>
      base["peer_id" := Str(peerId)]
    case HeartbeatMessage(_, peerId) =>
      base["peer_id" := Str(peerId)]
    case ErrorMessage(_, code, message) =>
      base["code" := Str(ErrorCodeValue(code))]["message" := Str(message)]
  }

  /** `message_to_dict`: the dataclass fields, with `from_peer` moved to `from`. */
  function MessageToDict(m: Message): (r: Payload)
    ensures "from_peer" !in r
    ensures forall k :: k in AsDict(m) && k != "from_peer" ==> k in r && r[k] == AsDict(m)[k]
    ensures "from_peer" in AsDict(m) ==> "from" in r && r["from"] == AsDict(m)["from_peer"]
    ensures r.Keys == if "from_peer" in AsDict(m) then AsDict(m).Keys - {"from_peer"} + {"from"}
                      else AsDict(m).Keys
  {
    var d := AsDict(m);
    assert "from" !in d;
    if "from_peer" in d then (d - {"from_peer"})["from" := d["from_peer"]] else d
  }

  // ---------------------------------------------------------------------
  // Decoding

  datatype DecodeError = UnknownMessageType(tag: Scalar)

  /** `data.get(key, default)`. */
  function Get(d: Payload, key: string, default: Scalar): Scalar
  {
    if key in d then d[key] else default
  }

  /** Python's `str(value)` on a JSON scalar. */
  function PyStr(v: Scalar): string
  {
    match v
    case Null => "None"
    case Bool(b) => if b then "True" else "False"
    case Int(i) => Strings.IntToString(i)
    case Str(s) => s
  }

  /** Python's truth value of a JSON scalar (`bool(value)`). */
  predicate Truthy(v: Scalar)
  {
    match v
    case Null => false
    case Bool(b) => b
    case Int(i) => i != 0
    case Str(s) => s != ""
  }

  /** `str(data[key]) if data.get(key) else None`. */
  function OptionalField(d: Payload, key: string): Option<string>
  {
    if key in d && Truthy(d[key]) then Some(PyStr(d[key])) else None
  }

  function DecodeSource(v: Scalar): ClipboardSyncMode
  {
    if v == Str(SyncModeValue(Manual)) then Manual else Auto
  }

  function DecodeErrorCode(v: Scalar): ErrorCode
  {
    if v == Str(ErrorCodeValue(TokenInvalid)) then TokenInvalid
    else if v == Str(ErrorCodeValue(PeerLimit)) then PeerLimit
    else if v == Str(ErrorCodeValue(AlreadyConnected)) then AlreadyConnected
    else InternalError
  }

  /** The `MessageType` member whose value equals the tag, if any. */
  function ParseType(tag: Scalar): (r: Option<MessageType>)
    ensures r.Some? <==> tag.Str? && tag.s in KnownTags
    ensures r.Some? ==> tag == Str(TypeTag(r.value))
  {
    if !tag.Str? then None
    else if tag.s == "auth" then Some(Auth)
    else if tag.s == "auth_response" then Some(AuthResponse)
    else if tag.s == "text_message" then Some(TextMessage)
    else if tag.s == "clipboard_text" then Some(ClipboardText)
    else if tag.s == "peer_connected" then Some(PeerConnected)
    else if tag.s == "peer_disconnected" then Some(PeerDisconnected)
    else if tag.s == "heartbeat" then Some(Heartbeat)
    else if tag.s == "error" then Some(Error)
    else None
  }

  lemma ParseTypeOfTag(t: MessageType)
    ensures ParseType(Str(TypeTag(t))) == Some(t)
  {
  }

  /** `dict_to_message`: build the record named by the tag; raise on any other tag. */
  function DictToMessage(d: Payload): (r: Result<Message, DecodeError>)
    ensures r.Ok? <==> "type" in d && d["type"].Str? && d["type"].s in KnownTags
    ensures r.Ok? ==> d["type"] == Str(TypeTag(TypeOf(r.value)))
    ensures r.Err? ==> r.error == UnknownMessageType(Get(d, "type", Null))
  {
    var tag := Get(d, "type", Null);
    var timestamp := PyStr(Get(d, "timestamp", Str("")));
    match ParseType(tag)
    case None => Err(UnknownMessageType(tag))
    case Some(Auth) =>
      Ok(AuthMessage(timestamp, PyStr(Get(d, "token", Str(""))), PyStr(Get(d, "peer_id", Str("")))))
    case Some(AuthResponse) =>
      Ok(AuthResponseMessage(timestamp, Truthy(Get(d, "success", Bool(false))),
        OptionalField(d, "session_id"), OptionalField(d, "paired_peer"), OptionalField(d, "error")))
    case Some(TextMessage) =>
      Ok(TextMsg(timestamp, PyStr(Get(d, "from", Str(""))), PyStr(Get(d, "content", Str(""))),
        PyStr(Get(d, "message_id", Str("")))))
    case Some(ClipboardText) =>
      Ok(ClipboardTextMessage(timestamp, PyStr(Get(d, "from", Str(""))), PyStr(Get(d, "content", Str(""))),
        PyStr(Get(d, "message_id", Str(""))), DecodeSource(Get(d, "source", Str("manual")))))
    case Some(PeerConnected) =>
      Ok(PeerEventMessage(Connected, timestamp, PyStr(Get(d, "peer_id", Str("")))))
    case Some(PeerDisconnected) =>
      Ok(PeerEventMessage(Disconnected, timestamp, PyStr(Get(d, "peer_id", Str("")))))
    case Some(Heartbeat) =>
      Ok(HeartbeatMessage(timestamp, PyStr(Get(d, "peer_id", Str("")))))
    case Some(Error) =>
      Ok(ErrorMessage(timestamp, DecodeErrorCode(Get(d, "code", Str("INTERNAL_ERROR"))),
        PyStr(Get(d, "message", Str("")))))
  }

  // ---------------------------------------------------------------------
  // Properties

  /** The record each dataclass builds when given only its tag. */
  function DefaultMessage(t: MessageType): Message
  {
    match t
    case Auth => AuthMessage("", "", "")
    case AuthResponse => AuthResponseMessage("", false, None, None, None)
    case TextMessage => TextMsg("", "", "", "")
    case ClipboardText => ClipboardTextMessage("", "", "", "", Manual)
    case PeerConnected => PeerEventMessage(Connected, "", "")
    case PeerDisconnected => PeerEventMessage(Disconnected, "", "")
    case Heartbeat => HeartbeatMessage("", "")
    case Error => ErrorMessage("", InternalError, "")
  }

  /** The wire key of a dataclass field: `from_peer` travels as `from`. */
  function WireKey(k: string): string
  {
    if k == "from_peer" then "from" else k
  }

  /**
   * Every field whose key is missing from the payload decodes to its default:
   * the decoded message encodes, under that key, what the default message of
   * the same type encodes.
   */
  lemma AbsentFieldsDefault(d: Payload)
    requires DictToMessage(d).Ok?
    ensures var m := DictToMessage(d).value;
      forall k :: k in AsDict(m) && WireKey(k) !in d ==>
        k in AsDict(DefaultMessage(TypeOf(m))) && AsDict(m)[k] == AsDict(DefaultMessage(TypeOf(m)))[k]
  {
    match ParseType(d["type"]).value
    case Auth =>
    case AuthResponse =>
    case TextMessage =>
    case ClipboardText =>
    case PeerConnected =>
    case PeerDisconnected =>
    case Heartbeat =>
    case Error =>
  }

  /** A payload holding only a known tag decodes to that type's default record. */
  lemma TagOnlyDecodesToDefault(t: MessageType)
    ensures DictToMessage(map["type" := Str(TypeTag(t))]) == Ok(DefaultMessage(t))
  {
  }

  /** In `auth_response`, an absent or empty `session_id`, `paired_peer` or `error` is `None`. */
  lemma AuthResponseOptionals(d: Payload, key: string)
    requires Get(d, "type", Null) == Str("auth_response")
    requires key in {"session_id", "paired_peer", "error"}
    ensures var m := DictToMessage(d).value;
      var field := if key == "session_id" then m.sessionId
                   else if key == "paired_peer" then m.pairedPeer else m.error;
      && (key !in d || d[key] == Str("") || d[key] == Null ==> field == None)
      && (key in d && d[key].Str? ==> (field == None <==> d[key].s == ""))
      && (key in d && d[key].Str? && d[key].s != "" ==> field == Some(d[key].s))
  {
  }

  /** `clipboard_text.source` is MANUAL exactly when it is `"manual"` or missing. */
  lemma ClipboardSourceDecoding(d: Payload)
    requires Get(d, "type", Null) == Str("clipboard_text")
    ensures DictToMessage(d).value.source == Manual <==> ("source" !in d || d["source"] == Str("manual"))
  {
  }

  /** An error `code` outside the three named codes decodes to INTERNAL_ERROR. */
  lemma ErrorCodeDecoding(d: Payload)
    requires Get(d, "type", Null) == Str("error")
    ensures var code := DictToMessage(d).value.code;
      && (forall c :: c != InternalError ==> (code == c <==> "code" in d && d["code"] == Str(ErrorCodeValue(c))))
      && (code == InternalError <==>
           !("code" in d && d["code"] in {Str("TOKEN_INVALID"), Str("PEER_LIMIT"), Str("ALREADY_CONNECTED")}))
  {
  }

  /** The side condition of the round trip: `auth_response`'s optional strings are absent or non-empty. */
  predicate RoundTrips(m: Message)
  {
    m.AuthResponseMessage? ==>
      && m.sessionId != Some("") && m.pairedPeer != Some("") && m.error != Some("")
  }

  /** Every wire dictionary carries its message's tag and timestamp, and the tag parses back. */
  lemma EncodedHeader(m: Message)
    ensures var d := MessageToDict(m);
      && d["type"] == Str(TypeTag(TypeOf(m))) && d["timestamp"] == Str(m.timestamp)
      && ParseType(d["type"]) == Some(TypeOf(m))
  {
    ParseTypeOfTag(TypeOf(m));
  }

  lemma RoundTripAuth(m: Message)
    requires m.AuthMessage?
    ensures DictToMessage(MessageToDict(m)) == Ok(m)
  {
    var d := MessageToDict(m);
    EncodedHeader(m);
    assert d["token"] == Str(m.token) && d["peer_id"] == Str(m.peerId);
  }

  lemma RoundTripAuthResponse(m: Message)
    requires m.AuthResponseMessage?
    ensures DictToMessage(MessageToDict(m)).Ok?
    ensures DictToMessage(MessageToDict(m)) == Ok(m) <==> RoundTrips(m)
  {
    var d := MessageToDict(m);
    EncodedHeader(m);
    assert d["success"] == Bool(m.success);
    assert d["session_id"] == OptionalScalar(m.sessionId);
    assert d["paired_peer"] == OptionalScalar(m.pairedPeer);
    assert d["error"] == OptionalScalar(m.error);
  }

  lemma RoundTripText(m: Message)
    requires m.TextMsg?
    ensures DictToMessage(MessageToDict(m)) == Ok(m)
  {
    var d := MessageToDict(m);
    EncodedHeader(m);
    assert d["from"] == Str(m.fromPeer) && d["content"] == Str(m.content) && d["message_id"] == Str(m.messageId);
  }

  lemma RoundTripClipboardText(m: Message)
    requires m.ClipboardTextMessage?
    ensures DictToMessage(MessageToDict(m)) == Ok(m)
  {
    var d := MessageToDict(m);
    EncodedHeader(m);
    assert d["from"] == Str(m.fromPeer) && d["content"] == Str(m.content) && d["message_id"] == Str(m.messageId);
    assert d["source"] == Str(SyncModeValue(m.source));
    assert DecodeSource(Str(SyncModeValue(m.source))) == m.source;
  }

  lemma RoundTripPeerEvent(m: Message)
    requires m.PeerEventMessage?
    ensures DictToMessage(MessageToDict(m)) == Ok(m)
  {
    var d := MessageToDict(m);
    EncodedHeader(m);
    assert d["peer_id"] == Str(m.peerId);
  }

  lemma RoundTripHeartbeat(m: Message)
    requires m.HeartbeatMessage?
    ensures DictToMessage(MessageToDict(m)) == Ok(m)
  {
    var d := MessageToDict(m);
    EncodedHeader(m);
    assert d["peer_id"] == Str(m.peerId);
  }

  lemma RoundTripError(m: Message)
    requires m.ErrorMessage?
    ensures DictToMessage(MessageToDict(m)) == Ok(m)
  {
    var d := MessageToDict(m);
    EncodedHeader(m);
    assert d["code"] == Str(ErrorCodeValue(m.code)) && d["message"] == Str(m.message);
    assert DecodeErrorCode(Str(ErrorCodeValue(m.code))) == m.code;
  }

  /**
   * `dict_to_message(message_to_dict(m)) == m` holds exactly for the messages
   * whose `auth_response` optional strings are `None` or non-empty; an empty
   * one comes back as `None`. Every encoded message decodes.
   */
  lemma RoundTrip(m: Message)
    ensures DictToMessage(MessageToDict(m)).Ok?
    ensures DictToMessage(MessageToDict(m)) == Ok(m) <==> RoundTrips(m)
  {
    match m
    case AuthMessage(_, _, _) => RoundTripAuth(m);
    case AuthResponseMessage(_, _, _, _, _) => RoundTripAuthResponse(m);
    case TextMsg(_, _, _, _) => RoundTripText(m);
    case ClipboardTextMessage(_, _, _, _, _) => RoundTripClipboardText(m);
    case PeerEventMessage(_, _, _) => RoundTripPeerEvent(m);
    case HeartbeatMessage(_, _) => RoundTripHeartbeat(m);
    case ErrorMessage(_, _, _) => RoundTripError(m);
  }
}
