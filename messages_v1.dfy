/**
 * The wire-message codec of the older client (src/wsclip/models/message.py).
 *
 * The older dataclasses are built with `Cls(**data)`: every field holds
 * whatever JSON value arrived under its name, unconverted, a key that is not
 * a field of the class is a `TypeError`, and a missing `timestamp` is filled
 * in with the current time. Only six tags are accepted; `clipboard_text` and
 * `heartbeat` belong to the newer protocol and raise `ValueError` here.
 */
module MessagesV1 {
  import opened Wrappers
  import opened Messages

  /** The older message records. Each field holds the raw value it was built from. */
  datatype MessageV1 =
    | AuthV1(tag: Scalar, timestamp: Scalar, token: Scalar, peerId: Scalar)
    | AuthResponseV1(tag: Scalar, timestamp: Scalar, success: Scalar, sessionId: Scalar,
                     pairedPeer: Scalar, error: Scalar)
    | TextV1(tag: Scalar, timestamp: Scalar, fromPeer: Scalar, content: Scalar, messageId: Scalar)
    | PeerEventV1(tag: Scalar, timestamp: Scalar, peerId: Scalar)
    | ErrorV1(tag: Scalar, timestamp: Scalar, code: Scalar, message: Scalar)

  /** The five record classes. */
  datatype Kind = AuthKind | AuthResponseKind | TextKind | PeerEventKind | ErrorKind

  function KindOf(m: MessageV1): Kind
  {
    match m
    case AuthV1(_, _, _, _) => AuthKind
    case AuthResponseV1(_, _, _, _, _, _) => AuthResponseKind
    case TextV1(_, _, _, _, _) => TextKind
    case PeerEventV1(_, _, _) => PeerEventKind
    case ErrorV1(_, _, _, _) => ErrorKind
  }

  /** The `MessageType` literal list of the older protocol. */
  const LiteralTags: set<Scalar> :=
    {Str("auth"), Str("auth_response"), Str("text_message"),
     Str("peer_connected"), Str("peer_disconnected"), Str("error")}

  /** The tags each record class is declared to carry. */
  function TagsOf(k: Kind): set<Scalar>
  {
    match k
    case AuthKind => {Str("auth")}
    case AuthResponseKind => {Str("auth_response")}
    case TextKind => {Str("text_message")}
    case PeerEventKind => {Str("peer_connected"), Str("peer_disconnected")}
    case ErrorKind => {Str("error")}
  }

  /** A record whose `type` is one its class declares. */
  predicate WellTagged(m: MessageV1)
  {
    m.tag in TagsOf(KindOf(m))
  }

  /** The dataclass field names of each class, in declaration order. */
  function FieldNames(k: Kind): seq<string>
  {
    match k
    case AuthKind => ["type", "timestamp", "token", "peer_id"]
    case AuthResponseKind => ["type", "timestamp", "success", "session_id", "paired_peer", "error"]
    case TextKind => ["type", "timestamp", "from_peer", "content", "message_id"]
    case PeerEventKind => ["type", "timestamp", "peer_id"]
    case ErrorKind => ["type", "timestamp", "code", "message"]
  }

  /** `msg.__dict__.items()`: each field name with its value, in declaration order. */
  function Attributes(m: MessageV1): (r: seq<(string, Scalar)>)
    ensures |r| == |FieldNames(KindOf(m))|
    ensures forall i :: 0 <= i < |r| ==> r[i].0 == FieldNames(KindOf(m))[i]
  {
    match m
    case AuthV1(t, ts, token, peerId) =>
      [("type", t), ("timestamp", ts), ("token", token), ("peer_id", peerId)]
    case AuthResponseV1(t, ts, success, sessionId, pairedPeer, error) =>
      [("type", t), ("timestamp", ts), ("success", success), ("session_id", sessionId),
       ("paired_peer", pairedPeer), ("error", error)]
    case TextV1(t, ts, fromPeer, content, messageId) =>
      [("type", t), ("timestamp", ts), ("from_peer", fromPeer), ("content", content),
       ("message_id", messageId)]
    case PeerEventV1(t, ts, peerId) =>
      [("type", t), ("timestamp", ts), ("peer_id", peerId)]
    case ErrorV1(t, ts, code, message) =>
      [("type", t), ("timestamp", ts), ("code", code), ("message", message)]
  }

  // ---------------------------------------------------------------------
  // Encoding

  /** The dictionary the encoding loop has built after visiting `attrs`. */
  function DictOf(attrs: seq<(string, Scalar)>): Payload
  {
    if attrs == [] then map[]
    else DictOf(attrs[..|attrs| - 1])[WireKey(attrs[|attrs| - 1].0) := attrs[|attrs| - 1].1]
  }

  /** The specification of `message_to_dict`. */
  function EncodeV1(m: MessageV1): Payload
  {
    DictOf(Attributes(m))
  }

  /** `message_to_dict`: copy every attribute, writing `from_peer` under `from`. */
  method MessageToDictV1(m: MessageV1) returns (result: Payload)
    ensures result == EncodeV1(m)
  {
    var attrs := Attributes(m);
    result := map[];
    for i := 0 to |attrs|
      invariant result == DictOf(attrs[..i])
    {
      var (key, value) := attrs[i];
      assert attrs[..i + 1][..i] == attrs[..i];
      if key == "from_peer" {
        result := result["from" := value];
      } else {
        result := result[key := value];
      }
    }
    assert attrs[..|attrs|] == attrs;
  }

  /** No two attributes share a wire key. */
  predicate DistinctWireKeys(attrs: seq<(string, Scalar)>)
  {
    forall i, j :: 0 <= i < j < |attrs| ==> WireKey(attrs[i].0) != WireKey(attrs[j].0)
  }

  /** The loop's dictionary has one key per attribute: its wire key. */
  lemma {:induction false} DictOfKeys(attrs: seq<(string, Scalar)>)
    ensures forall k :: k in DictOf(attrs) <==> exists i :: 0 <= i < |attrs| && WireKey(attrs[i].0) == k
  {
    if attrs != [] {
      var n := |attrs| - 1;
      DictOfKeys(attrs[..n]);
      forall k | k in DictOf(attrs)
        ensures exists i :: 0 <= i < |attrs| && WireKey(attrs[i].0) == k
      {
        if k != WireKey(attrs[n].0) {
          assert k in DictOf(attrs[..n]);
          var i :| 0 <= i < n && WireKey(attrs[..n][i].0) == k;
          assert attrs[..n][i] == attrs[i];
        }
      }
      forall k | exists i :: 0 <= i < |attrs| && WireKey(attrs[i].0) == k
        ensures k in DictOf(attrs)
      {
        var i :| 0 <= i < |attrs| && WireKey(attrs[i].0) == k;
        if i < n {
          assert attrs[..n][i] == attrs[i];
        }
      }
    }
  }

  /** When no two attributes share a wire key, each value is found under its attribute's wire key. */
  lemma {:induction false} DictOfValues(attrs: seq<(string, Scalar)>)
    requires DistinctWireKeys(attrs)
    ensures forall i :: 0 <= i < |attrs| ==>
      WireKey(attrs[i].0) in DictOf(attrs) && DictOf(attrs)[WireKey(attrs[i].0)] == attrs[i].1
  {
    if attrs != [] {
      var n := |attrs| - 1;
      var init := attrs[..n];
      assert DistinctWireKeys(init) by {
        forall i, j | 0 <= i < j < |init|
          ensures WireKey(init[i].0) != WireKey(init[j].0)
        {
          assert init[i] == attrs[i] && init[j] == attrs[j];
        }
      }
      DictOfValues(init);
      forall i | 0 <= i < n
        ensures WireKey(attrs[i].0) in DictOf(attrs) && DictOf(attrs)[WireKey(attrs[i].0)] == attrs[i].1
      {
        assert init[i] == attrs[i];
      }
    }
  }

  /** The wire keys of a record are its field names, with `from_peer` as `from`. */
  lemma EncodeV1Fields(m: MessageV1)
    ensures var d := EncodeV1(m); var attrs := Attributes(m);
      && "from_peer" !in d
      && (forall k :: k in d <==> exists i :: 0 <= i < |attrs| && WireKey(attrs[i].0) == k)
      && forall i :: 0 <= i < |attrs| ==> WireKey(attrs[i].0) in d && d[WireKey(attrs[i].0)] == attrs[i].1
  {
    var attrs := Attributes(m);
    AttributesDistinct(m);
    DictOfKeys(attrs);
    DictOfValues(attrs);
  }

  /** The field names of every record are distinct on the wire. */
  lemma AttributesDistinct(m: MessageV1)
    ensures DistinctWireKeys(Attributes(m))
  {
    var attrs := Attributes(m);
    forall i, j | 0 <= i < j < |attrs|
      ensures WireKey(attrs[i].0) != WireKey(attrs[j].0)
    {
      assert attrs[i].0 == FieldNames(KindOf(m))[i] && attrs[j].0 == FieldNames(KindOf(m))[j];
    }
  }

  // ---------------------------------------------------------------------
  // Decoding

  datatype DecodeErrorV1 =
    | UnknownType(tag: Scalar)                  // `ValueError: Unknown message type`
    | UnexpectedKeywords(keys: set<string>)     // `TypeError: unexpected keyword argument`

  /** `Cls(**data)`: any key outside the class's fields is an error, a missing one takes its default. */
  function Construct(k: Kind, data: Payload, now: string): (r: Result<MessageV1, DecodeErrorV1>)
    ensures r.Ok? <==> forall key :: key in data ==> key in FieldNames(k)
    ensures r.Ok? ==> KindOf(r.value) == k && r.value.tag == Get(data, "type", Null)
  {
    if exists key :: key in data && key !in FieldNames(k) then
      Err(UnexpectedKeywords(set key | key in data && key !in FieldNames(k)))
    else
      var t := Get(data, "type", Null);
      var ts := Get(data, "timestamp", Str(now));
      Ok(match k
        case AuthKind =>
          AuthV1(t, ts, Get(data, "token", Str("")), Get(data, "peer_id", Str("")))
        case AuthResponseKind =>
          AuthResponseV1(t, ts, Get(data, "success", Bool(false)), Get(data, "session_id", Null),
                         Get(data, "paired_peer", Null), Get(data, "error", Null))
        case TextKind =>
          TextV1(t, ts, Get(data, "from_peer", Str("")), Get(data, "content", Str("")),
                 Get(data, "message_id", Str("")))
        case PeerEventKind =>
          PeerEventV1(t, ts, Get(data, "peer_id", Str("")))
        case ErrorKind =>
          ErrorV1(t, ts, Get(data, "code", Str("INTERNAL_ERROR")), Get(data, "message", Str(""))))
  }

  /** The copy made for a `text_message`: `from` popped (default `""`) and stored as `from_peer`. */
  function RenameFrom(data: Payload): (r: Payload)
    ensures "from" !in r && "from_peer" in r && r["from_peer"] == Get(data, "from", Str(""))
    ensures forall key :: key in data && key != "from" && key != "from_peer" ==> key in r && r[key] == data[key]
    ensures r.Keys == data.Keys - {"from"} + {"from_peer"}
  {
    (data - {"from"})["from_peer" := Get(data, "from", Str(""))]
  }

  /** `dict_to_message`; `now` is the time the `timestamp` default factory would read. */
  function DictToMessageV1(data: Payload, now: string): (r: Result<MessageV1, DecodeErrorV1>)
  {
    var msgType := Get(data, "type", Null);
    if msgType == Str("auth") then Construct(AuthKind, data, now)
    else if msgType == Str("auth_response") then Construct(AuthResponseKind, data, now)
    else if msgType == Str("text_message") then Construct(TextKind, RenameFrom(data), now)
    else if msgType in {Str("peer_connected"), Str("peer_disconnected")} then Construct(PeerEventKind, data, now)
    else if msgType == Str("error") then Construct(ErrorKind, data, now)
    else Err(UnknownType(msgType))
  }

  // ---------------------------------------------------------------------
  // Properties

  /**
   * The accepted tags are exactly the `MessageType` literal list: every other
   * `type` (the newer `clipboard_text` and `heartbeat` included) raises
   * `ValueError`, and a decoded record is well tagged, keeping the tag it was
   * given.
   */
  lemma AcceptedTags(data: Payload, now: string)
    ensures DictToMessageV1(data, now).Err? && DictToMessageV1(data, now).error.UnknownType?
      <==> Get(data, "type", Null) !in LiteralTags
    ensures DictToMessageV1(data, now).Err? && DictToMessageV1(data, now).error.UnknownType?
      ==> DictToMessageV1(data, now).error.tag == Get(data, "type", Null)
    ensures DictToMessageV1(data, now).Ok? ==>
      WellTagged(DictToMessageV1(data, now).value) && DictToMessageV1(data, now).value.tag == data["type"]
  {
    var msgType := Get(data, "type", Null);
    if msgType == Str("text_message") {
      assert Get(RenameFrom(data), "type", Null) == msgType;
    }
  }

  /** `peer_connected` and `peer_disconnected` both build a `PeerEventMessage` that keeps its tag. */
  lemma PeerEventsDecode(data: Payload, now: string)
    requires Get(data, "type", Null) in {Str("peer_connected"), Str("peer_disconnected")}
    requires forall key :: key in data ==> key in FieldNames(PeerEventKind)
    ensures DictToMessageV1(data, now) == Ok(PeerEventV1(data["type"], Get(data, "timestamp", Str(now)),
                                                           Get(data, "peer_id", Str(""))))
  {
  }

  /**
   * A `text_message` takes its `from_peer` from the `from` key, or `""` when
   * there is none; a `from_peer` key on the wire is overwritten, not rejected.
   */
  lemma TextFromDecoding(data: Payload, now: string)
    requires Get(data, "type", Null) == Str("text_message")
    ensures DictToMessageV1(data, now).Ok? <==>
      forall key :: key in data ==> key in ["type", "timestamp", "from", "from_peer", "content", "message_id"]
    ensures DictToMessageV1(data, now).Ok? ==> DictToMessageV1(data, now).value.fromPeer == Get(data, "from", Str(""))
  {
    var r := RenameFrom(data);
    if forall key :: key in data ==> key in ["type", "timestamp", "from", "from_peer", "content", "message_id"] {
      forall key | key in r
        ensures key in FieldNames(TextKind)
      {
        if key != "from_peer" {
          assert key in data;
        }
      }
    } else {
      var key :| key in data && key !in ["type", "timestamp", "from", "from_peer", "content", "message_id"];
      assert key in r && key !in FieldNames(TextKind);
    }
  }

  /** The wire dictionary of a record holds only that record's field names (`from` for `from_peer`). */
  lemma EncodedKeysV1(m: MessageV1)
    ensures var d := EncodeV1(m);
      && "type" in d && d["type"] == m.tag
      && (forall key :: key in d ==> key in FieldNames(KindOf(m)) || (key == "from" && KindOf(m) == TextKind))
  {
    EncodeV1Fields(m);
    var attrs := Attributes(m);
    assert attrs[0].0 == "type";
  }

  /** Every tag but `text_message` hands the payload itself to its class. */
  lemma DecodeDispatchV1(data: Payload, now: string, k: Kind)
    requires k != TextKind && Get(data, "type", Null) in TagsOf(k)
    ensures DictToMessageV1(data, now) == Construct(k, data, now)
  {
  }

  lemma RoundTripAuthV1(m: MessageV1, now: string)
    requires m.AuthV1? && WellTagged(m)
    ensures DictToMessageV1(EncodeV1(m), now) == Ok(m)
  {
    var d := EncodeV1(m);
    EncodedAuthV1(m);
    DecodeDispatchV1(d, now, AuthKind);
  }

  /** The wire dictionary of an `AuthMessage`, key by key. */
  lemma EncodedAuthV1(m: MessageV1)
    requires m.AuthV1?
    ensures var d := EncodeV1(m);
      && d.Keys == {"type", "timestamp", "token", "peer_id"}
      && d["type"] == m.tag && d["timestamp"] == m.timestamp && d["token"] == m.token && d["peer_id"] == m.peerId
  {
    var a := Attributes(m);
    DictOfStep(a, 0);
    DictOfStep(a, 1);
    DictOfStep(a, 2);
    DictOfStep(a, 3);
    assert a[..4] == a;
    assert EncodeV1(m) == map["type" := m.tag, "timestamp" := m.timestamp, "token" := m.token, "peer_id" := m.peerId];
  }

  lemma RoundTripAuthResponseV1(m: MessageV1, now: string)
    requires m.AuthResponseV1? && WellTagged(m)
    ensures DictToMessageV1(EncodeV1(m), now) == Ok(m)
  {
    var d := EncodeV1(m);
    EncodedAuthResponseV1(m);
    DecodeDispatchV1(d, now, AuthResponseKind);
  }

  /** The wire dictionary of an `AuthResponseMessage`, key by key. */
  lemma EncodedAuthResponseV1(m: MessageV1)
    requires m.AuthResponseV1?
    ensures var d := EncodeV1(m);
      && d.Keys == {"type", "timestamp", "success", "session_id", "paired_peer", "error"}
      && d["type"] == m.tag && d["timestamp"] == m.timestamp && d["success"] == m.success && d["session_id"] == m.sessionId && d["paired_peer"] == m.pairedPeer && d["error"] == m.error
  {
    AuthResponseDictOf(m);
  }

  lemma AuthResponseDictOf(m: MessageV1)
    requires m.AuthResponseV1?
    ensures EncodeV1(m) == map["type" := m.tag, "timestamp" := m.timestamp, "success" := m.success,
                               "session_id" := m.sessionId, "paired_peer" := m.pairedPeer, "error" := m.error]
  {
    var a := Attributes(m);
    assert DictOf(a[..3]) == map["type" := m.tag, "timestamp" := m.timestamp, "success" := m.success] by {
      DictOfStep(a, 0);
      DictOfStep(a, 1);
      DictOfStep(a, 2);
    }
    DictOfStep(a, 3);
    DictOfStep(a, 4);
    DictOfStep(a, 5);
    assert a[..6] == a;
  }

  /** One more attribute visited by the encoding loop. */
  lemma DictOfStep(a: seq<(string, Scalar)>, n: nat)
    requires n < |a|
    ensures DictOf(a[..n + 1]) == DictOf(a[..n])[WireKey(a[n].0) := a[n].1]
  {
    assert a[..n + 1][..n] == a[..n];
  }

  /** The copy `dict_to_message` makes of an encoded text message holds exactly the class's fields. */
  lemma RenamedTextFields(m: MessageV1)
    requires m.TextV1?
    ensures var r := RenameFrom(EncodeV1(m));
      && (forall key :: key in r ==> key in FieldNames(TextKind))
      && "type" in r && r["type"] == m.tag && "timestamp" in r && r["timestamp"] == m.timestamp
      && r["from_peer"] == m.fromPeer && "content" in r && r["content"] == m.content
      && "message_id" in r && r["message_id"] == m.messageId
  {
    var d := EncodeV1(m);
    EncodeV1Fields(m);
    EncodedKeysV1(m);
    var attrs := Attributes(m);
    assert WireKey(attrs[1].0) == "timestamp" && WireKey(attrs[2].0) == "from"
      && WireKey(attrs[3].0) == "content" && WireKey(attrs[4].0) == "message_id";
    var r := RenameFrom(d);
    forall key | key in r
      ensures key in FieldNames(TextKind)
    {
      if key != "from_peer" {
        assert key in d && key != "from";
      }
    }
  }

  lemma RoundTripTextV1(m: MessageV1, now: string)
    requires m.TextV1? && WellTagged(m)
    ensures DictToMessageV1(EncodeV1(m), now) == Ok(m)
  {
    EncodedKeysV1(m);
    RenamedTextFields(m);
  }

  lemma RoundTripPeerEventV1(m: MessageV1, now: string)
    requires m.PeerEventV1? && WellTagged(m)
    ensures DictToMessageV1(EncodeV1(m), now) == Ok(m)
  {
    var d := EncodeV1(m);
    EncodedPeerEventV1(m);
    DecodeDispatchV1(d, now, PeerEventKind);
  }

  /** The wire dictionary of a `PeerEventMessage`, key by key. */
  lemma EncodedPeerEventV1(m: MessageV1)
    requires m.PeerEventV1?
    ensures var d := EncodeV1(m);
      && d.Keys == {"type", "timestamp", "peer_id"}
      && d["type"] == m.tag && d["timestamp"] == m.timestamp && d["peer_id"] == m.peerId
  {
    var a := Attributes(m);
    DictOfStep(a, 0);
    DictOfStep(a, 1);
    DictOfStep(a, 2);
    assert a[..3] == a;
    assert EncodeV1(m) == map["type" := m.tag, "timestamp" := m.timestamp, "peer_id" := m.peerId];
  }

  lemma RoundTripErrorV1(m: MessageV1, now: string)
    requires m.ErrorV1? && WellTagged(m)
    ensures DictToMessageV1(EncodeV1(m), now) == Ok(m)
  {
    var d := EncodeV1(m);
    EncodedErrorV1(m);
    DecodeDispatchV1(d, now, ErrorKind);
  }

  /** The wire dictionary of an `ErrorMessage`, key by key. */
  lemma EncodedErrorV1(m: MessageV1)
    requires m.ErrorV1?
    ensures var d := EncodeV1(m);
      && d.Keys == {"type", "timestamp", "code", "message"}
      && d["type"] == m.tag && d["timestamp"] == m.timestamp && d["code"] == m.code && d["message"] == m.message
  {
    var a := Attributes(m);
    DictOfStep(a, 0);
    DictOfStep(a, 1);
    DictOfStep(a, 2);
    DictOfStep(a, 3);
    assert a[..4] == a;
    assert EncodeV1(m) == map["type" := m.tag, "timestamp" := m.timestamp, "code" := m.code, "message" := m.message];
  }

  /**
   * `dict_to_message(message_to_dict(m)) == m` holds exactly for the records
   * whose `type` is one their class declares, whatever the current time.
   */
  lemma RoundTripV1(m: MessageV1, now: string)
    ensures DictToMessageV1(EncodeV1(m), now) == Ok(m) <==> WellTagged(m)
  {
    EncodedKeysV1(m);
    AcceptedTags(EncodeV1(m), now);
    if WellTagged(m) {
      match m
      case AuthV1(_, _, _, _) => RoundTripAuthV1(m, now);
      case AuthResponseV1(_, _, _, _, _, _) => RoundTripAuthResponseV1(m, now);
      case TextV1(_, _, _, _, _) => RoundTripTextV1(m, now);
      case PeerEventV1(_, _, _) => RoundTripPeerEventV1(m, now);
      case ErrorV1(_, _, _, _) => RoundTripErrorV1(m, now);
    }
  }
}
