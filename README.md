# wsclip client core in Dafny

wsclip keeps the clipboards of two paired machines in sync through a
WebSocket relay. This project models the client side of both generations
of the program. The current client lives under `apps/client/src/wsclip/`
and the older one under `src/wsclip/`. The modelled parts are:

- **Wire messages** (`messages.dfy`, `messages_v1.dfy`). A message record
  becomes a flat map from string keys to scalars, and a map decodes back
  into a record. `from_peer` travels as `"from"`, absent fields take their
  defaults and an unknown `type` is an error. Round-trip theorems state the
  exact side conditions under which decoding undoes encoding.
- **Reconnection backoff** (`backoff.dfy`). `ReconnectionStrategy` is a
  class with two counters. Its delay doubles up to a cap. Its retry loop
  takes each `connect` outcome from an input function. The loop is proved
  equal to a recursive specification, and that specification is proved to
  make exactly `max_attempts + 1` calls when every attempt fails.
- **Clipboard echo gate** (`clipboard.dfy`). `ClipboardService` keeps
  the last polled content and the last content received from the peer, in
  mutable fields. The gate has three parts:
  - a one-shot echo suppressor;
  - a size limit on the UTF-8 byte length;
  - a "no change since the last poll" filter.

  The polling loop is proved against a functional `Monitor`.
- **Session** (`session.dfy`, `session_v1.dfy`). `WebSocketService` (current)
  and `WebSocketClient` (older) are classes over a modelled transport:
  - the transport is `NoSocket | Open | Dropped`;
  - frames arrive from an input sequence;
  - sent maps go to an `outbox` sequence.

  The modelled operations are the auth handshake, `disconnect`, send gating,
  the handler registry, dispatch and the receive loops, plus the URL and
  port derivation (`url.dfy`). `url.dfy` follows what `urlparse` does to
  the worker URL (its `urlsplit` step as of Python 3.11.4), and the
  `hostname` and `port` properties. Leading C0 controls and spaces are
  stripped and every tab, CR and LF is removed before the split. Three
  parts are not modelled: the `ipaddress` check of a bracketed host, the
  NFKC check of a non-ASCII netloc (`_checknetloc`), and Unicode
  lower-casing (see "Left out").
- **Sync orchestration** (`sync.dfy`). `SyncManager` owns a session and a
  clipboard service. It chooses between a direct connect and the retry
  loop, and starts auto or manual mode. It writes received clipboard text
  and sends in manual mode without the gate. It stops the trigger source
  before disconnecting.
- **Configuration** (`config.dfy`, `config_v1.dfy`).
  - The current JSON configuration is loaded from and saved to a nested map
    (`json.dfy`), and the round trip is exact. The `api_url` rewrite is
    also modelled.
  - The older YAML configuration has a deliberately lossy round trip: proxy
    credentials are not written back.
- **Terminal interface helpers** (`tui.dfy`). This covers `format_hotkey`,
  the displayed token, the status line, the 100-entry log buffer, and the
  `TUIManager` fields that `add_log`, `update_status` and `stop` change.

`strings.dfy` holds the Python string operations the model needs:
`str.replace`, `rstrip`, `str(int)` and the UTF-8 length (section 3 of
RFC 3629). `wrappers.dfy` holds `Option` and `Result`.

Clocks, `uuid4`, the OS clipboard's write success and the transport's
replies are parameters of the operations that use them.

## Model

| member | source | states |
|---|---|---|
| Messages.MessageToDict | apps/client/src/wsclip/models/messages.py:116-124 | the encoded map has the record's fields under their own names and values, except `from_peer`, which appears only as `"from"` with the same value |
| Messages.ParseType | apps/client/src/wsclip/models/messages.py:12-22 | a tag is recognised iff it is one of the eight `MessageType` values, and the recognised type prints back as that tag |
| Messages.ParseTypeOfTag | apps/client/src/wsclip/models/messages.py:12-22 | every message type's tag is recognised as that type |
| Messages.DictToMessage | apps/client/src/wsclip/models/messages.py:127-184 | decoding succeeds iff `type` is present and one of the eight tags; on success the record's type is that tag; otherwise the error carries the offending `type`, and no default message is returned |
| Messages.AbsentFieldsDefault | apps/client/src/wsclip/models/messages.py:130-171 | every field whose wire key is missing from the map decodes to the default message's value for that field |
| Messages.TagOnlyDecodesToDefault | apps/client/src/wsclip/models/messages.py:130-171 | a map holding only `type` decodes to the default record of that type (`""` strings, `False` success, manual source, internal-error code) |
| Messages.AuthResponseOptionals | apps/client/src/wsclip/models/messages.py:141-143 | in `auth_response`, an absent, `null` or empty `session_id`/`paired_peer`/`error` decodes to `None`, and a non-empty string decodes to itself |
| Messages.ClipboardSourceDecoding | apps/client/src/wsclip/models/messages.py:154-155 | `clipboard_text.source` decodes to MANUAL iff it is absent or `"manual"`, and to AUTO for any other value |
| Messages.ErrorCodeDecoding | apps/client/src/wsclip/models/messages.py:173-182 | each named error code decodes from exactly its own string; anything else, or no code, decodes to INTERNAL_ERROR |
| Messages.EncodedHeader | apps/client/src/wsclip/models/messages.py:116-124 | the encoded map carries the record's tag under `type` and its timestamp, and the tag parses back to the record's type |
| Messages.RoundTripAuth | apps/client/src/wsclip/models/messages.py:116-135 | decoding an encoded `auth` record gives it back |
| Messages.RoundTripAuthResponse | apps/client/src/wsclip/models/messages.py:116-146 | an encoded `auth_response` always decodes, and gives the record back iff its optional strings are `None` or non-empty |
| Messages.RoundTripText | apps/client/src/wsclip/models/messages.py:116-151 | decoding an encoded `text_message` gives it back, `"from"` included |
| Messages.RoundTripClipboardText | apps/client/src/wsclip/models/messages.py:116-160 | decoding an encoded `clipboard_text` gives it back, source included |
| Messages.RoundTripPeerEvent | apps/client/src/wsclip/models/messages.py:163-169 | both peer events decode back to the same record and keep their tag |
| Messages.RoundTripHeartbeat | apps/client/src/wsclip/models/messages.py:116-171 | decoding an encoded heartbeat gives it back |
| Messages.RoundTripError | apps/client/src/wsclip/models/messages.py:116-182 | decoding an encoded error message gives it back, code included |
| Messages.RoundTrip | apps/client/src/wsclip/models/messages.py:116-184 | every encoded message decodes; the round trip is the identity iff the `auth_response` optional strings are `None` or non-empty |
| MessagesV1.Attributes | src/wsclip/models/message.py:76-85 | the attribute list of a record names exactly that kind's dataclass fields, in declaration order |
| MessagesV1.MessageToDictV1 | src/wsclip/models/message.py:76-85 | the loop that fills the dictionary attribute by attribute, renaming `from_peer`, builds exactly the specified encoding |
| MessagesV1.EncodeV1Fields | src/wsclip/models/message.py:76-85 | the encoded keys are exactly the attribute names with `from_peer` renamed to `"from"`, and each key holds its attribute's value |
| MessagesV1.EncodedKeysV1 | src/wsclip/models/message.py:76-85 | the encoding carries the record's tag under `type`, and every other key is a field of the kind or the renamed `"from"` |
| MessagesV1.Construct | src/wsclip/models/message.py:91-104 | building a record from keywords succeeds iff every key is a field of the dataclass; the result has that kind and the map's `type` |
| MessagesV1.RenameFrom | src/wsclip/models/message.py:96-100 | `"from"` is replaced by `from_peer`, which defaults to `""`; every other key is kept |
| MessagesV1.DictToMessageV1 | src/wsclip/models/message.py:88-106 | dispatch on `type` to the dataclass of that kind, with `from` renamed for text messages; any other tag is an error (properties in the rows below) |
| MessagesV1.AcceptedTags | src/wsclip/models/message.py:9-16 | decoding fails with an unknown-type error iff the tag is outside the `MessageType` literal list; accepted records keep their tag |
| MessagesV1.PeerEventsDecode | src/wsclip/models/message.py:101-102 | `peer_connected` and `peer_disconnected` both decode to a peer event with the map's tag and fields |
| MessagesV1.TextFromDecoding | src/wsclip/models/message.py:96-100 | a `text_message` decodes iff its keys are fields or `"from"`, and its `from_peer` is the map's `"from"` or `""` |
| MessagesV1.RenamedTextFields | src/wsclip/models/message.py:96-100 | renaming `"from"` back in an encoded text message restores every field of the record |
| MessagesV1.RoundTripAuthV1 | src/wsclip/models/message.py:76-104 | a well-tagged `auth` record survives encode then decode |
| MessagesV1.RoundTripAuthResponseV1 | src/wsclip/models/message.py:76-104 | a well-tagged `auth_response` record survives encode then decode |
| MessagesV1.RoundTripTextV1 | src/wsclip/models/message.py:76-104 | a well-tagged text message survives encode then decode |
| MessagesV1.RoundTripPeerEventV1 | src/wsclip/models/message.py:76-104 | a well-tagged peer event survives encode then decode |
| MessagesV1.RoundTripErrorV1 | src/wsclip/models/message.py:76-104 | a well-tagged error record survives encode then decode |
| MessagesV1.RoundTripV1 | src/wsclip/models/message.py:76-106 | encode then decode is the identity iff the record's tag is one its kind accepts |
| Backoff.Schedule | apps/client/src/wsclip/core/connection.py:108-117 | the sleeps of n failed attempts are the first n delays of the doubling sequence |
| Backoff.RetryFrom | apps/client/src/wsclip/core/connection.py:92-117 | from attempt i, the loop ends after more than i and at most `max_attempts + 1` calls |
| Backoff.ReconnectionStrategy.constructor | apps/client/src/wsclip/core/connection.py:15-46 | a new strategy keeps its three parameters and starts at attempt 0 with the initial delay |
| Backoff.ReconnectionStrategy.Reset | apps/client/src/wsclip/core/connection.py:48-55 | the count returns to 0 and the delay to `initial_delay` |
| Backoff.ReconnectionStrategy.GetNextDelay | apps/client/src/wsclip/core/connection.py:57-77 | once the count reaches `max_attempts` it returns -1 and changes nothing; otherwise it returns the pre-call delay (the k-th term of the doubling sequence), doubles the delay up to `max_delay` and counts the attempt |
| Backoff.ReconnectionStrategy.ConnectWithRetry | apps/client/src/wsclip/core/connection.py:79-117 | the loop's result and call count equal the retry specification; it sleeps the first calls-1 delays; a success leaves the strategy reset |
| Backoff.Delay | apps/client/src/wsclip/core/connection.py:67-73 | the delay handed out after k earlier ones since a reset; every delay after the first is at most `max_delay` (bounds and monotonicity in the rows below) |
| Backoff.DelayBound | apps/client/src/wsclip/core/connection.py:69 | no delay exceeds `max(initial_delay, max_delay)`, and every delay after the first is at most `max_delay` |
| Backoff.DelayMonotone | apps/client/src/wsclip/core/connection.py:69 | with `0 <= initial_delay <= max_delay`, successive delays never decrease and never pass `max_delay` |
| Backoff.DelayStaysCapped | apps/client/src/wsclip/core/connection.py:69 | once a delay reaches `max_delay`, every later delay equals it |
| Backoff.DefaultSchedule | src/wsclip/core/reconnect_strategy.py:14-19 | with the defaults 1.0, 30.0 and 10, the delays are 1, 2, 4, 8, 16 and then 30 forever |
| Backoff.Retry | apps/client/src/wsclip/core/connection.py:92-117 | a fresh `connect_with_retry` makes at least one and at most `max_attempts + 1` calls of `connect` (its outcome in the next row) |
| Backoff.RetryOutcome | apps/client/src/wsclip/core/connection.py:92-117 | retry connects iff one of the first `max_attempts + 1` attempts succeeds; it then stops at the first success; when all fail it makes exactly `max_attempts + 1` calls |
| Backoff.RaisedIsFailure | apps/client/src/wsclip/core/connection.py:105-106 | an attempt that raises counts exactly like one that returns False |
| Backoff.OlderDefaultsAllFail | src/wsclip/core/reconnect_strategy.py:61-101 | with the older defaults and every attempt failing, retry gives up after 11 calls, sleeping 1, 2, 4, 8, 16 and five times 30 seconds |
| Clipboard.ReadClipboard | apps/client/src/wsclip/services/clipboard.py:48-60 | an empty clipboard reads as `None`, any other content as itself |
| Clipboard.ClipboardService.constructor | apps/client/src/wsclip/services/clipboard.py:18-46 | a new service is not monitoring and has no baseline and no echo marker |
| Clipboard.ClipboardService.Get | apps/client/src/wsclip/services/clipboard.py:48-60 | `get` returns the clipboard read as above |
| Clipboard.ClipboardService.Set | apps/client/src/wsclip/services/clipboard.py:62-79 | a successful write stores the text and marks it as received; a failed one returns False and changes nothing |
| Clipboard.ClipboardService.ShouldIgnoreChange | apps/client/src/wsclip/services/clipboard.py:81-107 | the answer and the new echo marker are those of the gate specification; the baseline is never changed |
| Clipboard.ClipboardService.StartMonitoring | apps/client/src/wsclip/services/clipboard.py:109-130 | already monitoring: nothing changes; otherwise it starts monitoring with the current clipboard as baseline |
| Clipboard.ClipboardService.StopMonitoring | apps/client/src/wsclip/services/clipboard.py:132-143 | monitoring stops and the task handle is cleared |
| Clipboard.ClipboardService.PollOnce | apps/client/src/wsclip/services/clipboard.py:156-168 | one poll updates the gate state and reports exactly as the poll specification |
| Clipboard.ClipboardService.MonitorLoop | apps/client/src/wsclip/services/clipboard.py:145-178 | the loop over the sampled clipboard reports exactly the specification's reports, and none when not monitoring |
| Clipboard.Gate | apps/client/src/wsclip/services/clipboard.py:81-107 | the echo marker changes only when the echo is suppressed, and is then cleared; content passes only when it is within the size limit and differs from the baseline |
| Clipboard.Monitor | apps/client/src/wsclip/services/clipboard.py:145-178 | the monitor reports at most one change per poll (what it reports in `MonitorReports`) |
| Clipboard.EchoOneShot | apps/client/src/wsclip/services/clipboard.py:92-95 | the received text is suppressed once and the marker cleared; the next check of the same text goes through the other filters |
| Clipboard.EmptyMarkerNeverSuppresses | apps/client/src/wsclip/services/clipboard.py:92-107 | with no or an empty marker, content is ignored iff it is too large or equal to the baseline |
| Clipboard.SizeGatePersistent | apps/client/src/wsclip/services/clipboard.py:98-105 | oversized content that is not the echo is ignored with no state change, on every call |
| Clipboard.UnchangedContentFilter | apps/client/src/wsclip/services/clipboard.py:107 | a small non-echo sample is ignored iff it equals the baseline; a reported one becomes the baseline, so it is not reported again |
| Clipboard.MonitorReports | apps/client/src/wsclip/services/clipboard.py:162-168 | every report is a non-empty sample different from the previous baseline, and the last report is the new baseline |
| Clipboard.EchoReturnsOnSecondPoll | apps/client/src/wsclip/services/clipboard.py:92-95 | as written, received text polled twice is reported on the second poll (finding) |
| Clipboard.GuardedNeverEchoes | apps/client/src/wsclip/services/clipboard.py:162-168 | with the baseline moved on suppression, received text polled any number of times is never reported |
| Strings.CharUtf8Length | apps/client/src/wsclip/services/clipboard.py:98 | a code point takes one to four bytes in UTF-8 |
| Strings.Utf8LengthAppend | apps/client/src/wsclip/services/websocket.py:266 | the UTF-8 length of a concatenation is the sum of the lengths |
| Strings.Utf8LengthBounds | apps/client/src/wsclip/services/websocket.py:266 | a string's UTF-8 length lies between its length and four times it |
| Strings.RStripSpec | apps/client/src/wsclip/models/config.py:34 | `rstrip('/')` removes exactly the trailing run of `/` |
| Strings.DigitsRoundTrip | apps/client/src/wsclip/services/websocket.py:133-135 | `str(n)` of a natural number is non-empty decimal digits that spell `n` back |
| Strings.ReplaceAbsent | apps/client/src/wsclip/models/config.py:34 | `replace` of an absent pattern leaves the string unchanged |
| Strings.ReplaceLeavesNoPattern | apps/client/src/wsclip/models/config.py:34 | after `replace`, no occurrence of the pattern is left when the replacement cannot form a new one |
| Url.IndexOf | apps/client/src/wsclip/services/websocket.py:105 | the first position of a character, or `None` iff it is absent |
| Url.LastIndexOf | apps/client/src/wsclip/services/websocket.py:105 | the last position of a character, or `None` iff it is absent |
| Url.Lower | apps/client/src/wsclip/services/websocket.py:106 | lower-casing maps each ASCII letter to its lower case, keeps every other character and keeps the length |
| Url.Hostname | apps/client/src/wsclip/services/websocket.py:106 | `hostname` is `None` iff the raw host is empty; otherwise it is non-empty, as long as the raw host, and, when there is no `%` zone, the lower-cased raw host |
| Url.Port | apps/client/src/wsclip/services/websocket.py:107 | a parsed port lies in 0..65535 |
| Url.DestEndpoint | apps/client/src/wsclip/services/websocket.py:105-112 | read after the leading strip and the tab/CR/LF removal: there is a destination iff the URL splits, its port parses and it has a host; the host is non-empty; the port is the explicit non-zero one, else 443 for `wss` and 80 otherwise; a netloc that Python's bracketed-address or NFKC check rejects still has a destination here |
| Url.DestEndpointHost | apps/client/src/wsclip/services/websocket.py:105-112 | the destination host is the worker URL's `hostname`; connecting fails with "hostname not found" exactly when the URL splits and its port parses but the host is empty |
| Url.Split | apps/client/src/wsclip/services/websocket.py:105 | `urlparse` reduced to the scheme and netloc: the sanitized URL's lower-cased scheme before a valid scheme colon, and the netloc after `//` up to `/`, `?` or `#`; unbalanced brackets are an error; the bracketed-address and NFKC netloc checks are not modelled (properties in the rows below) |
| Url.SplitNetloc | apps/client/src/wsclip/services/websocket.py:105 | a split netloc holds no `/`, `?` or `#` and no tab, CR or LF |
| Url.LStripC0 | apps/client/src/wsclip/services/websocket.py:105 | the stripped URL is a suffix of the input; everything dropped is a C0 control or space, and the rest does not start with one |
| Url.RemoveUnsafeAppend | apps/client/src/wsclip/services/websocket.py:105 | removing tab, CR and LF distributes over concatenation |
| Url.RemoveUnsafeNone | apps/client/src/wsclip/services/websocket.py:105 | a string without tab, CR or LF is unchanged by the removal |
| Url.RemoveUnsafeLeavesNone | apps/client/src/wsclip/services/websocket.py:105 | no tab, CR or LF is left after the removal |
| Url.SanitizeClean | apps/client/src/wsclip/services/websocket.py:105 | a URL that starts with a visible character and holds no tab, CR or LF is split exactly as written |
| Url.LeadingC0Ignored | apps/client/src/wsclip/services/websocket.py:105 | a leading C0 control or space changes neither the split nor the destination |
| Url.UnsafeIgnored | apps/client/src/wsclip/services/websocket.py:105 | a tab, CR or LF anywhere after the first visible character changes neither the split nor the destination |
| Url.ConnectUrl | apps/client/src/wsclip/services/websocket.py:99 | the connect URL: the worker URL, `/ws?token=`, the token, `&peer_id=` and the peer id (properties in the two rows below) |
| Url.ConnectUrlInjective | apps/client/src/wsclip/services/websocket.py:99 | the connect URL determines the token and peer id when the token holds no `&` |
| Url.QueryTail | apps/client/src/wsclip/services/websocket.py:99 | the connect URL is the worker URL, `/ws?token=`, the token, `&peer_id=` and the peer id |
| Url.ProxyUrl | apps/client/src/wsclip/services/websocket.py:132-135 | `socks5://`, then `user:pass@` when both credentials are non-empty, then `host:port` (properties in the two rows below) |
| Url.ProxyUrlRoundTrip | apps/client/src/wsclip/services/websocket.py:132-135 | for a non-empty host in lower case without `@`, `:`, `%`, `/`, `?`, `#`, brackets, tab, CR or LF, and credentials without `/`, `?`, `#`, brackets, tab, CR or LF, the proxy URL parses back to scheme `socks5` with the proxy's host and port, and embeds `user:pass@` iff both credentials are non-empty |
| Url.ProxySplit | apps/client/src/wsclip/services/websocket.py:132-135 | the proxy URL splits into `socks5` and the credentials followed by `host:port` |
| Config.Section | apps/client/src/wsclip/models/config.py:108-151 | a missing section reads as empty, a present one must be an object |
| Config.GetStr | apps/client/src/wsclip/models/config.py:108-151 | a missing key gives its default; a present one must be a string and is taken as is |
| Config.GetBool | apps/client/src/wsclip/models/config.py:108-151 | a missing key gives its default; a present one must be a boolean and is taken as is |
| Config.GetInt | apps/client/src/wsclip/models/config.py:108-151 | a missing key gives its default; a present one must be an integer and is taken as is |
| Config.GetReal | apps/client/src/wsclip/models/config.py:108-151 | a missing key gives its default; a present one must be a number and is taken as is |
| Config.GetOptionalStr | apps/client/src/wsclip/models/config.py:144-146 | a missing or `null` credential is `None`, a string is itself |
| Config.ParseSyncMode | apps/client/src/wsclip/models/config.py:125-127 | only `"auto"` and `"manual"` load, each as its own mode; anything else is rejected |
| Config.FromDict | apps/client/src/wsclip/models/config.py:98-158 | only a JSON object loads; the four sections are read in order and the first error is returned |
| Config.FromJson | apps/client/src/wsclip/models/config.py:81-158 | a missing file fails with file-not-found and unparsable text with a JSON error; anything else loads through the map-level reader |
| Config.LoadErrors | apps/client/src/wsclip/models/config.py:98-158 | reading a parsed map never fails with a file or JSON error |
| Config.EmptyObjectLoadsDefaults | apps/client/src/wsclip/models/config.py:108-151 | an empty object loads as the all-defaults configuration |
| Config.MissingSectionsDefault | apps/client/src/wsclip/models/config.py:108-151 | each missing section loads as its default section |
| Config.MissingProxyFieldsDefault | apps/client/src/wsclip/models/config.py:136-147 | each missing proxy field takes its default, and an absent username or password is `None` |
| Config.LoadedModeIsValid | apps/client/src/wsclip/models/config.py:125-127 | a loaded sync mode is the one the file names |
| Config.InvalidModeRejected | apps/client/src/wsclip/models/config.py:125-127 | a mode string other than `"auto"` or `"manual"` makes loading fail |
| Config.ToDict | apps/client/src/wsclip/models/config.py:160-188 | the saved object has exactly the sections `connection`, `clipboard`, `proxy` and `logging` |
| Config.ConnectionRoundTrip | apps/client/src/wsclip/models/config.py:108-120 | the connection section written by `to_dict` reads back unchanged |
| Config.ClipboardRoundTrip | apps/client/src/wsclip/models/config.py:123-133 | the clipboard section written by `to_dict` reads back unchanged |
| Config.ProxyRoundTrip | apps/client/src/wsclip/models/config.py:135-147 | the proxy section written by `to_dict` reads back unchanged, credentials included |
| Config.RoundTrip | apps/client/src/wsclip/models/config.py:107-188 | building a configuration from `to_dict(c)` gives `c` |
| Config.SaveThenLoad | apps/client/src/wsclip/models/config.py:190-205 | loading what `save` wrote gives the configuration back |
| Config.ApiUrl | apps/client/src/wsclip/models/config.py:33-34 | the three rewrites in source order: trailing `/` stripped, `wss://` to `https://`, every `/ws` deleted (properties in the rows below) |
| Config.SchemeRewritten | apps/client/src/wsclip/models/config.py:33-34 | after the scheme rewrite no `wss://` is left |
| Config.ApiUrlCutsHost | apps/client/src/wsclip/models/config.py:33-34 | as written, `wss://ws<t>/ws` becomes `https:/<t>`: the host's leading `ws` and a slash are deleted (finding) |
| Config.IntendedApiUrlKeepsHost | apps/client/src/wsclip/models/config.py:33-34 | with only a trailing `/ws` removed, `wss://<host>/ws` becomes `https://<host>` |
| ConfigV1.FieldStr | src/wsclip/models/config.py:54-60 | a missing key gives its default; a present one must be a string |
| ConfigV1.FieldBool | src/wsclip/models/config.py:13-16 | a missing proxy flag gives its default; a present one must be a boolean |
| ConfigV1.FieldInt | src/wsclip/models/config.py:13-16 | a missing proxy port gives its default; a present one must be an integer |
| ConfigV1.FieldOptionalStr | src/wsclip/models/config.py:17-18 | a missing or `null` credential is `None`, a string is itself |
| ConfigV1.ProxyFromFields | src/wsclip/models/config.py:51-52 | a proxy key that `ProxyConfig` does not declare is rejected |
| ConfigV1.LoadProxy | src/wsclip/models/config.py:51-52 | an absent, `null` or empty proxy section loads as the default proxy; a non-mapping one is rejected |
| ConfigV1.FromMapping | src/wsclip/models/config.py:50-60 | only a mapping loads, and a loaded configuration always has a proxy |
| ConfigV1.FromYaml | src/wsclip/models/config.py:40-60 | a missing path fails with file-not-found and only then; a loaded configuration always has a proxy |
| ConfigV1.EmptyMappingDefaults | src/wsclip/models/config.py:51-60 | an empty mapping loads as `''` URL, peer id and token, `INFO` and the default proxy |
| ConfigV1.FalsyProxyDefaults | src/wsclip/models/config.py:51-52 | a present but empty or `null` proxy section also loads as the default proxy |
| ConfigV1.UnknownProxyKeyRejected | src/wsclip/models/config.py:51-52 | an undeclared proxy key makes loading fail |
| ConfigV1.ToYaml | src/wsclip/models/config.py:62-74 | the saved mapping has exactly `worker_url`, `peer_id`, `token`, `log_level` and `proxy`, and `proxy` is `null` iff there is no proxy |
| ConfigV1.CredentialsNotPersisted | src/wsclip/models/config.py:69-74 | the saved proxy mapping has exactly `enabled`, `host`, `port` and `type` |
| ConfigV1.ProxyRoundTripV1 | src/wsclip/models/config.py:51-74 | the four saved proxy fields load back as the proxy without credentials |
| ConfigV1.LossyRoundTrip | src/wsclip/models/config.py:51-74 | loading what `to_yaml` wrote gives the configuration without proxy credentials, with a missing proxy replaced by the default; it is exact iff there is a proxy without credentials |
| Session.Receive | apps/client/src/wsclip/services/websocket.py:394-414 | a closed connection is an error, malformed JSON is skipped as `None`, and a map yields a message iff it decodes |
| Session.AcceptsIff | apps/client/src/wsclip/services/websocket.py:167-192 | the handshake succeeds iff the reply is an `auth_response` map whose `success` is truthy |
| Session.PlanDial | apps/client/src/wsclip/services/websocket.py:97-135 | a connect plan exists iff the worker URL has a destination; it uses the connect URL, that destination, and a proxy URL iff a proxy is configured and enabled; that proxy URL is the one built from the proxy's host, port and credentials |
| Session.PlannedProxy | apps/client/src/wsclip/services/websocket.py:120-135 | for plain proxy settings the planned proxy URL parses back to scheme `socks5` with the proxy's host and port, and carries credentials iff both are non-empty |
| Session.WebSocketService.constructor | apps/client/src/wsclip/services/websocket.py:41-88 | a new service has no socket, is unauthenticated and unpaired, has no session, no handlers, is not running and has sent nothing |
| Session.WebSocketService.IsConnected | apps/client/src/wsclip/services/websocket.py:381-383 | under the class invariant (authenticated only on a socket), connected iff authenticated |
| Session.WebSocketService.SendMessage | apps/client/src/wsclip/services/websocket.py:385-392 | a message is sent, as its encoded map, iff the socket is open; with no socket it fails as not connected |
| Session.WebSocketService.Connect | apps/client/src/wsclip/services/websocket.py:90-201 | no destination or a failed open sends nothing; otherwise the auth message is sent; it returns True iff the reply is an accepting `auth_response`, and then sets `authenticated`, `session_id` and `paired_peer` from the reply; otherwise those are unchanged |
| Session.WebSocketService.Authenticate | apps/client/src/wsclip/services/websocket.py:158-191 | the auth message (token, peer id) is appended to the outbox; the result is True iff the reply decodes to an `auth_response` with `success` true, and then `authenticated`, `session_id` and `paired_peer` come from that reply; a closed reply drops the socket; otherwise the authentication state is unchanged |
| Session.WebSocketService.Disconnect | apps/client/src/wsclip/services/websocket.py:203-250 | the loop and heartbeat stop, the socket is dropped, `authenticated` is False and `paired_peer` is `None`; `session_id` is kept |
| Session.WebSocketService.SendClipboard | apps/client/src/wsclip/services/websocket.py:252-290 | nothing is sent when unauthenticated or over `MAX_MESSAGE_SIZE` UTF-8 bytes; otherwise exactly one `clipboard_text` from this peer with the content and source |
| Session.WebSocketService.RegisterHandler | apps/client/src/wsclip/services/websocket.py:371-379 | the handler for the type replaces any earlier one |
| Session.WebSocketService.HandleMessage | apps/client/src/wsclip/services/websocket.py:416-444 | the handler run and the new `paired_peer` are those of the dispatch specification |
| Session.WebSocketService.ReceiveLoop | apps/client/src/wsclip/services/websocket.py:311-369 | unauthenticated: nothing happens; otherwise the frames consumed, the messages dispatched and the final state are those of the listen specification, and the loop stops only where that one does |
| Session.Dispatch | apps/client/src/wsclip/services/websocket.py:416-434 | `_handle_message`: the registered handler for the message's type, or the built-in peer-event branch (properties in the next row) |
| Session.DispatchExclusive | apps/client/src/wsclip/services/websocket.py:416-434 | a registered handler runs exclusively and the pairing is untouched; otherwise peer events set or clear `paired_peer` |
| Session.LaterRegistrationWins | apps/client/src/wsclip/services/websocket.py:379 | after two registrations for one type, the later handler is the one dispatched |
| Session.StoppedStays | apps/client/src/wsclip/services/websocket.py:329 | once the receive loop has stopped, later frames change nothing |
| Session.MalformedSkipped | apps/client/src/wsclip/services/websocket.py:412-414 | a malformed frame on an open socket changes nothing |
| Session.UnknownTypeEndsLoop | apps/client/src/wsclip/services/websocket.py:358-363 | a map with an unknown `type` ends the receive loop |
| Session.DispatchedRegistered | apps/client/src/wsclip/services/websocket.py:419-421 | every dispatched message went to the handler registered for its type |
| Session.ClipboardFrame | apps/client/src/wsclip/services/websocket.py:279-286 | the sent clipboard map has exactly the six wire keys, `from` is this peer, and the content and source are the given ones |
| SessionV1.ReceiveV1 | src/wsclip/core/websocket_client.py:219-235 | a closed connection is an error, malformed JSON is `None`, and a map yields a message iff it decodes |
| SessionV1.AcceptsV1Iff | src/wsclip/core/websocket_client.py:103-124 | the older handshake succeeds iff the reply is an `auth_response` with only known fields and a truthy `success` |
| SessionV1.DroppedStaysDropped | src/wsclip/core/websocket_client.py:191-199 | once the socket is dropped, a listen pass dispatches nothing and ends at its first frame |
| SessionV1.ListenKeepsSocket | src/wsclip/core/websocket_client.py:173-199 | the older listen loop never clears the socket |
| SessionV1.WebSocketClient.constructor | src/wsclip/core/websocket_client.py:36-73 | a new client is disconnected and unpaired, and has a strategy with the defaults iff reconnection is enabled |
| SessionV1.WebSocketClient.SendMessage | src/wsclip/core/websocket_client.py:211-217 | a message is sent iff the socket is open |
| SessionV1.WebSocketClient.Connect | src/wsclip/core/websocket_client.py:75-133 | it dials the worker URL followed by `/ws?token=`, the token, `&peer_id=` and the peer id; after a successful open the auth record is sent; it returns True iff the reply is an accepting `auth_response`, and then sets `authenticated`, `session_id` and `paired_peer`; otherwise those are unchanged |
| SessionV1.WebSocketClient.Disconnect | src/wsclip/core/websocket_client.py:135-150 | the loop stops, the socket is dropped and `authenticated` is False; `paired_peer` is kept |
| SessionV1.WebSocketClient.SendText | src/wsclip/core/websocket_client.py:152-171 | nothing is sent when unauthenticated; otherwise exactly one `text_message` from this peer |
| SessionV1.WebSocketClient.SendClipboard | src/wsclip/core/websocket_client.py:280-301 | nothing is sent when unauthenticated; otherwise exactly one clipboard message, with no size limit |
| SessionV1.WebSocketClient.RegisterHandler | src/wsclip/core/websocket_client.py:201-209 | the handler for the type replaces any earlier one |
| SessionV1.WebSocketClient.HandleMessage | src/wsclip/core/websocket_client.py:237-266 | a registered handler runs exclusively; otherwise `peer_connected` sets and every other peer event clears `paired_peer` |
| SessionV1.WebSocketClient.Listen | src/wsclip/core/websocket_client.py:173-199 | the frames consumed, messages dispatched and the final state are those of the older listen specification; `running` is not cleared |
| SessionV1.WebSocketClient.ConnectWithRetry | src/wsclip/core/websocket_client.py:268-278 | without reconnection it is one `connect`; with it, the result and call count equal the retry specification under the defaults |
| SessionV1.WebSocketClient.MaintainConnection | src/wsclip/core/websocket_client.py:303-327 | as written, no pass after the first reconnects, and a dropped socket stays dropped (finding) |
| SessionV1.WebSocketClient.MaintainConnectionReconnecting | src/wsclip/core/websocket_client.py:303-327 | with the guard also checking the socket, a pass reconnects exactly when the previous pass left the socket dropped |
| Sync.SyncManager.constructor | apps/client/src/wsclip/core/sync_manager.py:22-70 | the session is built from the connection settings and proxy, the clipboard limit is `max_size_mb` MiB, and the `clipboard_text` handler is registered |
| Sync.SyncManager.ConnectWithRetry | apps/client/src/wsclip/core/sync_manager.py:129-149 | reconnect disabled: one direct connect; enabled: the retry specification with the configured `max_attempts`; success leaves the session connected |
| Sync.SyncManager.Start | apps/client/src/wsclip/core/sync_manager.py:86-127 | an explicit mode overwrites the configured one; a failed connect starts neither mode; otherwise auto starts monitoring and manual starts the hotkeys |
| Sync.SyncManager.StartTrigger | apps/client/src/wsclip/core/sync_manager.py:121-127 | auto mode starts the clipboard monitor and leaves the hotkeys alone; manual mode starts the hotkey listener and leaves the monitor and its baseline alone; the configuration and the clipboard text are unchanged |
| Sync.SyncManager.AutoPoll | apps/client/src/wsclip/core/sync_manager.py:174-194 | each change the monitor reports is sent with source AUTO, through the session's gating |
| Sync.SyncManager.SendCurrentClipboard | apps/client/src/wsclip/core/sync_manager.py:205-211 | an empty clipboard sends nothing; otherwise the content is sent with source MANUAL and the gate state is not consulted or changed |
| Sync.SyncManager.OnClipboardReceived | apps/client/src/wsclip/core/sync_manager.py:227-245 | only clipboard text is written, through `set`; anything else changes nothing |
| Sync.SyncManager.ReceiveAndApply | apps/client/src/wsclip/core/sync_manager.py:235-239 | every dispatched message is clipboard text for the registered handler, and the clipboard ends with the last text whose write succeeded |
| Sync.SyncManager.Stop | apps/client/src/wsclip/core/sync_manager.py:151-172 | the mode's trigger source is stopped before the session disconnects, and the session ends disconnected |
| Sync.TagOnlyClipboard | apps/client/src/wsclip/core/sync_manager.py:235-239 | a message typed `clipboard_text` is a clipboard text record |
| Tui.FormatHotkey | apps/client/src/wsclip/utils/tui.py:19-50 | each table token replaced in table order, then every `+` spaced (its meaning in the rows below) |
| Tui.FormatHotkeyJoin | apps/client/src/wsclip/utils/tui.py:19-50 | keys written as table tokens or plain keys and joined with `+` are shown as their display names joined with ` + ` |
| Tui.TableFacts | apps/client/src/wsclip/utils/tui.py:29-44 | the replacement table's patterns are distinct `<...>` tokens and no display name holds `<` or `+` |
| Tui.TableJoin | apps/client/src/wsclip/utils/tui.py:46-50 | for any table of distinct tokens, replacing in order and then spacing the `+` maps the joined keys to the joined names |
| Tui.TokenDisplay | apps/client/src/wsclip/utils/tui.py:118 | a token of at most 20 characters is shown whole; a longer one as its first 8 characters, `...` and its last 8 |
| Tui.StatusText | apps/client/src/wsclip/utils/tui.py:95-100 | `Connected` is shown with `Peer Active` iff the peer is active; any other status as is |
| Tui.AppendLog | apps/client/src/wsclip/utils/tui.py:76-77 | `deque(maxlen=100).append`: the entry goes last and the oldest entry drops once there are 100 (properties in the next rows) |
| Tui.AppendLogSpec | apps/client/src/wsclip/utils/tui.py:216 | one append puts the entry last, keeps at most 100 entries, and keeps the latest earlier ones in order |
| Tui.AppendLogsKeepsLatest | apps/client/src/wsclip/utils/tui.py:76-77 | after any appends the buffer holds exactly the latest 100 entries, oldest first |
| Tui.TUIManager.constructor | apps/client/src/wsclip/utils/tui.py:56-80 | the panel starts disconnected with no peer, the configured token or `N/A`, `host:port` when the proxy is enabled, and an empty log |
| Tui.TUIManager.Start | apps/client/src/wsclip/utils/tui.py:169-176 | a live display is held and nothing else changes |
| Tui.TUIManager.Stop | apps/client/src/wsclip/utils/tui.py:178-182 | no live display is held afterwards, whether or not one was, and nothing else changes |
| Tui.TUIManager.UpdateStatus | apps/client/src/wsclip/utils/tui.py:184-205 | exactly the fields given a value change |
| Tui.TUIManager.AddLog | apps/client/src/wsclip/utils/tui.py:207-217 | one `(timestamp, message, level)` entry is appended to the bounded buffer |
| Tui.TUIManager.Status | apps/client/src/wsclip/utils/tui.py:95-100 | in terms of the panel's fields: any `connection_status` other than `Connected` is shown as is; `Connected` is followed by ` • ` and reads `Peer Active` iff `peer_active` |

## Left out

- The `websockets` calls and the SOCKS5 tunnel are not modelled. The handshake reply and the open's success are inputs, frames are an input sequence and sent maps an `outbox` sequence.
- Close codes in `receive_loop` only choose a log message. A closed frame just ends the loop.
- The heartbeat task, task creation and cancellation, and the scan for keepalive tasks in `disconnect` are not modelled. Each operation is one atomic state update. `heartbeat` only records whether a heartbeat task would be running.
- pyperclip is not modelled. The clipboard is a string field, and whether a write succeeds is a parameter.
- The hotkey listeners are not modelled. `SyncManager` records only whether a hotkey service exists and listens.
- The CLI, the configuration wizard and Rich rendering are not modelled. `TUIManager` keeps the fields the panel shows, not the panel itself. The TUI calls inside `SyncManager` are left out.
- File reading and writing, and JSON/YAML parsing and dumping, are not modelled. Configurations are read from and written to maps. A missing file and unparsable text are values of the file parameter.
- Logging is not modelled.
- Sleep durations are not modelled. Backoff delays are `real`, and the sleeps are returned as a sequence.
- `uuid4`, `datetime.now` and the peer id generator are parameters.
- The `DEFAULT_*` settings the current configuration names are not in the settings file. They are a `Defaults` record parameter.
- The older client imports a clipboard message class that its message module does not define. Its clipboard sends are recorded as an abstract `ClipboardOut` value.
- Floats and lists inside a wire message are not modelled. Message values are `null`, booleans, integers and strings.
- Config.ToDict: `poll_interval` is always saved as a JSON float. `GetReal` loads an integer such as `2` as `2.0`, whereas Python keeps the `int` and writes `2` back. The loaded value survives the round trip, but its JSON number type does not.
- Config.GetStr: a present field of the wrong JSON type fails with `WrongType`. Python would store the raw value and fail later, if at all. The same holds for Config.GetBool, Config.GetInt, Config.GetReal and Config.GetOptionalStr.
- ConfigV1.FieldStr: the same applies to the older configuration: a mistyped value fails with `WrongType`. The same holds for ConfigV1.FieldBool, ConfigV1.FieldInt and ConfigV1.FieldOptionalStr.
- Sync.SyncManager.Stop: exceptions raised by the collaborators are not modelled. The steps are returned in order instead of being observed.
- SessionV1.WebSocketClient.MaintainConnection: `maintain_connection` loops forever. The model runs a given number of passes, and each pass consumes one input sequence of frames.
- Session.WebSocketService.ReceiveLoop: the frames are a finite input sequence. The model does not capture a loop that never ends.
- Tui.FormatHotkeyJoin: proved for hotkeys made of table tokens and plain keys free of `<` and `+`. Other inputs are not characterised.
- Url.DestEndpoint: `urlsplit` checks a bracketed host with `ipaddress.ip_address` and rejects one that is not an IPv6 address. The model accepts any balanced `[...]`, so `wss://[relay]/ws` has a destination here and raises in Python.
- Url.DestEndpoint: the NFKC check of a non-ASCII netloc (`_checknetloc`) is not modelled either. For `wss://a℀b/ws`, where U+2100 normalises to `a/c`, Python's `urlparse` raises, so `connect` returns False without opening anything. The model gives a destination, and the session plans a dial and opens the transport.
- Url.Split: `urlsplit`'s final `_checknetloc` step is not modelled, because it needs Unicode NFKC normalisation. A non-ASCII netloc whose normal form holds `/`, `?`, `#`, `@` or `:` splits here, where Python raises; `wss://a℀b/ws` is one such input.
- Url.ProxyUrlRoundTrip: proved for plain hosts and credentials only. A credential holding `/` or a tab, for instance, changes how Python splits the URL, and those inputs are not characterised.
- Url.Hostname: the bracketed-host check above is not modelled. Lower-casing is ASCII-only, so a non-ASCII upper-case host letter is kept as is.
- Url.Lower: `str.lower` covers all of Unicode. The model lower-cases ASCII letters only.
- The `WebSocketException` re-raise out of `receive_loop` is not modelled. Any receive error ends the loop.

## Findings

| source | as written | input that shows it | evidently intended | confidence | as-written member | corrected member |
|---|---|---|---|---|---|---|
| apps/client/src/wsclip/services/clipboard.py:92-95,162-168 | the echo marker is cleared on the first suppressed poll, and the baseline is not moved to the received text | baseline `"a"`, received `"x"`, two polls that both read `"x"`: the second poll reports `"x"` back to the peer | a received text is never reported back while it stays on the clipboard | not executed | Clipboard.EchoReturnsOnSecondPoll | Clipboard.GuardedNeverEchoes |
| apps/client/src/wsclip/models/config.py:33-34 | `replace("/ws", "")` deletes every `/ws`, including the one that starts a host beginning with `ws` | `wss://ws.io/ws` gives `https:/.io` | only the trailing `/ws` path is removed, giving `https://ws.io` | not executed | Config.ApiUrlCutsHost | Config.IntendedApiUrlKeepsHost |
| src/wsclip/core/websocket_client.py:191-199,303-327 | `maintain_connection` reconnects only while `authenticated` is False, but a dropped connection leaves `authenticated` True | the first connect succeeds and the first listen pass gets a closed frame: every later pass skips `connect` | a pass after a drop reconnects | not executed | SessionV1.WebSocketClient.MaintainConnection | SessionV1.WebSocketClient.MaintainConnectionReconnecting |
