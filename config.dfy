/**
 * The configuration of the current client (apps/client/src/wsclip/models/config.py):
 * the `AppConfig` records, `from_json` at the level of the decoded JSON
 * object, `to_dict`, and the `api_url` rewrite of the worker URL.
 *
 * The dataclass defaults `Settings.DEFAULT_*` are not all defined in the
 * settings module, so they are a `Defaults` parameter.
 */
module Config {
  import opened Wrappers
  import opened Json
  import Messages
  import Strings

  datatype ReconnectConfig = ReconnectConfig(enabled: bool, maxAttempts: int)

  datatype ConnectionConfig =
    ConnectionConfig(workerUrl: string, peerId: string, token: string, reconnect: ReconnectConfig)

  datatype ClipboardConfig = ClipboardConfig(
    syncMode: Messages.ClipboardSyncMode, hotkey: string, pollInterval: real, maxSizeMb: int)

  datatype ProxyAuthConfig = ProxyAuthConfig(username: Option<string>, password: Option<string>)

  datatype ProxyConfig =
    ProxyConfig(enabled: bool, host: string, port: int, proxyType: string, auth: ProxyAuthConfig)

  datatype LoggingConfig = LoggingConfig(level: string)

  datatype AppConfig = AppConfig(
    connection: ConnectionConfig, clipboard: ClipboardConfig, proxy: ProxyConfig, logging: LoggingConfig)

  /** The `Settings.DEFAULT_*` values the dataclasses and the loader fall back on. */
  datatype Defaults = Defaults(
    reconnectEnabled: bool, reconnectMaxAttempts: int,
    clipboardMode: Messages.ClipboardSyncMode, clipboardHotkey: string,
    clipboardPollInterval: real, clipboardMaxSizeMb: int,
    proxyEnabled: bool, proxyHost: string, proxyPort: int, proxyType: string,
    logLevel: string)

  /** `AppConfig()`: every field at its default. */
  function DefaultConfig(d: Defaults): AppConfig
  {
    AppConfig(
      ConnectionConfig("", "", "", ReconnectConfig(d.reconnectEnabled, d.reconnectMaxAttempts)),
      ClipboardConfig(d.clipboardMode, d.clipboardHotkey, d.clipboardPollInterval, d.clipboardMaxSizeMb),
      ProxyConfig(d.proxyEnabled, d.proxyHost, d.proxyPort, d.proxyType, ProxyAuthConfig(None, None)),
      LoggingConfig(d.logLevel))
  }

  // ---------------------------------------------------------------------
  // Loading

  /**
   * Why loading fails: the file is missing, its text is not JSON, `.get` is
   * called on something that is not an object, a field holds a value of
   * another type than the record declares, or the mode is not a member of
   * `ClipboardSyncMode`.
   */
  datatype ConfigError =
    | FileNotFound
    | MalformedJson
    | NotAnObject(key: string)
    | WrongType(section: string, key: string)
    | InvalidSyncMode(value: Value)

  /** The configuration file as the loader finds it. */
  datatype ConfigFile = Missing | Unparsable | Parsed(data: Value)

  /** `obj.get(key, {})`, which must be an object for the next `.get`. */
  function Section(obj: map<string, Value>, key: string): (r: Result<map<string, Value>, ConfigError>)
    ensures key !in obj ==> r == Ok(map[])
    ensures key in obj ==> (r.Ok? <==> obj[key].Object?)
    ensures key in obj && r.Ok? ==> obj[key] == Object(r.value)
  {
    if key !in obj then Ok(map[])
    else match obj[key]
      case Object(f) => Ok(f)
      case _ => Err(NotAnObject(key))
  }

  function GetStr(obj: map<string, Value>, section: string, key: string, default: string): (r: Result<string, ConfigError>)
    ensures key !in obj ==> r == Ok(default)
    ensures key in obj ==> (r.Ok? <==> obj[key].Str?)
    ensures key in obj && r.Ok? ==> obj[key] == Str(r.value)
  {
    if key !in obj then Ok(default)
    else match obj[key]
      case Str(s) => Ok(s)
      case _ => Err(WrongType(section, key))
  }

  function GetBool(obj: map<string, Value>, section: string, key: string, default: bool): (r: Result<bool, ConfigError>)
    ensures key !in obj ==> r == Ok(default)
    ensures key in obj ==> (r.Ok? <==> obj[key].Bool?)
    ensures key in obj && r.Ok? ==> obj[key] == Bool(r.value)
  {
    if key !in obj then Ok(default)
    else match obj[key]
      case Bool(b) => Ok(b)
      case _ => Err(WrongType(section, key))
  }

  function GetInt(obj: map<string, Value>, section: string, key: string, default: int): (r: Result<int, ConfigError>)
    ensures key !in obj ==> r == Ok(default)
    ensures key in obj ==> (r.Ok? <==> obj[key].Int?)
    ensures key in obj && r.Ok? ==> obj[key] == Int(r.value)
  {
    if key !in obj then Ok(default)
    else match obj[key]
      case Int(i) => Ok(i)
      case _ => Err(WrongType(section, key))
  }

  /** A `float` field: JSON writes `1.0` as a float, but an integer literal is accepted too. */
  function GetReal(obj: map<string, Value>, section: string, key: string, default: real): (r: Result<real, ConfigError>)
    ensures key !in obj ==> r == Ok(default)
    ensures key in obj ==> (r.Ok? <==> obj[key].Float? || obj[key].Int?)
    ensures key in obj && r.Ok? ==> obj[key] == Float(r.value) || obj[key] == Int(r.value.Floor)
  {
    if key !in obj then Ok(default)
    else match obj[key]
      case Float(x) => Ok(x)
      case Int(i) => Ok(i as real)
      case _ => Err(WrongType(section, key))
  }

  /** `obj.get(key)` for a `str | None` field: absent and `null` are both `None`. */
  function GetOptionalStr(obj: map<string, Value>, section: string, key: string): (r: Result<Option<string>, ConfigError>)
    ensures key !in obj ==> r == Ok(None)
    ensures key in obj ==> (r.Ok? <==> obj[key].Str? || obj[key].Null?)
    ensures key in obj && r.Ok? ==> obj[key] == (if r.value.Some? then Str(r.value.value) else Null)
  {
    if key !in obj then Ok(None)
    else match obj[key]
      case Null => Ok(None)
      case Str(s) => Ok(Some(s))
      case _ => Err(WrongType(section, key))
  }

  /** `ClipboardSyncMode(value)`: only the two member values name a mode. */
  function ParseSyncMode(v: Value): (r: Result<Messages.ClipboardSyncMode, ConfigError>)
    ensures r.Ok? <==> v == Str("auto") || v == Str("manual")
    ensures r.Ok? ==> v == Str(Messages.SyncModeValue(r.value))
    ensures r.Err? ==> r.error == InvalidSyncMode(v)
  {
    if v == Str("auto") then Ok(Messages.Auto)
    else if v == Str("manual") then Ok(Messages.Manual)
    else Err(InvalidSyncMode(v))
  }

  function LoadConnection(root: map<string, Value>, d: Defaults): Result<ConnectionConfig, ConfigError>
  {
    var conn :- Section(root, "connection");
    var rec :- Section(conn, "reconnect");
    var workerUrl :- GetStr(conn, "connection", "worker_url", "");
    var peerId :- GetStr(conn, "connection", "peer_id", "");
    var token :- GetStr(conn, "connection", "token", "");
    var enabled :- GetBool(rec, "reconnect", "enabled", d.reconnectEnabled);
    var maxAttempts :- GetInt(rec, "reconnect", "max_attempts", d.reconnectMaxAttempts);
    Ok(ConnectionConfig(workerUrl, peerId, token, ReconnectConfig(enabled, maxAttempts)))
  }

  function LoadClipboard(root: map<string, Value>, d: Defaults): Result<ClipboardConfig, ConfigError>
  {
    var clip :- Section(root, "clipboard");
    var mode :- ParseSyncMode(if "mode" in clip then clip["mode"] else Str(Messages.SyncModeValue(d.clipboardMode)));
    var hotkey :- GetStr(clip, "clipboard", "hotkey", d.clipboardHotkey);
    var pollInterval :- GetReal(clip, "clipboard", "poll_interval", d.clipboardPollInterval);
    var maxSizeMb :- GetInt(clip, "clipboard", "max_size_mb", d.clipboardMaxSizeMb);
    Ok(ClipboardConfig(mode, hotkey, pollInterval, maxSizeMb))
  }

  function LoadProxy(root: map<string, Value>, d: Defaults): Result<ProxyConfig, ConfigError>
  {
    var proxy :- Section(root, "proxy");
    var auth :- Section(proxy, "auth");
    var enabled :- GetBool(proxy, "proxy", "enabled", d.proxyEnabled);
    var host :- GetStr(proxy, "proxy", "host", d.proxyHost);
    var port :- GetInt(proxy, "proxy", "port", d.proxyPort);
    var proxyType :- GetStr(proxy, "proxy", "type", d.proxyType);
    var username :- GetOptionalStr(auth, "auth", "username");
    var password :- GetOptionalStr(auth, "auth", "password");
    Ok(ProxyConfig(enabled, host, port, proxyType, ProxyAuthConfig(username, password)))
  }

  function LoadLogging(root: map<string, Value>, d: Defaults): Result<LoggingConfig, ConfigError>
  {
    var logging :- Section(root, "logging");
    var level :- GetStr(logging, "logging", "level", d.logLevel);
    Ok(LoggingConfig(level))
  }

  /** The body of `from_json` after `json.load`: the four sections in order. */
  function FromDict(data: Value, d: Defaults): (r: Result<AppConfig, ConfigError>)
    ensures r.Ok? ==> data.Object?
  {
    if !data.Object? then Err(NotAnObject(""))
    else
      var connection :- LoadConnection(data.fields, d);
      var clipboard :- LoadClipboard(data.fields, d);
      var proxy :- LoadProxy(data.fields, d);
      var logging :- LoadLogging(data.fields, d);
      Ok(AppConfig(connection, clipboard, proxy, logging))
  }

  /** `AppConfig.from_json`: a missing file fails before anything is parsed. */
  function FromJson(file: ConfigFile, d: Defaults): (r: Result<AppConfig, ConfigError>)
    ensures r == Err(FileNotFound) <==> file == Missing
    ensures r == Err(MalformedJson) <==> file == Unparsable
    ensures file.Parsed? ==> r == FromDict(file.data, d)
  {
    match file
    case Missing => Err(FileNotFound)
    case Unparsable => Err(MalformedJson)
    case Parsed(data) =>
      var r := FromDict(data, d);
      assert r.Err? ==> r.error != FileNotFound && r.error != MalformedJson by {
        LoadErrors(data, d);
      }
      r
  }

  /** Loading a parsed object reports only the errors of its contents. */
  lemma LoadErrors(data: Value, d: Defaults)
    ensures FromDict(data, d).Err? ==>
      FromDict(data, d).error != FileNotFound && FromDict(data, d).error != MalformedJson
  {
  }

  // ---------------------------------------------------------------------
  // Saving

  function OptionalStr(o: Option<string>): Value
  {
    if o.Some? then Str(o.value) else Null
  }

  /** `to_dict`: the nested object `save` writes. */
  function ToDict(c: AppConfig): (r: Value)
    ensures r.Object? && r.fields.Keys == {"connection", "clipboard", "proxy", "logging"}
  {
    Object(map[
      "connection" := Object(map[
        "worker_url" := Str(c.connection.workerUrl),
        "peer_id" := Str(c.connection.peerId),
        "token" := Str(c.connection.token),
        "reconnect" := Object(map[
          "enabled" := Bool(c.connection.reconnect.enabled),
          "max_attempts" := Int(c.connection.reconnect.maxAttempts)])]),
      "clipboard" := Object(map[
        "mode" := Str(Messages.SyncModeValue(c.clipboard.syncMode)),
        "hotkey" := Str(c.clipboard.hotkey),
        "poll_interval" := Float(c.clipboard.pollInterval),
        "max_size_mb" := Int(c.clipboard.maxSizeMb)]),
      "proxy" := Object(map[
        "enabled" := Bool(c.proxy.enabled),
        "host" := Str(c.proxy.host),
        "port" := Int(c.proxy.port),
        "type" := Str(c.proxy.proxyType),
        "auth" := Object(map[
          "username" := OptionalStr(c.proxy.auth.username),
          "password" := OptionalStr(c.proxy.auth.password)])]),
      "logging" := Object(map["level" := Str(c.logging.level)])])
  }

  // ---------------------------------------------------------------------
  // Properties of loading and saving

  /** An empty object loads as the all-defaults configuration. */
  lemma EmptyObjectLoadsDefaults(d: Defaults)
    ensures FromDict(Object(map[]), d) == Ok(DefaultConfig(d))
  {
    assert LoadConnection(map[], d) == Ok(DefaultConfig(d).connection);
    assert LoadClipboard(map[], d) == Ok(DefaultConfig(d).clipboard);
    assert LoadProxy(map[], d) == Ok(DefaultConfig(d).proxy);
  }

  /** A missing section loads as that section's defaults, whatever the others hold. */
  lemma MissingSectionsDefault(data: Value, d: Defaults)
    requires FromDict(data, d).Ok?
    ensures var c := FromDict(data, d).value;
      && ("connection" !in data.fields ==> c.connection == DefaultConfig(d).connection)
      && ("clipboard" !in data.fields ==> c.clipboard == DefaultConfig(d).clipboard)
      && ("proxy" !in data.fields ==> c.proxy == DefaultConfig(d).proxy)
      && ("logging" !in data.fields ==> c.logging == DefaultConfig(d).logging)
  {
    var root := data.fields;
    if "connection" !in root {
      assert LoadConnection(root, d) == Ok(DefaultConfig(d).connection);
    }
    if "clipboard" !in root {
      assert LoadClipboard(root, d) == Ok(DefaultConfig(d).clipboard);
    }
    if "proxy" !in root {
      assert LoadProxy(root, d) == Ok(DefaultConfig(d).proxy);
    }
  }

  /**
   * Within a present proxy section, missing fields take their defaults and a
   * missing `auth` object or credential loads as `None`.
   */
  lemma MissingProxyFieldsDefault(data: Value, d: Defaults)
    requires FromDict(data, d).Ok? && "proxy" in data.fields
    ensures var p := FromDict(data, d).value.proxy;
      var section := data.fields["proxy"].fields;
      && ("enabled" !in section ==> p.enabled == d.proxyEnabled)
      && ("host" !in section ==> p.host == d.proxyHost)
      && ("port" !in section ==> p.port == d.proxyPort)
      && ("type" !in section ==> p.proxyType == d.proxyType)
      && ("auth" !in section ==> p.auth == ProxyAuthConfig(None, None))
      && ("auth" in section && "username" !in section["auth"].fields ==> p.auth.username == None)
      && ("auth" in section && "password" !in section["auth"].fields ==> p.auth.password == None)
  {
    assert LoadProxy(data.fields, d).Ok?;
  }

  /** A configuration that loads had a valid mode, written as its value. */
  lemma LoadedModeIsValid(data: Value, d: Defaults)
    requires FromDict(data, d).Ok? && "clipboard" in data.fields
    ensures var clip := data.fields["clipboard"].fields;
      "mode" in clip ==> clip["mode"] == Str(Messages.SyncModeValue(FromDict(data, d).value.clipboard.syncMode))
  {
    assert LoadClipboard(data.fields, d).Ok?;
  }

  /** A mode outside `auto` and `manual` makes loading fail. */
  lemma InvalidModeRejected(data: Value, d: Defaults)
    requires data.Object? && "clipboard" in data.fields && data.fields["clipboard"].Object?
    requires var clip := data.fields["clipboard"].fields;
      "mode" in clip && clip["mode"] != Str("auto") && clip["mode"] != Str("manual")
    ensures FromDict(data, d).Err?
  {
    var clip := data.fields["clipboard"].fields;
    assert ParseSyncMode(clip["mode"]).Err?;
    assert LoadClipboard(data.fields, d).Err?;
  }

  lemma ConnectionRoundTrip(c: AppConfig, d: Defaults)
    ensures LoadConnection(ToDict(c).fields, d) == Ok(c.connection)
  {
    var conn := ToDict(c).fields["connection"].fields;
    assert Section(ToDict(c).fields, "connection") == Ok(conn);
    assert Section(conn, "reconnect") == Ok(conn["reconnect"].fields);
  }

  lemma ClipboardRoundTrip(c: AppConfig, d: Defaults)
    ensures LoadClipboard(ToDict(c).fields, d) == Ok(c.clipboard)
  {
    var clip := ToDict(c).fields["clipboard"].fields;
    assert Section(ToDict(c).fields, "clipboard") == Ok(clip);
    assert ParseSyncMode(clip["mode"]) == Ok(c.clipboard.syncMode);
  }

  lemma ProxyRoundTrip(c: AppConfig, d: Defaults)
    ensures LoadProxy(ToDict(c).fields, d) == Ok(c.proxy)
  {
    var proxy := ToDict(c).fields["proxy"].fields;
    var auth := proxy["auth"].fields;
    assert Section(ToDict(c).fields, "proxy") == Ok(proxy);
    assert Section(proxy, "auth") == Ok(auth);
    assert GetOptionalStr(auth, "auth", "username") == Ok(c.proxy.auth.username);
    assert GetOptionalStr(auth, "auth", "password") == Ok(c.proxy.auth.password);
  }

  /** `from_json` after `save`: every field written by `to_dict` is read back under its key. */
  lemma RoundTrip(c: AppConfig, d: Defaults)
    ensures FromDict(ToDict(c), d) == Ok(c)
  {
    ConnectionRoundTrip(c, d);
    ClipboardRoundTrip(c, d);
    ProxyRoundTrip(c, d);
    assert LoadLogging(ToDict(c).fields, d) == Ok(c.logging);
  }

  /** `save` then `from_json`: the file holds `to_dict()`, which loads back as the same configuration. */
  lemma SaveThenLoad(c: AppConfig, d: Defaults)
    ensures FromJson(Parsed(ToDict(c)), d) == Ok(c)
  {
    RoundTrip(c, d);
  }

  // ---------------------------------------------------------------------
  // The HTTP base URL

  /** `ConnectionConfig.api_url`: strip trailing `/`, rewrite `wss://` to `https://`, delete `/ws`. */
  function ApiUrl(workerUrl: string): string
  {
    Strings.Replace(Strings.Replace(Strings.RStrip(workerUrl, '/'), "wss://", "https://"), "/ws", "")
  }

  /** After the rewrite no `wss://` is left for the deletion step to see. */
  lemma SchemeRewritten(workerUrl: string)
    ensures !Strings.Contains(Strings.Replace(Strings.RStrip(workerUrl, '/'), "wss://", "https://"), "wss://")
  {
    Strings.ReplaceLeavesNoPattern(Strings.RStrip(workerUrl, '/'), "wss://", "https://");
  }

  /**
   * As written, deleting every `/ws` also cuts into the `//` of the rewritten
   * scheme when the host name starts with `ws`: `wss://ws.io/ws` becomes
   * `https:/.io`.
   */
  lemma ApiUrlCutsHost(t: string)
    requires t != [] && '/' !in t && ':' !in t
    ensures ApiUrl("wss://ws" + t + "/ws") == "https:/" + t
  {
    var url := "wss://ws" + t + "/ws";
    assert Strings.RStrip(url, '/') == url by {
      assert url[|url| - 1] == 's';
    }
    RewriteScheme("ws" + t + "/ws");
    assert url == "wss://" + ("ws" + t + "/ws");
    DeleteCutsScheme(t);
    assert "https://" + ("ws" + t + "/ws") == "https://ws" + t + "/ws";
  }

  /** The scheme rewrite of `wss://` followed by a path with no `:`. */
  lemma RewriteScheme(path: string)
    requires ':' !in path
    ensures Strings.Replace("wss://" + path, "wss://", "https://") == "https://" + path
  {
    Strings.ReplaceHit("wss://", path, "https://");
    NoColon(path, "wss://");
  }

  /** Deleting `/ws` from `https://ws<t>/ws` takes one `/` of the scheme with it. */
  lemma DeleteCutsScheme(t: string)
    requires '/' !in t
    ensures Strings.Replace("https://ws" + t + "/ws", "/ws", "") == "https:/" + t
  {
    var tail := "/ws" + t + "/ws";
    assert "https://ws" + t + "/ws" == "https:" + (['/'] + tail);
    Strings.KeepPrefix("https:", ['/'] + tail, "/ws", "");
    DeleteAfterSlash(t);
    assert "https:" + (['/'] + t) == "https:/" + t;
  }

  lemma DeleteAfterSlash(t: string)
    requires '/' !in t
    ensures Strings.Replace(['/'] + ("/ws" + t + "/ws"), "/ws", "") == ['/'] + t
  {
    var tail := "/ws" + t + "/ws";
    assert tail[0] == '/';
    Strings.ReplaceMiss('/', tail, "/ws", "");
    assert tail == "/ws" + (t + "/ws");
    Strings.ReplaceHit("/ws", t + "/ws", "");
    Strings.KeepPrefix(t, "/ws", "/ws", "");
    Strings.ReplaceHit("/ws", "", "");
    assert "/ws" + "" == "/ws";
    assert Strings.Replace("", "/ws", "") == "";
    assert Strings.Replace("/ws", "/ws", "") == "";
    assert Strings.Replace(t + "/ws", "/ws", "") == t;
    assert Strings.Replace(tail, "/ws", "") == t;
    assert Strings.Replace(['/'] + tail, "/ws", "") == ['/'] + t;
  }

  /** A string without `c` contains no pattern holding `c`. */
  lemma {:induction false} NoCharNoPattern(s: string, p: string, c: char)
    requires c in p && c !in s
    ensures !Strings.Contains(s, p)
    decreases |s|
  {
    if |p| <= |s| {
      var k :| 0 <= k < |p| && p[k] == c;
      assert s[..|p|][k] != p[k];
    }
    assert !Strings.StartsWith(s, p);
    if |s| > 0 {
      NoCharNoPattern(s[1..], p, c);
    }
  }

  lemma NoColon(s: string, p: string)
    requires ':' in p && ':' !in s && p != []
    ensures Strings.Replace(s, p, "https://") == s
  {
    NoCharNoPattern(s, p, ':');
    Strings.ReplaceAbsent(s, p, "https://");
  }

  /** The evidently intended rewrite: only the `/ws` path at the end is removed. */
  function IntendedApiUrl(workerUrl: string): string
  {
    var s := Strings.Replace(Strings.RStrip(workerUrl, '/'), "wss://", "https://");
    if |s| >= 3 && s[|s| - 3..] == "/ws" then s[..|s| - 3] else s
  }

  /**
   * For a `wss://` worker URL whose host has no `/` or `:`, the intended
   * rewrite gives the `https://` URL of that host, with or without the
   * `/ws` path and a trailing slash.
   */
  lemma IntendedApiUrlKeepsHost(host: string, suffix: string)
    requires host != [] && '/' !in host && ':' !in host
    requires suffix in {"/ws", "/ws/"}
    ensures IntendedApiUrl("wss://" + host + suffix) == "https://" + host
  {
    var rest := host + "/ws";
    StripWsSuffix(host, suffix);
    assert ':' !in rest;
    RewriteScheme(rest);
    var front := "https://" + host;
    assert "https://" + rest == front + "/ws";
    assert (front + "/ws")[..|front|] == front;
  }

  /** Right-stripping `/` from `wss://<host>/ws` or `wss://<host>/ws/` leaves `wss://<host>/ws`. */
  lemma StripWsSuffix(host: string, suffix: string)
    requires suffix in {"/ws", "/ws/"}
    ensures Strings.RStrip("wss://" + host + suffix, '/') == "wss://" + (host + "/ws")
  {
    var url := "wss://" + host + suffix;
    var stripped := "wss://" + (host + "/ws");
    if suffix == "/ws/" {
      assert url[..|url| - 1] == stripped;
    } else {
      assert url == stripped;
    }
  }
}
