/**
 * The configuration of the older client (src/wsclip/models/config.py):
 * `from_yaml` and `to_yaml` at the level of the decoded YAML mapping.
 *
 * `to_yaml` writes only four proxy fields, so the round trip is lossy: the
 * proxy credentials are not persisted, and a configuration without a proxy
 * comes back with the default one.
 */
module ConfigV1 {
  import opened Wrappers
  import opened Json

  datatype ProxyConfigV1 = ProxyConfigV1(
    enabled: bool, host: string, port: int, proxyType: string,
    username: Option<string>, password: Option<string>)

  /** `ProxyConfig()`: disabled, `localhost:1080`, `socks5`, no credentials. */
  const DefaultProxy := ProxyConfigV1(false, "localhost", 1080, "socks5", None, None)

  datatype AppConfigV1 = AppConfigV1(
    workerUrl: string, peerId: string, token: string,
    proxy: Option<ProxyConfigV1>, logLevel: string)

  /**
   * Why loading fails: no file, a document that is not a mapping, a proxy
   * value that cannot be unpacked as keywords, a key `ProxyConfig` has no
   * field for, or a value of another type than the field declares.
   */
  datatype LoadError =
    | FileNotFound
    | NotAMapping
    | UnexpectedKeywords(keys: set<string>)
    | WrongType(key: string)

  /** The file as `from_yaml` finds it: missing, or the document `yaml.safe_load` returns. */
  datatype YamlFile = Missing | Loaded(data: Value)

  /** Python's truth value of a loaded value. */
  predicate Truthy(v: Value)
  {
    match v
    case Null => false
    case Bool(b) => b
    case Int(i) => i != 0
    case Float(x) => x != 0.0
    case Str(s) => s != ""
    case Object(f) => f != map[]
  }

  const ProxyFields: set<string> := {"enabled", "host", "port", "type", "username", "password"}

  function FieldStr(obj: map<string, Value>, key: string, default: string): (r: Result<string, LoadError>)
    ensures key !in obj ==> r == Ok(default)
    ensures key in obj ==> (r.Ok? <==> obj[key].Str?) && (r.Ok? ==> obj[key] == Str(r.value))
  {
    if key !in obj then Ok(default)
    else match obj[key]
      case Str(s) => Ok(s)
      case _ => Err(WrongType(key))
  }

  function FieldBool(obj: map<string, Value>, key: string, default: bool): (r: Result<bool, LoadError>)
    ensures key !in obj ==> r == Ok(default)
    ensures key in obj ==> (r.Ok? <==> obj[key].Bool?) && (r.Ok? ==> obj[key] == Bool(r.value))
  {
    if key !in obj then Ok(default)
    else match obj[key]
      case Bool(b) => Ok(b)
      case _ => Err(WrongType(key))
  }

  function FieldInt(obj: map<string, Value>, key: string, default: int): (r: Result<int, LoadError>)
    ensures key !in obj ==> r == Ok(default)
    ensures key in obj ==> (r.Ok? <==> obj[key].Int?) && (r.Ok? ==> obj[key] == Int(r.value))
  {
    if key !in obj then Ok(default)
    else match obj[key]
      case Int(i) => Ok(i)
      case _ => Err(WrongType(key))
  }

  function FieldOptionalStr(obj: map<string, Value>, key: string): (r: Result<Option<string>, LoadError>)
    ensures key !in obj ==> r == Ok(None)
    ensures key in obj ==> (r.Ok? <==> obj[key].Str? || obj[key].Null?)
    ensures key in obj && r.Ok? ==> obj[key] == (if r.value.Some? then Str(r.value.value) else Null)
  {
    if key !in obj then Ok(None)
    else match obj[key]
      case Null => Ok(None)
      case Str(s) => Ok(Some(s))
      case _ => Err(WrongType(key))
  }

  /** `ProxyConfig(**fields)`: an unknown keyword is refused, a missing field takes its default. */
  function ProxyFromFields(fields: map<string, Value>): (r: Result<ProxyConfigV1, LoadError>)
    ensures (exists k :: k in fields && k !in ProxyFields) ==> r.Err? && r.error.UnexpectedKeywords?
  {
    if exists k :: k in fields && k !in ProxyFields then
      Err(UnexpectedKeywords(fields.Keys - ProxyFields))
    else
      var enabled :- FieldBool(fields, "enabled", DefaultProxy.enabled);
      var host :- FieldStr(fields, "host", DefaultProxy.host);
      var port :- FieldInt(fields, "port", DefaultProxy.port);
      var proxyType :- FieldStr(fields, "type", DefaultProxy.proxyType);
      var username :- FieldOptionalStr(fields, "username");
      var password :- FieldOptionalStr(fields, "password");
      Ok(ProxyConfigV1(enabled, host, port, proxyType, username, password))
  }

  /** `ProxyConfig(**proxy_data) if proxy_data else ProxyConfig()`. */
  function LoadProxy(proxyData: Value): (r: Result<ProxyConfigV1, LoadError>)
    ensures !Truthy(proxyData) ==> r == Ok(DefaultProxy)
    ensures Truthy(proxyData) && !proxyData.Object? ==> r == Err(NotAMapping)
  {
    if !Truthy(proxyData) then Ok(DefaultProxy)
    else match proxyData
      case Object(fields) => ProxyFromFields(fields)
      case _ => Err(NotAMapping)
  }

  /** The body of `from_yaml` after `yaml.safe_load`. */
  function FromMapping(data: Value): (r: Result<AppConfigV1, LoadError>)
    ensures r.Ok? ==> data.Object? && r.value.proxy.Some?
  {
    if !data.Object? then Err(NotAMapping)
    else
      var root := data.fields;
      var proxy :- LoadProxy(if "proxy" in root then root["proxy"] else Null);
      var workerUrl :- FieldStr(root, "worker_url", "");
      var peerId :- FieldStr(root, "peer_id", "");
      var token :- FieldStr(root, "token", "");
      var logLevel :- FieldStr(root, "log_level", "INFO");
      Ok(AppConfigV1(workerUrl, peerId, token, Some(proxy), logLevel))
  }

  /** `AppConfig.from_yaml`: a missing path fails before anything is read. */
  function FromYaml(file: YamlFile): (r: Result<AppConfigV1, LoadError>)
    ensures r == Err(FileNotFound) <==> file == Missing
    ensures r.Ok? ==> r.value.proxy.Some?
  {
    match file
    case Missing => Err(FileNotFound)
    case Loaded(data) =>
      FromMapping(data)
  }

  /** `to_yaml`: four top-level strings and, when there is a proxy, four of its six fields. */
  function ToYaml(c: AppConfigV1): (r: Value)
    ensures r.Object? && r.fields.Keys == {"worker_url", "peer_id", "token", "log_level", "proxy"}
    ensures r.fields["proxy"] == Null <==> c.proxy.None?
  {
    Object(map[
      "worker_url" := Str(c.workerUrl),
      "peer_id" := Str(c.peerId),
      "token" := Str(c.token),
      "log_level" := Str(c.logLevel),
      "proxy" := if c.proxy.Some? then
          Object(map[
            "enabled" := Bool(c.proxy.value.enabled),
            "host" := Str(c.proxy.value.host),
            "port" := Int(c.proxy.value.port),
            "type" := Str(c.proxy.value.proxyType)])
        else Null])
  }

  // ---------------------------------------------------------------------
  // Properties

  /** What survives a save and a load: no credentials, and a proxy even if there was none. */
  function Persisted(c: AppConfigV1): AppConfigV1
  {
    var proxy := if c.proxy.Some? then c.proxy.value.(username := None, password := None) else DefaultProxy;
    c.(proxy := Some(proxy))
  }

  /** Missing keys take their defaults; an absent or `null` proxy is the default proxy. */
  lemma EmptyMappingDefaults()
    ensures FromMapping(Object(map[])) == Ok(AppConfigV1("", "", "", Some(DefaultProxy), "INFO"))
  {
  }

  /** A present but empty or `null` proxy section also loads as the default proxy. */
  lemma FalsyProxyDefaults(data: Value)
    requires data.Object? && "proxy" in data.fields && !Truthy(data.fields["proxy"])
    ensures FromMapping(data).Ok? ==> FromMapping(data).value.proxy == Some(DefaultProxy)
  {
  }

  /** A proxy key that `ProxyConfig` does not declare makes loading fail. */
  lemma UnknownProxyKeyRejected(data: Value, key: string)
    requires data.Object? && "proxy" in data.fields && data.fields["proxy"].Object?
    requires key in data.fields["proxy"].fields && key !in ProxyFields
    ensures FromMapping(data).Err?
  {
    var fields := data.fields["proxy"].fields;
    assert Truthy(data.fields["proxy"]);
    assert ProxyFromFields(fields).Err?;
  }

  /** Credentials are never written: the saved proxy mapping has exactly four keys. */
  lemma CredentialsNotPersisted(c: AppConfigV1)
    requires c.proxy.Some?
    ensures ToYaml(c).fields["proxy"].fields.Keys == {"enabled", "host", "port", "type"}
  {
  }

  lemma ProxyRoundTripV1(p: ProxyConfigV1)
    ensures var written := map["enabled" := Bool(p.enabled), "host" := Str(p.host),
                               "port" := Int(p.port), "type" := Str(p.proxyType)];
      ProxyFromFields(written) == Ok(p.(username := None, password := None))
  {
    var written := map["enabled" := Bool(p.enabled), "host" := Str(p.host),
                       "port" := Int(p.port), "type" := Str(p.proxyType)];
    assert !exists k :: k in written && k !in ProxyFields;
  }

  /**
   * The lossy round trip: loading what `to_yaml` wrote gives the
   * configuration back, except that the proxy credentials are gone and a
   * missing proxy comes back as the default one.
   */
  lemma LossyRoundTrip(c: AppConfigV1)
    ensures FromYaml(Loaded(ToYaml(c))) == Ok(Persisted(c))
    ensures FromYaml(Loaded(ToYaml(c))) == Ok(c) <==>
      c.proxy.Some? && c.proxy.value.username == None && c.proxy.value.password == None
  {
    var root := ToYaml(c).fields;
    if c.proxy.Some? {
      ProxyRoundTripV1(c.proxy.value);
      assert Truthy(root["proxy"]);
      assert LoadProxy(root["proxy"]) == Ok(c.proxy.value.(username := None, password := None));
    } else {
      assert LoadProxy(root["proxy"]) == Ok(DefaultProxy);
    }
  }
}
