/**
 * The URLs the session builds and reads (apps/client/src/wsclip/services/websocket.py):
 * the connect URL with its query string, the destination host and port
 * read from the worker URL with `urllib.parse.urlparse`, and the SOCKS5
 * proxy URL.
 *
 * `Split`, `Hostname` and `Port` follow `urlsplit`'s scheme and netloc
 * rules and the `hostname` and `port` properties of its result, as of
 * Python 3.11.4: leading C0 controls and spaces are stripped and every tab,
 * CR and LF removed first; the scheme is what precedes the first `:` when it
 * starts with an ASCII letter and uses only scheme characters; the netloc
 * follows a leading `//` up to the first `/`, `?` or `#`; the host is what
 * follows the last `@`, up to `:` (or inside `[...]`). Three parts of that
 * behaviour are not modelled, since each needs Unicode tables:
 * - the validation of the address inside brackets (`ipaddress.ip_address`),
 *   so a balanced `[...]` is accepted whatever it holds;
 * - the final `_checknetloc` step, which rejects a non-ASCII netloc whose
 *   NFKC form (with `@`, `:`, `#` and `?` removed first) contains `/`, `?`,
 *   `#`, `@` or `:`;
 * - Unicode lower-casing, which is ASCII-only here.
 */
module Url {
  import opened Wrappers
  import Strings

  // ---------------------------------------------------------------------
  // String helpers (`str.find`, `str.partition`, `str.rpartition`, `str.lower`)

  function IndexOf(s: string, c: char): (r: Option<nat>)
    ensures r.None? <==> c !in s
    ensures r.Some? ==> r.value < |s| && s[r.value] == c && c !in s[..r.value]
  {
    if s == [] then None
    else if s[0] == c then Some(0)
    else match IndexOf(s[1..], c)
      case None => None
      case Some(i) =>
        assert s[1..][..i] == s[1..i + 1];
        assert s[..i + 1] == [s[0]] + s[1..i + 1];
        Some(i + 1)
  }

  function LastIndexOf(s: string, c: char): (r: Option<nat>)
    ensures r.None? <==> c !in s
    ensures r.Some? ==> r.value < |s| && s[r.value] == c && c !in s[r.value + 1..]
  {
    if s == [] then None
    else if s[|s| - 1] == c then Some(|s| - 1)
    else
      var init := s[..|s| - 1];
      assert s == init + [s[|s| - 1]];
      match LastIndexOf(init, c)
      case None => None
      case Some(i) =>
        assert s[i + 1..] == s[i + 1..|s| - 1] + [s[|s| - 1]];
        assert s[i + 1..|s| - 1] == init[i + 1..];
        Some(i)
  }

  /** `s.partition(c)`: before the first `c`, whether there was one, and after it. */
  function Partition(s: string, c: char): (string, bool, string)
  {
    match IndexOf(s, c)
    case None => (s, false, "")
    case Some(i) => (s[..i], true, s[i + 1..])
  }

  /** `s.rpartition(c)`: before the last `c`, whether there was one, and after it. */
  function RPartition(s: string, c: char): (string, bool, string)
  {
    match LastIndexOf(s, c)
    case None => ("", false, s)
    case Some(i) => (s[..i], true, s[i + 1..])
  }

  function LowerChar(c: char): char
  {
    if 'A' <= c <= 'Z' then (c as int + 32) as char else c
  }

  /** `s.lower()` on ASCII letters; other characters are kept. */
  function Lower(s: string): (r: string)
    ensures |r| == |s| && forall i :: 0 <= i < |s| ==> r[i] == LowerChar(s[i])
  {
    if s == [] then [] else [LowerChar(s[0])] + Lower(s[1..])
  }

  predicate IsAsciiAlpha(c: char)
  {
    'a' <= c <= 'z' || 'A' <= c <= 'Z'
  }

  predicate IsAsciiDigit(c: char)
  {
    '0' <= c <= '9'
  }

  /** `urllib.parse.scheme_chars`. */
  predicate IsSchemeChar(c: char)
  {
    IsAsciiAlpha(c) || IsAsciiDigit(c) || c in "+-."
  }

  // ---------------------------------------------------------------------
  // urlsplit

  /** `_WHATWG_C0_CONTROL_OR_SPACE`: a code point up to U+0020. */
  predicate IsC0OrSpace(c: char)
  {
    c <= ' '
  }

  /** `url.lstrip(_WHATWG_C0_CONTROL_OR_SPACE)`: the longest suffix not starting with one of them. */
  function LStripC0(s: string): (r: string)
    ensures |r| <= |s| && r == s[|s| - |r|..]
    ensures forall k :: 0 <= k < |s| - |r| ==> IsC0OrSpace(s[k])
    ensures r == [] || !IsC0OrSpace(r[0])
  {
    if s != [] && IsC0OrSpace(s[0]) then
      var r := LStripC0(s[1..]);
      assert s[1..][|s| - 1 - |r|..] == s[|s| - |r|..];
      r
    else s
  }

  /** `_UNSAFE_URL_BYTES_TO_REMOVE`: tab, CR and LF. */
  predicate IsUnsafe(c: char)
  {
    c == '\t' || c == '\r' || c == '\n'
  }

  /** `url.replace(b, "")` for each unsafe character `b`: the other characters, in order. */
  function RemoveUnsafe(s: string): string
  {
    if s == [] then [] else (if IsUnsafe(s[0]) then [] else [s[0]]) + RemoveUnsafe(s[1..])
  }

  /** What `urlsplit` reads: the URL after the strip and the removals. */
  function Sanitize(url: string): string
  {
    RemoveUnsafe(LStripC0(url))
  }

  datatype UrlError =
    | InvalidIPv6Url           // `ValueError("Invalid IPv6 URL")`
    | PortNotInteger           // `ValueError("Port could not be cast to integer value ...")`
    | PortOutOfRange           // `ValueError("Port out of range 0-65535")`

  datatype SplitUrl = SplitUrl(scheme: string, netloc: string)

  /** The index of the scheme's `:`, when the text before it is a scheme. */
  function SchemeColon(url: string): (r: Option<nat>)
    ensures r.Some? ==> 0 < r.value < |url| && url[r.value] == ':'
  {
    match IndexOf(url, ':')
    case None => None
    case Some(i) =>
      if i > 0 && IsAsciiAlpha(url[0]) && forall k :: 0 <= k < i ==> IsSchemeChar(url[k]) then Some(i) else None
  }

  /** The first index from `start` on holding `/`, `?` or `#`, or the length. */
  function NetlocEnd(s: string, start: nat): (r: nat)
    requires start <= |s|
    ensures start <= r <= |s|
    ensures forall k :: start <= k < r ==> s[k] !in "/?#"
    ensures r < |s| ==> s[r] in "/?#"
    decreases |s| - start
  {
    if start == |s| then start
    else if s[start] in "/?#" then start
    else NetlocEnd(s, start + 1)
  }

  /** `urlsplit(url)`, reduced to the scheme and the netloc. */
  function Split(url: string): Result<SplitUrl, UrlError>
  {
    SplitClean(Sanitize(url))
  }

  /** No tab, CR or LF. */
  predicate NoUnsafe(s: string)
  {
    forall k :: 0 <= k < |s| ==> !IsUnsafe(s[k])
  }

  /** What a netloc can hold: no `/`, `?` or `#`, and no tab, CR or LF. */
  predicate NetlocChars(s: string)
  {
    forall k :: 0 <= k < |s| ==> s[k] !in "/?#" && !IsUnsafe(s[k])
  }

  /** `urlsplit` from the scheme search on, on a URL already stripped. */
  function SplitClean(url: string): (r: Result<SplitUrl, UrlError>)
    ensures r.Ok? && NoUnsafe(url) ==> NetlocChars(r.value.netloc)
  {
    var (scheme, rest) := match SchemeColon(url)
      case Some(i) => (Lower(url[..i]), url[i + 1..])
      case None => ("", url);
    var netloc := if |rest| >= 2 && rest[..2] == "//" then rest[2..NetlocEnd(rest, 2)] else "";
    if ('[' in netloc && ']' !in netloc) || (']' in netloc && '[' !in netloc) then Err(InvalidIPv6Url)
    else Ok(SplitUrl(scheme, netloc))
  }

  /** `_hostinfo`: the raw host and the raw port text (`None` when empty). */
  function HostInfo(netloc: string): (string, Option<string>)
  {
    var (_, _, hostinfo) := RPartition(netloc, '@');
    var (_, openBracket, bracketed) := Partition(hostinfo, '[');
    if openBracket then
      var (hostname, _, rest) := Partition(bracketed, ']');
      var (_, _, port) := Partition(rest, ':');
      (hostname, if port == "" then None else Some(port))
    else
      var (hostname, _, port) := Partition(hostinfo, ':');
      (hostname, if port == "" then None else Some(port))
  }

  /** The `hostname` property: lower-cased up to a `%` zone, `None` when empty. */
  function Hostname(netloc: string): (r: Option<string>)
    ensures r.None? <==> HostInfo(netloc).0 == ""
    ensures r.Some? ==> r.value != "" && |r.value| == |HostInfo(netloc).0|
    ensures r.Some? && '%' !in HostInfo(netloc).0 ==> r.value == Lower(HostInfo(netloc).0)
  {
    HostnameOf(HostInfo(netloc).0)
  }

  function HostnameOf(raw: string): (r: Option<string>)
    ensures r.None? <==> raw == ""
    ensures r.Some? ==> r.value != "" && |r.value| == |raw|
    ensures r.Some? && '%' !in raw ==> r.value == Lower(raw)
  {
    if raw == "" then None
    else
      var (host, percent, zone) := Partition(raw, '%');
      Some(Lower(host) + (if percent then "%" + zone else ""))
  }

  /** The `port` property: ASCII digits in 0..65535, else `ValueError`. */
  function Port(netloc: string): (r: Result<Option<int>, UrlError>)
    ensures r.Ok? && r.value.Some? ==> 0 <= r.value.value <= 65535
  {
    PortOf(HostInfo(netloc).1)
  }

  function PortOf(port: Option<string>): (r: Result<Option<int>, UrlError>)
    ensures r.Ok? && r.value.Some? ==> 0 <= r.value.value <= 65535
  {
    match port
    case None => Ok(None)
    case Some(p) =>
      if !(forall k :: 0 <= k < |p| ==> IsAsciiDigit(p[k])) then Err(PortNotInteger)
      else if Strings.DigitsValue(p) > 65535 then Err(PortOutOfRange)
      else
        Strings.DigitsValueNonNegative(p);
        Ok(Some(Strings.DigitsValue(p)))
  }

  // ---------------------------------------------------------------------
  // What `connect` derives from the worker URL

  /** Why `connect` gives up before opening any transport. */
  datatype EndpointError = BadUrl(e: UrlError) | NoHostname

  datatype Endpoint = Endpoint(host: string, port: int)

  /** `parsed_url.port or (443 if parsed_url.scheme == "wss" else 80)`; a port of 0 is falsy. */
  function DestPort(scheme: string, port: Option<int>): int
  {
    if port.Some? && port.value != 0 then port.value
    else if scheme == "wss" then 443 else 80
  }

  /**
   * The destination `connect` computes, or why it returns False first: an
   * endpoint always has a host and a port in 1..65535; an explicit non-zero
   * port is kept, and a missing port or port 0 gives 443 for `wss` and 80
   * for every other scheme.
   */
  function DestEndpoint(workerUrl: string): (r: Result<Endpoint, EndpointError>)
    ensures r.Ok? <==>
      Split(workerUrl).Ok? && Port(Split(workerUrl).value.netloc).Ok? && Hostname(Split(workerUrl).value.netloc).Some?
    ensures r.Ok? ==> r.value.host != "" && 0 < r.value.port <= 65535
    ensures r.Ok? ==>
      var port := Port(Split(workerUrl).value.netloc).value;
      r.value.port == (if port.Some? && port.value != 0 then port.value
                       else if Split(workerUrl).value.scheme == "wss" then 443 else 80)
  {
    EndpointOf(Split(workerUrl))
  }

  /** The destination read from a split URL. */
  function EndpointOf(split: Result<SplitUrl, UrlError>): (r: Result<Endpoint, EndpointError>)
    ensures r.Ok? <==> split.Ok? && Port(split.value.netloc).Ok? && Hostname(split.value.netloc).Some?
    ensures r.Ok? ==> r.value.host != "" && 0 < r.value.port <= 65535
    ensures r.Ok? ==>
      var port := Port(split.value.netloc).value;
      r.value.port == (if port.Some? && port.value != 0 then port.value
                       else if split.value.scheme == "wss" then 443 else 80)
  {
    match split
    case Err(e) => Err(BadUrl(e))
    case Ok(parsed) =>
      var host := Hostname(parsed.netloc);
      match Port(parsed.netloc)
      case Err(e) => Err(BadUrl(e))
      case Ok(port) =>
        if host.None? then Err(NoHostname)
        else Ok(Endpoint(host.value, DestPort(parsed.scheme, port)))
  }

  /** `f"{worker_url}/ws?token={token}&peer_id={peer_id}"`. */
  function ConnectUrl(workerUrl: string, token: string, peerId: string): string
  {
    workerUrl + "/ws?token=" + token + "&peer_id=" + peerId
  }

  /** The SOCKS5 proxy URL: `user:pass@` only when both are set and non-empty. */
  function ProxyUrl(host: string, port: int, username: Option<string>, password: Option<string>): string
  {
    "socks5://" + ProxyUserInfo(username, password) + (host + ":" + Strings.IntToString(port))
  }

  /** The `user:pass@` part of the proxy URL; empty unless both are set and non-empty. */
  function ProxyUserInfo(username: Option<string>, password: Option<string>): string
  {
    if username.Some? && username.value != "" && password.Some? && password.value != "" then
      username.value + ":" + password.value + "@"
    else ""
  }

  // ---------------------------------------------------------------------
  // Properties

  /** The connect URL is read back unambiguously when the token holds no `&`. */
  lemma ConnectUrlInjective(w: string, t1: string, p1: string, t2: string, p2: string)
    requires '&' !in t1 && '&' !in t2
    ensures ConnectUrl(w, t1, p1) == ConnectUrl(w, t2, p2) <==> t1 == t2 && p1 == p2
  {
    if ConnectUrl(w, t1, p1) == ConnectUrl(w, t2, p2) {
      var r1 := QueryTail(w, t1, p1);
      var r2 := QueryTail(w, t2, p2);
      assert r1 == r2;
      IndexOfAfter(t1, '&', "peer_id=" + p1);
      IndexOfAfter(t2, '&', "peer_id=" + p2);
      assert |t1| == |t2|;
      assert t1 == r1[..|t1|] && t2 == r2[..|t2|];
      assert p1 == r1[|t1| + 9..] && p2 == r2[|t2| + 9..];
    }
  }

  /** What follows `?token=` in the connect URL. */
  function QueryTail(w: string, t: string, p: string): (r: string)
    ensures r == t + ['&'] + ("peer_id=" + p)
    ensures |w| + 10 <= |ConnectUrl(w, t, p)| && r == ConnectUrl(w, t, p)[|w| + 10..]
  {
    assert ConnectUrl(w, t, p) == (w + "/ws?token=") + (t + ['&'] + ("peer_id=" + p));
    t + ['&'] + ("peer_id=" + p)
  }

  /** The first `c` of `a + [c] + b` is the one after `a`, when `a` has none. */
  lemma {:induction false} IndexOfAfter(a: string, c: char, b: string)
    requires c !in a
    ensures IndexOf(a + [c] + b, c) == Some(|a|)
  {
    if a != [] {
      IndexOfAfter(a[1..], c, b);
      assert (a + [c] + b)[1..] == a[1..] + [c] + b;
    }
  }

  /** The last `c` of `a + [c] + b` is the one after `a`, when `b` has none. */
  lemma {:induction false} LastIndexOfBefore(a: string, c: char, b: string)
    requires c !in b
    ensures LastIndexOf(a + [c] + b, c) == Some(|a|)
  {
    if b != [] {
      var s := a + [c] + b;
      var b' := b[..|b| - 1];
      LastIndexOfBefore(a, c, b');
      assert s[..|s| - 1] == a + [c] + b';
    }
  }

  /** A host the proxy URL can carry as is: non-empty, no delimiter and no upper-case letter. */
  predicate PlainHost(host: string)
  {
    && host != ""
    && forall k :: 0 <= k < |host| ==> host[k] !in "@:/?#[]%" && !('A' <= host[k] <= 'Z') && !IsUnsafe(host[k])
  }

  /** Credentials the proxy URL can carry as is: no netloc delimiter, bracket, tab, CR or LF. */
  predicate PlainCredential(s: string)
  {
    forall k :: 0 <= k < |s| ==> s[k] !in "/?#[]" && !IsUnsafe(s[k])
  }

  /**
   * Parsing the proxy URL gives back the proxy's host and port under scheme
   * `socks5`, and the netloc holds a `@` exactly when credentials were embedded.
   */
  lemma ProxyUrlRoundTrip(host: string, port: int, username: Option<string>, password: Option<string>)
    requires PlainHost(host) && 0 <= port <= 65535
    requires username.Some? ==> PlainCredential(username.value)
    requires password.Some? ==> PlainCredential(password.value)
    ensures var s := Split(ProxyUrl(host, port, username, password));
      && s.Ok? && s.value.scheme == "socks5"
      && Hostname(s.value.netloc) == Some(host)
      && Port(s.value.netloc) == Ok(Some(port))
      && ('@' in s.value.netloc <==>
           username.Some? && username.value != "" && password.Some? && password.value != "")
  {
    var userinfo := ProxyUserInfo(username, password);
    ProxySplit(host, port, username, password);
    ProxyHostPort(userinfo, host, port);
    assert userinfo != "" ==> userinfo[|userinfo| - 1] == '@';
  }

  /** The proxy URL splits into scheme `socks5` and `userinfo + host:port`. */
  lemma ProxySplit(host: string, port: int, username: Option<string>, password: Option<string>)
    requires PlainHost(host) && 0 <= port <= 65535
    requires username.Some? ==> PlainCredential(username.value)
    requires password.Some? ==> PlainCredential(password.value)
    ensures var userinfo := ProxyUserInfo(username, password);
      var netloc := userinfo + (host + ":" + Strings.IntToString(port));
      && Split(ProxyUrl(host, port, username, password)) == Ok(SplitUrl("socks5", netloc))
      && ('@' in netloc <==> '@' in userinfo)
  {
    var digits := Strings.IntToString(port);
    Strings.DigitsRoundTrip(port);
    var hostinfo := host + ":" + digits;
    var userinfo := ProxyUserInfo(username, password);
    assert ProxyUrl(host, port, username, password) == "socks5://" + userinfo + hostinfo;
    HostInfoClean(host, digits);
    UserInfoClean(username, password);
    ProxyNetloc(userinfo, hostinfo);
  }

  /** Behind the embedded credentials, the netloc still names the proxy's host and port. */
  lemma ProxyHostPort(userinfo: string, host: string, port: int)
    requires PlainHost(host) && 0 <= port <= 65535
    requires userinfo == "" || (|userinfo| > 0 && userinfo[|userinfo| - 1] == '@')
    ensures var netloc := userinfo + (host + ":" + Strings.IntToString(port));
      Hostname(netloc) == Some(host) && Port(netloc) == Ok(Some(port))
  {
    var digits := Strings.IntToString(port);
    Strings.DigitsRoundTrip(port);
    HostPort(host, digits);
    var hostinfo := host + ":" + digits;
    HostInfoClean(host, digits);
    assert '@' !in hostinfo;
    UserInfoSkipped(userinfo, hostinfo);
    SameHostInfo(userinfo + hostinfo, hostinfo);
  }

  /** Credentials ending in `@` in front of a host part without `@` are skipped by `_hostinfo`. */
  lemma UserInfoSkipped(userinfo: string, hostinfo: string)
    requires userinfo == "" || (|userinfo| > 0 && userinfo[|userinfo| - 1] == '@')
    requires '@' !in hostinfo
    ensures HostInfo(userinfo + hostinfo) == HostInfo(hostinfo)
  {
    if userinfo != "" {
      var front := userinfo[..|userinfo| - 1];
      assert userinfo + hostinfo == front + "@" + hostinfo;
      CredentialsSkipped(front, hostinfo);
    } else {
      assert userinfo + hostinfo == hostinfo;
    }
  }

  /** `host:digits` holds no netloc delimiter, bracket, `@`, tab, CR or LF. */
  lemma HostInfoClean(host: string, digits: string)
    requires PlainHost(host)
    requires forall k :: 0 <= k < |digits| ==> IsAsciiDigit(digits[k])
    ensures var hostinfo := host + ":" + digits;
      forall k :: 0 <= k < |hostinfo| ==> hostinfo[k] !in "/?#[]@" && !IsUnsafe(hostinfo[k])
  {
    var hostinfo := host + ":" + digits;
    forall k | 0 <= k < |hostinfo|
      ensures hostinfo[k] !in "/?#[]@" && !IsUnsafe(hostinfo[k])
    {
      if k < |host| {
        assert hostinfo[k] == host[k];
      } else if k > |host| {
        assert hostinfo[k] == digits[k - |host| - 1];
      }
    }
  }

  /** The embedded credentials hold no netloc delimiter, bracket, tab, CR or LF. */
  lemma UserInfoClean(username: Option<string>, password: Option<string>)
    requires username.Some? ==> PlainCredential(username.value)
    requires password.Some? ==> PlainCredential(password.value)
    ensures var userinfo := ProxyUserInfo(username, password);
      forall k :: 0 <= k < |userinfo| ==> userinfo[k] !in "/?#[]" && !IsUnsafe(userinfo[k])
  {
    var userinfo := ProxyUserInfo(username, password);
    if userinfo != "" {
      var u, p := username.value, password.value;
      forall k | 0 <= k < |userinfo|
        ensures userinfo[k] !in "/?#[]" && !IsUnsafe(userinfo[k])
      {
        if k < |u| {
          assert userinfo[k] == u[k];
        } else if |u| < k < |u| + 1 + |p| {
          assert userinfo[k] == p[k - |u| - 1];
        }
      }
    }
  }

  /** Netlocs with the same host information have the same hostname and port. */
  lemma SameHostInfo(a: string, b: string)
    requires HostInfo(a) == HostInfo(b)
    ensures Hostname(a) == Hostname(b) && Port(a) == Port(b)
  {
  }

  /** `"socks5://" + userinfo + hostinfo` splits into scheme `socks5` and that netloc. */
  lemma ProxyNetloc(userinfo: string, hostinfo: string)
    requires forall k :: 0 <= k < |userinfo| ==> userinfo[k] !in "/?#[]" && !IsUnsafe(userinfo[k])
    requires forall k :: 0 <= k < |hostinfo| ==> hostinfo[k] !in "/?#[]@" && !IsUnsafe(hostinfo[k])
    ensures Split("socks5://" + userinfo + hostinfo) == Ok(SplitUrl("socks5", userinfo + hostinfo))
    ensures '@' in userinfo + hostinfo <==> '@' in userinfo
  {
    var netloc := userinfo + hostinfo;
    forall k | |userinfo| <= k < |netloc|
      ensures netloc[k] !in "/?#[]@" && !IsUnsafe(netloc[k])
    {
      assert netloc[k] == hostinfo[k - |userinfo|];
    }
    forall k | 0 <= k < |netloc|
      ensures netloc[k] !in "/?#[]" && !IsUnsafe(netloc[k])
    {
    }
    assert "socks5://" + userinfo + hostinfo == "socks5:" + ("//" + netloc);
    SplitProxy(netloc);
    if '@' in netloc {
      var k :| 0 <= k < |netloc| && netloc[k] == '@';
      assert userinfo[k] == '@';
    }
  }

  /** `user:pass@hostinfo` has the host information of `hostinfo` when that has no `@`. */
  lemma CredentialsSkipped(userinfo: string, hostinfo: string)
    requires '@' !in hostinfo
    ensures HostInfo(userinfo + "@" + hostinfo) == HostInfo(hostinfo)
  {
    LastIndexOfBefore(userinfo, '@', hostinfo);
    var netloc := userinfo + "@" + hostinfo;
    assert netloc == userinfo + ['@'] + hostinfo;
    assert netloc[|userinfo| + 1..] == hostinfo;
    assert RPartition(netloc, '@').2 == hostinfo;
    assert RPartition(hostinfo, '@').2 == hostinfo;
  }

  /** `host:digits` reads back as that host and port. */
  lemma HostPort(host: string, digits: string)
    requires PlainHost(host) && digits != []
    requires forall k :: 0 <= k < |digits| ==> IsAsciiDigit(digits[k])
    requires Strings.DigitsValue(digits) <= 65535
    ensures HostInfo(host + ":" + digits) == (host, Some(digits))
    ensures Hostname(host + ":" + digits) == Some(host)
    ensures Port(host + ":" + digits) == Ok(Some(Strings.DigitsValue(digits)))
  {
    var netloc := host + ":" + digits;
    HostInfoPlain(host, digits);
    assert HostInfo(netloc).0 == host;
    assert HostInfo(netloc).1 == Some(digits);
    HostnameOfPlain(host);
    assert Hostname(netloc) == Some(host);
  }

  /** A plain raw host is its own `hostname`. */
  lemma HostnameOfPlain(host: string)
    requires PlainHost(host)
    ensures var (h, percent, zone) := Partition(host, '%'); Some(Lower(h) + (if percent then "%" + zone else "")) == Some(host)
  {
    assert '%' !in host by {
      forall k | 0 <= k < |host|
        ensures host[k] != '%'
      {
      }
    }
    assert Partition(host, '%') == (host, false, "");
    LowerPlain(host);
    assert Lower(host) + "" == host;
  }

  lemma HostInfoPlain(host: string, digits: string)
    requires PlainHost(host)
    requires forall k :: 0 <= k < |digits| ==> IsAsciiDigit(digits[k])
    ensures HostInfo(host + ":" + digits) == (host, if digits == "" then None else Some(digits))
  {
    var hostinfo := host + ":" + digits;
    assert hostinfo == host + [':'] + digits;
    assert forall k :: 0 <= k < |hostinfo| ==> hostinfo[k] != '@' && hostinfo[k] != '[' by {
      forall k | 0 <= k < |hostinfo|
        ensures hostinfo[k] != '@' && hostinfo[k] != '['
      {
        if k < |host| {
          assert hostinfo[k] == host[k];
        } else if k > |host| {
          assert hostinfo[k] == digits[k - |host| - 1];
        }
      }
    }
    assert LastIndexOf(hostinfo, '@') == None;
    assert RPartition(hostinfo, '@') == ("", false, hostinfo);
    assert IndexOf(hostinfo, '[') == None;
    IndexOfAfter(host, ':', digits);
    assert hostinfo[..|host|] == host && hostinfo[|host| + 1..] == digits;
    assert Partition(hostinfo, ':') == (host, true, digits);
  }

  /** Lower-casing leaves a string without upper-case ASCII letters as it is. */
  lemma LowerPlain(s: string)
    requires forall k :: 0 <= k < |s| ==> !('A' <= s[k] <= 'Z')
    ensures Lower(s) == s
  {
  }

  /** The scheme of `"socks5:" + rest` is `socks5`. */
  lemma SocksScheme(rest: string)
    ensures SchemeColon("socks5:" + rest) == Some(6)
  {
    var url := "socks5:" + rest;
    IndexOfAfter("socks5", ':', rest);
    assert url == "socks5" + [':'] + rest;
    assert forall k :: 0 <= k < 6 ==> IsSchemeChar(url[k]);
  }

  /** The netloc after `//` runs to the end when it holds no `/`, `?` or `#`. */
  lemma {:induction false} NetlocToEnd(s: string, start: nat)
    requires start <= |s|
    requires forall k :: start <= k < |s| ==> s[k] !in "/?#"
    ensures NetlocEnd(s, start) == |s|
    decreases |s| - start
  {
    if start < |s| {
      NetlocToEnd(s, start + 1);
    }
  }

  /** `urlsplit("socks5://" + netloc)` for a netloc with no `/`, `?`, `#`, bracket, tab, CR or LF. */
  lemma SplitProxy(netloc: string)
    requires forall k :: 0 <= k < |netloc| ==> netloc[k] !in "/?#[]" && !IsUnsafe(netloc[k])
    ensures Split("socks5:" + ("//" + netloc)) == Ok(SplitUrl("socks5", netloc))
  {
    var url := "socks5:" + ("//" + netloc);
    assert forall k :: 0 <= k < |url| ==> !IsUnsafe(url[k]) by {
      forall k | 0 <= k < |url|
        ensures !IsUnsafe(url[k])
      {
        if k >= 9 {
          assert url[k] == netloc[k - 9];
        }
      }
    }
    SanitizeClean(url);
    SplitCleanProxy(netloc);
  }

  /** The scheme and netloc search on `socks5://` followed by a netloc with no `/`, `?`, `#` or bracket. */
  lemma SplitCleanProxy(netloc: string)
    requires forall k :: 0 <= k < |netloc| ==> netloc[k] !in "/?#[]"
    ensures SplitClean("socks5:" + ("//" + netloc)) == Ok(SplitUrl("socks5", netloc))
  {
    var rest := "//" + netloc;
    var url := "socks5:" + rest;
    SocksScheme(rest);
    assert Lower(url[..6]) == "socks5" by {
      assert url[..6] == "socks5";
      LowerPlain("socks5");
    }
    assert url[6 + 1..] == rest;
    assert |rest| >= 2 && rest[..2] == "//";
    assert rest[2..NetlocEnd(rest, 2)] == netloc by {
      NetlocToEnd(rest, 2);
      assert rest[2..] == netloc;
    }
    assert '[' !in netloc && ']' !in netloc;
  }

  // ---------------------------------------------------------------------
  // The strip and removals `urlsplit` applies first

  /** Removing the unsafe characters leaves none, keeps every other character and distributes over `+`. */
  lemma {:induction false} RemoveUnsafeAppend(a: string, b: string)
    ensures RemoveUnsafe(a + b) == RemoveUnsafe(a) + RemoveUnsafe(b)
    decreases |a|
  {
    if a == [] {
      assert a + b == b;
    } else {
      assert (a + b)[1..] == a[1..] + b;
      RemoveUnsafeAppend(a[1..], b);
    }
  }

  /** A string without tab, CR or LF is kept as it is. */
  lemma {:induction false} RemoveUnsafeNone(s: string)
    requires forall k :: 0 <= k < |s| ==> !IsUnsafe(s[k])
    ensures RemoveUnsafe(s) == s
    decreases |s|
  {
    if s != [] {
      RemoveUnsafeNone(s[1..]);
    }
  }

  /** No tab, CR or LF survives the removal. */
  lemma {:induction false} RemoveUnsafeLeavesNone(s: string)
    ensures forall k :: 0 <= k < |RemoveUnsafe(s)| ==> !IsUnsafe(RemoveUnsafe(s)[k])
    decreases |s|
  {
    if s != [] {
      RemoveUnsafeLeavesNone(s[1..]);
    }
  }

  /**
   * The destination host is the `hostname` of the worker URL, and the
   * "hostname not found" failure happens exactly when the URL splits and its
   * port parses but its host is empty.
   */
  lemma DestEndpointHost(workerUrl: string)
    ensures DestEndpoint(workerUrl).Ok? ==>
      Hostname(Split(workerUrl).value.netloc) == Some(DestEndpoint(workerUrl).value.host)
    ensures DestEndpoint(workerUrl) == Err(NoHostname) <==>
      Split(workerUrl).Ok? && Port(Split(workerUrl).value.netloc).Ok? && Hostname(Split(workerUrl).value.netloc).None?
  {
    var split := Split(workerUrl);
    if split.Ok? && Port(split.value.netloc).Ok? {
      assert split.Ok? && Port(split.value.netloc).Ok?;
    }
  }

  /** A split netloc holds no delimiter and none of the removed characters. */
  lemma SplitNetloc(url: string)
    ensures Split(url).Ok? ==> NetlocChars(Split(url).value.netloc)
  {
    RemoveUnsafeLeavesNone(LStripC0(url));
    assert NoUnsafe(Sanitize(url));
  }

  /** A URL that starts with a visible character and has no tab, CR or LF is read as written. */
  lemma SanitizeClean(url: string)
    requires url == [] || !IsC0OrSpace(url[0])
    requires forall k :: 0 <= k < |url| ==> !IsUnsafe(url[k])
    ensures Sanitize(url) == url
  {
    RemoveUnsafeNone(url);
  }

  /** A leading control character or space changes nothing `connect` derives from the worker URL. */
  lemma LeadingC0Ignored(c: char, url: string)
    requires IsC0OrSpace(c)
    ensures Split([c] + url) == Split(url)
    ensures DestEndpoint([c] + url) == DestEndpoint(url)
  {
    assert ([c] + url)[1..] == url;
  }

  /** A tab, CR or LF inside the worker URL changes nothing `connect` derives from it. */
  lemma UnsafeIgnored(a: string, c: char, b: string)
    requires a != [] && !IsC0OrSpace(a[0]) && IsUnsafe(c)
    ensures Split(a + [c] + b) == Split(a + b)
    ensures DestEndpoint(a + [c] + b) == DestEndpoint(a + b)
  {
    UnsafeRemoved(a, c, b);
  }

  lemma UnsafeRemoved(a: string, c: char, b: string)
    requires a != [] && !IsC0OrSpace(a[0]) && IsUnsafe(c)
    ensures Sanitize(a + [c] + b) == Sanitize(a + b)
  {
    var withC := a + ([c] + b);
    assert a + [c] + b == withC;
    LStripVisible(withC);
    LStripVisible(a + b);
    RemoveUnsafeAppend(a, [c] + b);
    RemoveUnsafeAppend(a, b);
    assert RemoveUnsafe([c] + b) == RemoveUnsafe(b) by {
      assert ([c] + b)[1..] == b;
    }
  }

  lemma LStripVisible(s: string)
    requires s != [] && !IsC0OrSpace(s[0])
    ensures LStripC0(s) == s
  {
  }
}
