/**
 * Share URIs: printing (uri-builder.ts) and parsing (uri-parser.ts,
 * socks-uri.ts) of VLESS, Trojan, Shadowsocks, Hysteria2 and SOCKS5 nodes.
 */
module ShareUri {
  import opened Common
  import opened Text
  import opened Utf8
  import opened Percent
  import opened Base64

  datatype Protocol = VLESS | TROJAN | SHADOWSOCKS | HYSTERIA2 | SOCKS5
  datatype Transport = RAW | WS | GRPC | QUIC | XHTTP
  datatype Security = PLAIN | TLS | REALITY

  datatype Node = Node(name: string, protocol: Protocol, host: string, port: nat, transport: Transport, tls: Security,
                       domain: Option<string>, creds: map<string, string>, cfGroup: bool)

  datatype External = External(name: string, protocol: Protocol, address: string, port: nat, uuid: Option<string>,
                               username: Option<string>, password: Option<string>, cipher: Option<string>,
                               transport: Option<Transport>, transportHost: Option<string>, tls: Security,
                               realityPublicKey: Option<string>, shortId: Option<string>, xhttpMode: Option<string>,
                               xhttpHost: Option<string>, xhttpExtra: Option<string>, sni: Option<string>,
                                 path: Option<string>)

  // What the platform decides: the repair of bytes that are no UTF-8, Number() of
  // a text where it is an integer, addresses, IDNA names, and JSON objects.
  datatype Platform = Platform(repair: seq<Byte> -> string, number: string -> Option<int>, isIp4: string -> bool,
                               isIp6: string -> bool, toAscii: string -> string, isJsonObject: string -> bool)

  ghost predicate Lawful(p: Platform) {
    forall n: nat :: p.number(Decimal(n)) == Some(n)
  }

  const DEFAULT_NAME := "导入节点"
  const DEFAULT_SNI := "www.google.com"
  const FLOW := "xtls-rprx-vision"

  // ── Small JavaScript ─────────────────────────────────────────────────────

  // creds[key]
  function Cred(n: Node, key: string): Option<string> {
    if key in n.creds then Some(n.creds[key]) else None
  }

  // value || undefined
  function Truthy(v: Option<string>): Option<string> {
    if v == Some("") then None else v
  }

  predicate IsSpace(c: char) {
    var n := c as int;
    || 9 <= n <= 13 || n == 0x20 || n == 0xA0 || n == 0x1680 || 0x2000 <= n <= 0x200A
    || n == 0x2028 || n == 0x2029 || n == 0x202F || n == 0x205F || n == 0x3000 || n == 0xFEFF
  }

  function TrimStart(s: string): string {
    if s != "" && IsSpace(s[0]) then TrimStart(s[1..]) else s
  }

  function TrimEnd(s: string): string {
    if s != "" && IsSpace(s[|s| - 1]) then TrimEnd(s[..|s| - 1]) else s
  }

  function Trim(s: string): string {
    TrimEnd(TrimStart(s))
  }

  predicate IsControl(c: char) {
    c as int < 0x20 || c as int == 0x7F
  }

  predicate NoControl(s: string) {
    forall c <- s :: !IsControl(c)
  }

  // The length in UTF-16 code units.
  function Units(s: string): nat {
    if s == "" then 0 else (if s[0] as int < 0x10000 then 1 else 2) + Units(s[1..])
  }

  // Before and behind the first mark.
  function Cut(s: string, mark: char): (string, Option<string>) {
    var i := IndexOf(s, mark);
    if i < 0 then (s, None) else (s[..i], Some(s[i + 1..]))
  }

  // Before and behind the last mark; without one all is behind it.
  function CutLast(s: string, mark: char): (string, string) {
    var i := LastIndexOf(s, mark);
    if i < 0 then ("", s) else (s[..i], s[i + 1..])
  }

  lemma CutAt(a: string, mark: char, b: string)
    requires mark !in a
    ensures Cut(a + [mark] + b, mark) == (a, Some(b))
  {
    IndexOfFirst(a, mark, b);
    var s := a + [mark] + b;
    assert s[..|a|] == a && s[|a| + 1..] == b;
  }

  lemma CutNowhere(s: string, mark: char)
    requires mark !in s
    ensures Cut(s, mark) == (s, None)
  {
    NotIn(s, mark);
  }

  lemma CutLastAt(a: string, mark: char, b: string)
    requires mark !in b
    ensures CutLast(a + [mark] + b, mark) == (a, b)
  {
    LastIndexOfLast(a, mark, b);
    var s := a + [mark] + b;
    assert s[..|a|] == a && s[|a| + 1..] == b;
  }

  // ── Hosts and ports ──────────────────────────────────────────────────────

  function FormatUriHost(host: string): string {
    if host != "" && host[0] == '[' && host[|host| - 1] == ']' then host
    else if ':' in host then "[" + host + "]" else host
  }

  predicate PlainHost(h: string) {
    h != "" && forall c <- h :: c != '#' && c != '?' && c != '@' && c != '[' && c != ']'
  }

  predicate Bracketed(h: string) {
    |h| > 2 && h[0] == '[' && h[|h| - 1] == ']' && PlainHost(h[1..|h| - 1])
  }

  // A name or an address, possibly in brackets.
  predicate GoodHost(h: string) {
    PlainHost(h) || Bracketed(h)
  }

  function Bare(h: string): string {
    if Bracketed(h) then h[1..|h| - 1] else h
  }

  function IsPort(p: Platform, text: string): Option<nat> {
    var n := p.number(text);
    if n.Some? && 1 <= n.value <= 65535 then Some(n.value) else None
  }

  function ParseHostPort(p: Platform, value: string): Option<(string, nat)> {
    if value != "" && value[0] == '[' then
      var closing := IndexOf(value, ']');
      if closing <= 1 || closing + 1 >= |value| || value[closing + 1] != ':' then None
      else
        var port := IsPort(p, value[closing + 2..]);
        if port.Some? then Some((value[1..closing], port.value)) else None
    else
      var colon := LastIndexOf(value, ':');
      if colon <= 0 then None
      else
        var port := IsPort(p, value[colon + 1..]);
        if port.Some? then Some((value[..colon], port.value)) else None
  }

  function Authority(host: string, port: nat): string {
    FormatUriHost(host) + ":" + Decimal(port)
  }

  lemma BracketsRead(p: Platform, inner: string, port: string)
    requires PlainHost(inner)
    ensures ParseHostPort(p, "[" + inner + "]:" + port) ==
            if IsPort(p, port).Some? then Some((inner, IsPort(p, port).value)) else None
  {
    var v := "[" + inner + "]:" + port;
    assert v == ("[" + inner) + [']'] + (":" + port);
    assert ']' !in "[" + inner;
    IndexOfFirst("[" + inner, ']', ":" + port);
    var closing := |inner| + 1;
    assert v[1..closing] == inner && v[closing + 1] == ':' && v[closing + 2..] == port;
  }

  lemma NameRead(p: Platform, host: string, port: string)
    requires PlainHost(host) && ':' !in host && ':' !in port
    ensures ParseHostPort(p, host + ":" + port) ==
            if IsPort(p, port).Some? then Some((host, IsPort(p, port).value)) else None
  {
    var v := host + ":" + port;
    assert v == host + [':'] + port;
    LastIndexOfLast(host, ':', port);
    assert v[0] == host[0] && host[0] in host;
    assert v[..|host|] == host && v[|host| + 1..] == port;
  }

  function ExpectedPort(host: string, port: nat): Option<(string, nat)> {
    if 1 <= port <= 65535 then Some((Bare(host), port)) else None
  }

  lemma DigitsOnly(n: nat)
    ensures forall c <- Decimal(n) :: IsDigit(c)
  {
  }

  // Any printed host and port is read back, IPv6 addresses without their brackets.
  lemma HostPortRoundTrip(p: Platform, host: string, port: nat)
    requires Lawful(p) && GoodHost(host)
    ensures ParseHostPort(p, Authority(host, port)) == ExpectedPort(host, port)
  {
    DigitsOnly(port);
    if Bracketed(host) {
      assert host == "[" + Bare(host) + "]";
      assert Authority(host, port) == "[" + Bare(host) + "]:" + Decimal(port);
      BracketsRead(p, Bare(host), Decimal(port));
    } else {
      assert host[0] in host;
      if ':' in host {
        assert Authority(host, port) == "[" + host + "]:" + Decimal(port);
        BracketsRead(p, host, Decimal(port));
      } else {
        NameRead(p, host, Decimal(port));
      }
    }
  }

  lemma AuthorityIsPlain(host: string, port: nat)
    requires GoodHost(host)
    ensures forall c <- Authority(host, port) :: c != '#' && c != '?' && c != '@'
  {
    DigitsOnly(port);
    if Bracketed(host) {
      assert host == "[" + Bare(host) + "]";
    }
  }

  // ── Names ────────────────────────────────────────────────────────────────

  function SafeDecode(s: string): string {
    DecodeComponent(s).GetOr(s)
  }

  function ParseName(fragment: Option<string>): string {
    if fragment.GetOr("") == "" then DEFAULT_NAME
    else if SafeDecode(fragment.value) == "" then DEFAULT_NAME else SafeDecode(fragment.value)
  }

  function ExpectedName(name: string): string {
    if name == "" then DEFAULT_NAME else name
  }

  lemma NameRoundTrip(name: string)
    ensures ParseName(Some(EncodeComponent(name))) == ExpectedName(name)
  {
    ComponentRoundTrip(name);
    EncodedIsPlain(name);
  }

  // ── The parts of a URI ───────────────────────────────────────────────────

  datatype Parts = Parts(user: string, hostPort: string, query: string, fragment: Option<string>)

  // Behind the scheme: fragment, query, user.
  function Dissect(rest: string): Parts {
    var (main, fragment) := Cut(rest, '#');
    var (hostPart, query) := Cut(main, '?');
    var (user, hostPort) := CutLast(hostPart, '@');
    Parts(user, hostPort, query.GetOr(""), fragment)
  }

  function Compose(user: string, hostPort: string, query: Option<string>, fragment: string): string {
    user + "@" + hostPort + (if query.Some? then "?" + query.value else "") + "#" + fragment
  }

  predicate Free(s: string, mark: char) {
    mark !in s
  }

  lemma DissectComposed(user: string, hostPort: string, query: Option<string>, fragment: string)
    requires '#' !in user && '?' !in user && '#' !in hostPort && '?' !in hostPort && '@' !in hostPort
    requires '#' !in query.GetOr("")
    ensures Dissect(Compose(user, hostPort, query, fragment)) == Parts(user, hostPort, query.GetOr(""), Some(fragment))
  {
    var hostPart := user + "@" + hostPort;
    var main := hostPart + if query.Some? then "?" + query.value else "";
    assert Compose(user, hostPort, query, fragment) == main + ['#'] + fragment;
    CutAt(main, '#', fragment);
    if query.Some? {
      assert main == hostPart + ['?'] + query.value;
      CutAt(hostPart, '?', query.value);
    } else {
      CutNowhere(hostPart, '?');
      assert main == hostPart;
    }
    assert hostPart == user + ['@'] + hostPort;
    CutLastAt(user, '@', hostPort);
  }

  lemma {:induction false} EncodedHasNoMark(s: string)
    ensures forall c <- EncodeComponent(s) ::
      c != '#' && c != '?' && c != '@' && c != ':' && c != '/' && !IsControl(c) && !IsSpace(c)
  {
    EncodedIsPlain(s);
  }

  lemma QueryHasNoMark(ps: Params)
    ensures forall c <- Serialize(ps) :: c != '#' && !IsSpace(c)
  {
    SerializedIsPlain(ps);
    forall c <- Serialize(ps)
      ensures c != '#' && !IsSpace(c)
    {
      FormPlainIsNoMark(c);
    }
  }

  lemma FormPlainIsNoMark(c: char)
    requires FormPlain(c) || c == '=' || c == '&'
    ensures c != '#' && !IsSpace(c)
  {
  }

  // ── Query parameters ─────────────────────────────────────────────────────

  function NetOf(t: Transport): string {
    match t
    case RAW => "tcp"
    case WS => "ws"
    case GRPC => "grpc"
    case QUIC => "quic"
    case XHTTP => "xhttp"
  }

  function LowerChar(c: char): char {
    if 'A' <= c <= 'Z' then 'a' + (c - 'A') else c
  }

  function Lower(s: string): string {
    seq(|s|, i requires 0 <= i < |s| => LowerChar(s[i]))
  }

  // tcp and anything unknown is no transport.
  function ParseTransport(value: string): Option<Transport> {
    var net := Lower(value);
    if net == "ws" then Some(WS)
    else if net == "grpc" then Some(GRPC)
    else if net == "quic" then Some(QUIC)
    else if net == "xhttp" then Some(XHTTP)
    else None
  }

  function XhttpMode(v: Option<string>): Option<string> {
    var mode := Truthy(v).GetOr("auto");
    if mode == "auto" || mode == "packet-up" || mode == "stream-up" || mode == "stream-one" then Some(mode) else None
  }

  // None where the original throws.
  function XhttpHost(v: Option<string>): Option<Option<string>> {
    if Truthy(v).None? then Some(None)
    else if v.value != Trim(v.value) || !NoControl(v.value) then None
    else Some(v)
  }

  predicate XhttpExtraOk(p: Platform, v: Option<string>) {
    v.Some? ==> |Encode(v.value)| <= 16384 && p.isJsonObject(v.value)
  }

  function XhttpPath(v: Option<string>): string {
    var path := Trim(v.GetOr(""));
    if path == "" then "/" else if path[0] == '/' then path else "/" + path
  }

  // What the transport of a node demands of its credentials.
  predicate TransportOk(p: Platform, n: Node) {
    n.transport == XHTTP ==>
      XhttpMode(Cred(n, "xhttpMode")).Some? && XhttpHost(Cred(n, "xhttpHost")).Some?
        && XhttpExtraOk(p, Cred(n, "xhttpExtra"))
  }

  // The host header of a WebSocket.
  function WsHost(n: Node): Option<string> {
    Truthy(if Cred(n, "transportHost").Some? then Cred(n, "transportHost") else n.domain)
  }

  function SetIf(ps: Params, name: string, value: Option<string>): Params {
    if value.Some? then Set(ps, name, value.value) else ps
  }

  function AddTransportParams(ps: Params, n: Node): Params {
    var typed := Set(ps, "type", NetOf(n.transport));
    match n.transport
    case WS => SetIf(Set(typed, "path", Truthy(Cred(n, "path")).GetOr("/")), "host", WsHost(n))
    case GRPC => Set(typed, "serviceName", Cred(n, "path").GetOr("grpc"))
    case XHTTP =>
      SetIf(Set(SetIf(Set(typed, "path", XhttpPath(Cred(n, "path"))), "host", Truthy(Cred(n, "xhttpHost"))),
                "mode", XhttpMode(Cred(n, "xhttpMode")).GetOr("")),
            "extra", Cred(n, "xhttpExtra"))
    case _ => typed
  }

  function AddTlsParams(ps: Params, n: Node): Params {
    match n.tls
    case TLS => SetIf(Set(ps, "security", "tls"), "sni", Truthy(n.domain))
    case REALITY =>
      Set(Set(Set(Set(Set(ps, "security", "reality"), "pbk", Cred(n, "realityPublicKey").GetOr("")),
                  "sid", Cred(n, "shortId").GetOr("")), "fp", "chrome"), "sni", n.domain.GetOr(DEFAULT_SNI))
    case PLAIN => Set(ps, "security", "none")
  }

  // What is to be read back of a transport.
  function PathOf(n: Node): string {
    match n.transport
    case WS => Truthy(Cred(n, "path")).GetOr("/")
    case GRPC => Cred(n, "path").GetOr("grpc")
    case XHTTP => XhttpPath(Cred(n, "path"))
    case _ => ""
  }

  function HostOf(n: Node): Option<string> {
    match n.transport
    case WS => WsHost(n)
    case XHTTP => Truthy(Cred(n, "xhttpHost"))
    case _ => None
  }

  function SniOf(n: Node): Option<string> {
    match n.tls
    case TLS => Truthy(n.domain)
    case REALITY => Some(n.domain.GetOr(DEFAULT_SNI))
    case PLAIN => None
  }

  lemma GetAfterSetIf(ps: Params, name: string, value: Option<string>, other: string)
    ensures Get(SetIf(ps, name, value), other) == if other == name && value.Some? then value else Get(ps, other)
  {
    if value.Some? {
      GetAfterSet(ps, name, value.value, other);
    }
  }

  // A name that the transport does not set.
  predicate NotOfTransport(name: string) {
    name != "type" && name != "path" && name != "host" && name != "serviceName" && name != "mode" && name != "extra"
  }

  lemma TransportGets(ps: Params, n: Node, name: string)
    requires Get(ps, "path") == Get(ps, "host") == Get(ps, "serviceName") == Get(ps, "mode") == Get(ps, "extra") == None
    ensures var r := AddTransportParams(ps, n);
      && Get(r, "type") == Some(NetOf(n.transport))
      && Get(r, "path") == (if n.transport == WS || n.transport == XHTTP then Some(PathOf(n)) else None)
      && Get(r, "serviceName") == (if n.transport == GRPC then Some(PathOf(n)) else None)
      && Get(r, "host") == HostOf(n)
      && (NotOfTransport(name) ==> Get(r, name) == Get(ps, name))
  {
    forall other: string
      ensures Get(Set(ps, "type", NetOf(n.transport)), other) == if other == "type" then Some(NetOf(n.transport))
        else Get(ps, other)
    {
      GetAfterSet(ps, "type", NetOf(n.transport), other);
    }
    match n.transport
    case WS => WsGets(Set(ps, "type", NetOf(n.transport)), n, name);
    case GRPC => GrpcGets(Set(ps, "type", NetOf(n.transport)), n, name);
    case XHTTP => XhttpGets(Set(ps, "type", NetOf(n.transport)), n, name);
    case _ =>
  }

  lemma WsGets(typed: Params, n: Node, name: string)
    requires n.transport == WS && Get(typed, "host").None? && Get(typed, "serviceName").None?
    ensures var r := SetIf(Set(typed, "path", Truthy(Cred(n, "path")).GetOr("/")), "host", WsHost(n));
      && Get(r, "path") == Some(PathOf(n)) && Get(r, "host") == WsHost(n) && Get(r, "type") == Get(typed, "type")
      && Get(r, "serviceName").None? && (NotOfTransport(name) ==> Get(r, name) == Get(typed, name))
  {
    var pathed := Set(typed, "path", Truthy(Cred(n, "path")).GetOr("/"));
    forall other: string
      ensures Get(SetIf(pathed, "host", WsHost(n)), other) ==
              if other == "host" && WsHost(n).Some? then WsHost(n) else if other == "path" then Some(PathOf(n))
                else Get(typed, other)
    {
      GetAfterSet(typed, "path", PathOf(n), other);
      GetAfterSetIf(pathed, "host", WsHost(n), other);
    }
  }

  lemma GrpcGets(typed: Params, n: Node, name: string)
    requires n.transport == GRPC && Get(typed, "path").None? && Get(typed, "host").None?
    ensures var r := Set(typed, "serviceName", Cred(n, "path").GetOr("grpc"));
      && Get(r, "serviceName") == Some(PathOf(n)) && Get(r, "host").None? && Get(r, "path").None?
        && Get(r, "type") == Get(typed, "type")
      && (NotOfTransport(name) ==> Get(r, name) == Get(typed, name))
  {
    forall other: string
      ensures Get(Set(typed, "serviceName", PathOf(n)), other) == if other == "serviceName" then Some(PathOf(n))
        else Get(typed, other)
    {
      GetAfterSet(typed, "serviceName", PathOf(n), other);
    }
  }

  function XhttpParams(typed: Params, n: Node): Params {
    SetIf(Set(SetIf(Set(typed, "path", XhttpPath(Cred(n, "path"))), "host", Truthy(Cred(n, "xhttpHost"))),
              "mode", XhttpMode(Cred(n, "xhttpMode")).GetOr("")),
          "extra", Cred(n, "xhttpExtra"))
  }

  lemma XhttpGet(typed: Params, n: Node, other: string)
    requires n.transport == XHTTP && Get(typed, "host").None? && Get(typed, "extra").None?
    ensures Get(XhttpParams(typed, n), other) ==
      if other == "extra" then Cred(n, "xhttpExtra")
      else if other == "mode" then Some(XhttpMode(Cred(n, "xhttpMode")).GetOr(""))
      else if other == "host" then HostOf(n)
      else if other == "path" then Some(PathOf(n))
      else Get(typed, other)
  {
    var pathed := Set(typed, "path", PathOf(n));
    var hosted := SetIf(pathed, "host", HostOf(n));
    var moded := Set(hosted, "mode", XhttpMode(Cred(n, "xhttpMode")).GetOr(""));
    GetAfterSet(typed, "path", PathOf(n), other);
    GetAfterSetIf(pathed, "host", HostOf(n), other);
    GetAfterSet(hosted, "mode", XhttpMode(Cred(n, "xhttpMode")).GetOr(""), other);
    GetAfterSetIf(moded, "extra", Cred(n, "xhttpExtra"), other);
  }

  lemma XhttpGets(typed: Params, n: Node, name: string)
    requires n.transport == XHTTP && Get(typed, "host").None? && Get(typed, "extra").None?
      && Get(typed, "serviceName").None?
    ensures var r := XhttpParams(typed, n);
      && Get(r, "path") == Some(PathOf(n)) && Get(r, "host") == HostOf(n) && Get(r, "type") == Get(typed, "type")
      && Get(r, "serviceName").None? && (NotOfTransport(name) ==> Get(r, name) == Get(typed, name))
      && Get(r, "mode") == Some(XhttpMode(Cred(n, "xhttpMode")).GetOr("")) && Get(r, "extra") == Cred(n, "xhttpExtra")
  {
    XhttpGet(typed, n, "path");
    XhttpGet(typed, n, "host");
    XhttpGet(typed, n, "type");
    XhttpGet(typed, n, "serviceName");
    XhttpGet(typed, n, "mode");
    XhttpGet(typed, n, "extra");
    XhttpGet(typed, n, name);
  }

  // mode and extra are only read of an XHTTP node.
  lemma XhttpOnly(ps: Params, n: Node)
    requires n.transport == XHTTP
    requires Get(ps, "path") == Get(ps, "host") == Get(ps, "serviceName") == Get(ps, "mode") == Get(ps, "extra") == None
    ensures Get(AddTransportParams(ps, n), "mode") == Some(XhttpMode(Cred(n, "xhttpMode")).GetOr(""))
    ensures Get(AddTransportParams(ps, n), "extra") == Cred(n, "xhttpExtra")
  {
    var typed := Set(ps, "type", NetOf(n.transport));
    GetAfterSet(ps, "type", NetOf(n.transport), "host");
    GetAfterSet(ps, "type", NetOf(n.transport), "extra");
    GetAfterSet(ps, "type", NetOf(n.transport), "serviceName");
    XhttpGets(typed, n, "mode");
  }

  function SecurityName(t: Security): string {
    match t
    case TLS => "tls"
    case REALITY => "reality"
    case PLAIN => "none"
  }

  // A name that the security part does not set.
  predicate NotOfTls(name: string) {
    name != "security" && name != "sni" && name != "pbk" && name != "sid" && name != "fp"
  }

  lemma TlsGets(ps: Params, n: Node, name: string)
    requires Get(ps, "sni") == Get(ps, "pbk") == Get(ps, "sid") == None
    ensures var r := AddTlsParams(ps, n);
      && Get(r, "security") == Some(SecurityName(n.tls)) && Get(r, "sni") == SniOf(n)
      && Get(r, "pbk") == (if n.tls == REALITY then Some(Cred(n, "realityPublicKey").GetOr("")) else None)
      && Get(r, "sid") == (if n.tls == REALITY then Some(Cred(n, "shortId").GetOr("")) else None)
      && (NotOfTls(name) ==> Get(r, name) == Get(ps, name))
  {
    TlsGet(ps, n, "security");
    TlsGet(ps, n, "sni");
    TlsGet(ps, n, "pbk");
    TlsGet(ps, n, "sid");
    TlsGet(ps, n, name);
  }

  lemma TlsGet(ps: Params, n: Node, other: string)
    requires Get(ps, "sni") == None
    ensures Get(AddTlsParams(ps, n), other) ==
      if other == "security" then Some(SecurityName(n.tls))
      else if other == "sni" then SniOf(n)
      else if n.tls == REALITY && other == "pbk" then Some(Cred(n, "realityPublicKey").GetOr(""))
      else if n.tls == REALITY && other == "sid" then Some(Cred(n, "shortId").GetOr(""))
      else if n.tls == REALITY && other == "fp" then Some("chrome")
      else Get(ps, other)
  {
    var secured := Set(ps, "security", SecurityName(n.tls));
    GetAfterSet(ps, "security", SecurityName(n.tls), other);
    GetAfterSet(ps, "security", SecurityName(n.tls), "sni");
    if n.tls == TLS {
      GetAfterSetIf(secured, "sni", Truthy(n.domain), other);
    } else if n.tls == REALITY {
      var pbk := Set(secured, "pbk", Cred(n, "realityPublicKey").GetOr(""));
      var sid := Set(pbk, "sid", Cred(n, "shortId").GetOr(""));
      var fp := Set(sid, "fp", "chrome");
      GetAfterSet(secured, "pbk", Cred(n, "realityPublicKey").GetOr(""), other);
      GetAfterSet(pbk, "sid", Cred(n, "shortId").GetOr(""), other);
      GetAfterSet(sid, "fp", "chrome", other);
      GetAfterSet(fp, "sni", n.domain.GetOr(DEFAULT_SNI), other);
    }
  }

  lemma TransportRead(t: Transport)
    ensures ParseTransport(NetOf(t)) == if t == RAW then None else Some(t)
  {
    assert Lower("tcp") == "tcp" && Lower("ws") == "ws" && Lower("grpc") == "grpc";
    assert Lower("quic") == "quic" && Lower("xhttp") == "xhttp";
  }

  // ── Printing ─────────────────────────────────────────────────────────────

  // The ALPN of a managed CDN profile; None where the original throws.
  function CfAlpn(n: Node): Option<string> {
    var mode, alpn := Cred(n, "xhttpMode").GetOr("packet-up"), Cred(n, "xhttpAlpn").GetOr("h2");
    if (mode != "packet-up" && mode != "stream-up") || (alpn != "h2" && alpn != "h3")
      || (alpn == "h3" && mode != "packet-up") then None
    else Some(alpn)
  }

  predicate NeedsAlpn(n: Node) {
    n.transport == XHTTP && n.tls == TLS && n.cfGroup
  }

  function VlessParams(n: Node): Params {
    var start: Params := [("encryption", "none")];
    var flow := if n.tls == REALITY && n.transport != XHTTP then Set(start, "flow", FLOW) else start;
    var ps := AddTlsParams(AddTransportParams(flow, n), n);
    if NeedsAlpn(n) then Set(ps, "alpn", CfAlpn(n).GetOr("")) else ps
  }

  function TrojanParams(n: Node): Params {
    AddTlsParams(AddTransportParams([], n), n)
  }

  function Hysteria2Params(n: Node): Params {
    SetIf([], "sni", Truthy(n.domain))
  }

  function QueryOf(ps: Params): Option<string> {
    Truthy(Some(Serialize(ps)))
  }

  function SsUser(n: Node): string {
    Cred(n, "method").GetOr("aes-256-gcm") + ":" + Cred(n, "password").GetOr("")
  }

  function EncodedPassword(n: Node): string {
    EncodeComponent(Cred(n, "password").GetOr(""))
  }

  function SocksUser(n: Node): string {
    if Cred(n, "username").None? then ""
    else EncodeComponent(Cred(n, "username").value) + ":" + EncodedPassword(n) + "@"
  }

  function SocksRest(n: Node): string {
    SocksUser(n) + Authority(n.host, n.port) + "#" + EncodeComponent(n.name)
  }

  // None where the original throws.
  function BuildShareUri(p: Platform, n: Node): Option<string> {
    var tag, authority := EncodeComponent(n.name), Authority(n.host, n.port);
    match n.protocol
    case VLESS =>
      if !TransportOk(p, n) || (NeedsAlpn(n) && CfAlpn(n).None?) then None
      else Some("vless://" + Compose(Cred(n, "uuid").GetOr(""), authority, Some(Serialize(VlessParams(n))), tag))
    case TROJAN =>
      if !TransportOk(p, n) then None
      else Some("trojan://" + Compose(EncodedPassword(n), authority, QueryOf(TrojanParams(n)), tag))
    case SHADOWSOCKS => Some("ss://" + Compose(Encode64(Encode(SsUser(n))), authority, None, tag))
    case HYSTERIA2 => Some("hy2://" + Compose(EncodedPassword(n), authority, QueryOf(Hysteria2Params(n)), tag))
    case SOCKS5 => Some("socks5://" + SocksRest(n))
  }

  // ── Parsing ──────────────────────────────────────────────────────────────

  function Blank(protocol: Protocol, name: string, address: string, port: nat, tls: Security): External {
    External(name, protocol, address, port, None, None, None, None, None, None, tls, None, None, None, None, None, None,
      None)
  }

  // The fields of XHTTP; None where the original refuses the URI.
  function ParseXhttp(p: Platform, q: Params): Option<(string, Option<string>, Option<string>)> {
    var mode, host, extra := XhttpMode(Get(q, "mode")), XhttpHost(Get(q, "host")), Get(q, "extra");
    if mode.None? || host.None? || !XhttpExtraOk(p, extra) then None else Some((mode.value, host.value, extra))
  }

  function WithXhttp(p: Platform, q: Params, e: External): Option<External> {
    if e.transport != Some(XHTTP) then Some(e)
    else
      var x := ParseXhttp(p, q);
      if x.None? then None else Some(e.(xhttpMode := Some(x.value.0), xhttpHost := x.value.1, xhttpExtra := x.value.2))
  }

  function ParseVless(p: Platform, rest: string): Option<External> {
    var parts := Dissect(rest);
    var hostPort := ParseHostPort(p, parts.hostPort);
    if hostPort.None? then None
    else
      var q := ParseQuery(parts.query, p.repair);
      var security, transport := Get(q, "security").GetOr(""), ParseTransport(Get(q, "type").GetOr("tcp"));
      var tls := if security == "tls" then TLS else if security == "reality" then REALITY else PLAIN;
      var e := Blank(VLESS, ParseName(parts.fragment), hostPort.value.0, hostPort.value.1, tls)
      .(uuid := Some(parts.user), transport := transport, realityPublicKey := Get(q, "pbk"), shortId := Get(q, "sid"),
        sni := if Get(q, "sni").Some? then Get(q, "sni") else if transport == Some(XHTTP) then None
          else Some(Get(q, "host").GetOr("")),
        path := Some(if Get(q, "path").Some? then Get(q, "path").value else Get(q, "serviceName").GetOr("")),
        transportHost := if transport == Some(WS) then Get(q, "host") else None);
      WithXhttp(p, q, e)
  }

  function ParseTrojan(p: Platform, rest: string): Option<External> {
    var parts := Dissect(rest);
    var hostPort := ParseHostPort(p, parts.hostPort);
    if hostPort.None? then None
    else
      var q := ParseQuery(parts.query, p.repair);
      var security, transport := Get(q, "security").GetOr("tls"), ParseTransport(Get(q, "type").GetOr("tcp"));
      var e := Blank(TROJAN, ParseName(parts.fragment), hostPort.value.0, hostPort.value.1,
        if security == "none" then PLAIN else TLS)
      .(password := Some(SafeDecode(parts.user)), transport := transport, sni := Some(Get(q, "sni").GetOr("")),
        path := Some(if Get(q, "path").Some? then Get(q, "path").value else Get(q, "serviceName").GetOr("")),
        transportHost := if transport == Some(WS) then Get(q, "host") else None);
      WithXhttp(p, q, e)
  }

  function ParseHysteria2(p: Platform, rest: string): Option<External> {
    var parts := Dissect(rest);
    var hostPort := ParseHostPort(p, parts.hostPort);
    if hostPort.None? then None
    else
      var q := ParseQuery(parts.query, p.repair);
      Some(Blank(HYSTERIA2, ParseName(parts.fragment), hostPort.value.0, hostPort.value.1, TLS)
           .(password := Some(SafeDecode(parts.user)), sni := Some(Get(q, "sni").GetOr(""))))
  }

  function SafeDecodeBase64(p: Platform, s: string): string {
    Repaired(Decode64(s), p.repair)
  }

  function ParseShadowsocks(p: Platform, rest: string): Option<External> {
    var (main, fragment) := Cut(rest, '#');
    if '@' in main then
      var (user, hostPort) := CutLast(main, '@');
      var (cipher, password) := Cut(SafeDecodeBase64(p, user), ':');
      var at := ParseHostPort(p, hostPort);
      if at.None? then None
      else Some(Blank(SHADOWSOCKS, ParseName(fragment), at.value.0, at.value.1, PLAIN)
                .(cipher := Some(cipher), password := Some(password.GetOr(""))))
    else
      // The legacy form: everything is inside the Base64.
      var decoded := SafeDecodeBase64(p, main);
      var (front, behind) := Cut(decoded, ':');
      var rest := if behind.Some? then behind.value else decoded;
      var (password, hostPort) := if '@' in rest then CutLast(rest, '@') else (rest, "");
      var at := ParseHostPort(p, hostPort);
      if at.None? then None
      else Some(Blank(SHADOWSOCKS, ParseName(fragment), at.value.0, at.value.1, PLAIN)
                .(cipher := Some(if behind.Some? then front else ""), password := Some(password)))
  }

  // ── What is read back ────────────────────────────────────────────────────

  // The parameters of a transport and a security, as a reader looks them up.
  ghost predicate Shows(q: Params, n: Node) {
    && Get(q, "type") == Some(NetOf(n.transport))
    && Get(q, "path") == (if n.transport == WS || n.transport == XHTTP then Some(PathOf(n)) else None)
    && Get(q, "serviceName") == (if n.transport == GRPC then Some(PathOf(n)) else None)
    && Get(q, "host") == HostOf(n)
    && (n.transport == XHTTP ==>
       Get(q, "mode") == Some(XhttpMode(Cred(n, "xhttpMode")).GetOr("")) && Get(q, "extra") == Cred(n, "xhttpExtra"))
    && Get(q, "security") == Some(SecurityName(n.tls)) && Get(q, "sni") == SniOf(n)
    && Get(q, "pbk") == (if n.tls == REALITY then Some(Cred(n, "realityPublicKey").GetOr("")) else None)
    && Get(q, "sid") == (if n.tls == REALITY then Some(Cred(n, "shortId").GetOr("")) else None)
  }

  // Nothing that a transport or a security sets is there yet.
  ghost predicate Untouched(ps: Params) {
    && Get(ps, "path") == Get(ps, "host") == Get(ps, "serviceName") == Get(ps, "mode") == Get(ps, "extra") == None
    && Get(ps, "sni") == Get(ps, "pbk") == Get(ps, "sid") == None
  }

  lemma TransportShows(ps: Params, n: Node)
    requires Untouched(ps)
    ensures var r := AddTransportParams(ps, n);
      && Get(r, "type") == Some(NetOf(n.transport))
      && Get(r, "path") == (if n.transport == WS || n.transport == XHTTP then Some(PathOf(n)) else None)
      && Get(r, "serviceName") == (if n.transport == GRPC then Some(PathOf(n)) else None)
      && Get(r, "host") == HostOf(n)
      && (n.transport == XHTTP ==>
         Get(r, "mode") == Some(XhttpMode(Cred(n, "xhttpMode")).GetOr("")) && Get(r, "extra") == Cred(n, "xhttpExtra"))
      && Get(r, "sni") == Get(r, "pbk") == Get(r, "sid") == None
  {
    TransportGets(ps, n, "sni");
    TransportGets(ps, n, "pbk");
    TransportGets(ps, n, "sid");
    if n.transport == XHTTP {
      XhttpOnly(ps, n);
    }
  }

  lemma BothShow(ps: Params, n: Node)
    requires Untouched(ps)
    ensures Shows(AddTlsParams(AddTransportParams(ps, n), n), n)
  {
    var r := AddTransportParams(ps, n);
    TransportShows(ps, n);
    TlsGets(r, n, "type");
    TlsGets(r, n, "path");
    TlsGets(r, n, "serviceName");
    TlsGets(r, n, "host");
    TlsGets(r, n, "mode");
    TlsGets(r, n, "extra");
  }

  lemma StillShows(q: Params, n: Node, name: string, value: string)
    requires Shows(q, n) && NotOfTransport(name) && NotOfTls(name)
    ensures Shows(Set(q, name, value), n)
  {
    GetAfterSet(q, name, value, "type");
    GetAfterSet(q, name, value, "path");
    GetAfterSet(q, name, value, "serviceName");
    GetAfterSet(q, name, value, "host");
    GetAfterSet(q, name, value, "mode");
    GetAfterSet(q, name, value, "extra");
    GetAfterSet(q, name, value, "security");
    GetAfterSet(q, name, value, "sni");
    GetAfterSet(q, name, value, "pbk");
    GetAfterSet(q, name, value, "sid");
  }

  lemma StartIsUntouched()
    ensures Untouched([("encryption", "none")]) && Untouched(Set([("encryption", "none")], "flow", FLOW))
  {
    var start: Params := [("encryption", "none")];
    forall other: string
      ensures Get(start, other) == (if other == "encryption" then Some("none") else None)
      ensures Get(Set(start, "flow", FLOW), other) == if other == "flow" then Some(FLOW) else Get(start, other)
    {
      assert start[1..] == [];
      GetAfterSet(start, "flow", FLOW, other);
    }
    assert |"encryption"| == 10 && "flow"[0] == 'f';
  }

  lemma VlessShows(n: Node)
    ensures Shows(VlessParams(n), n)
  {
    var start: Params := [("encryption", "none")];
    var flow := if n.tls == REALITY && n.transport != XHTTP then Set(start, "flow", FLOW) else start;
    StartIsUntouched();
    BothShow(flow, n);
    if NeedsAlpn(n) {
      StillShows(AddTlsParams(AddTransportParams(flow, n), n), n, "alpn", CfAlpn(n).GetOr(""));
    }
  }

  lemma TrojanShows(n: Node)
    ensures Shows(TrojanParams(n), n) && TrojanParams(n) != []
  {
    assert Untouched([]);
    BothShow([], n);
  }

  function ShownTransport(n: Node): Option<Transport> {
    if n.transport == RAW then None else Some(n.transport)
  }

  // The part that XHTTP adds, up to its default mode.
  function ExpectedXhttp(n: Node, e: External): External {
    if n.transport != XHTTP then e
    else e.(xhttpMode := XhttpMode(Cred(n, "xhttpMode")), xhttpHost := HostOf(n), xhttpExtra := Cred(n, "xhttpExtra"))
  }

  lemma XhttpRead(p: Platform, q: Params, n: Node, e: External)
    requires Shows(q, n) && TransportOk(p, n) && e.transport == ShownTransport(n)
    ensures WithXhttp(p, q, e) == Some(ExpectedXhttp(n, e))
  {
  }

  function ExpectedVless(n: Node): External {
    ExpectedXhttp(n, Blank(VLESS, ExpectedName(n.name), Bare(n.host), n.port, n.tls)
    .(uuid := Some(Cred(n, "uuid").GetOr("")), transport := ShownTransport(n),
      realityPublicKey := if n.tls == REALITY then Some(Cred(n, "realityPublicKey").GetOr("")) else None,
      shortId := if n.tls == REALITY then Some(Cred(n, "shortId").GetOr("")) else None,
      sni := if SniOf(n).Some? then SniOf(n) else if n.transport == XHTTP then None else Some(HostOf(n).GetOr("")),
      path := Some(PathOf(n)), transportHost := if n.transport == WS then HostOf(n) else None))
  }

  function ExpectedTrojan(n: Node): External {
    ExpectedXhttp(n, Blank(TROJAN, ExpectedName(n.name), Bare(n.host), n.port, if n.tls == PLAIN then PLAIN else TLS)
    .(password := Some(Cred(n, "password").GetOr("")), transport := ShownTransport(n), sni := Some(SniOf(n).GetOr("")),
      path := Some(PathOf(n)), transportHost := if n.transport == WS then HostOf(n) else None))
  }

  function ExpectedHysteria2(n: Node): External {
    Blank(HYSTERIA2, ExpectedName(n.name), Bare(n.host), n.port, TLS)
    .(password := Some(Cred(n, "password").GetOr("")), sni := Some(n.domain.GetOr("")))
  }

  function InRange(port: nat, e: External): Option<External> {
    if 1 <= port <= 65535 then Some(e) else None
  }

  lemma DissectBuilt(p: Platform, user: string, n: Node, query: Option<string>)
    requires Lawful(p) && GoodHost(n.host) && '#' !in user && '?' !in user && '#' !in query.GetOr("")
    ensures var parts := Dissect(Compose(user, Authority(n.host, n.port), query, EncodeComponent(n.name)));
      && parts.user == user && parts.query == query.GetOr("") && ParseName(parts.fragment) == ExpectedName(n.name)
      && ParseHostPort(p, parts.hostPort) == ExpectedPort(n.host, n.port)
  {
    AuthorityIsPlain(n.host, n.port);
    DissectComposed(user, Authority(n.host, n.port), query, EncodeComponent(n.name));
    NameRoundTrip(n.name);
    HostPortRoundTrip(p, n.host, n.port);
  }

  lemma VlessRoundTrip(p: Platform, n: Node)
    requires Lawful(p) && GoodHost(n.host) && TransportOk(p, n)
    requires '#' !in Cred(n, "uuid").GetOr("") && '?' !in Cred(n, "uuid").GetOr("")
    ensures ParseVless(p, Compose(Cred(n, "uuid").GetOr(""), Authority(n.host, n.port), Some(Serialize(VlessParams(n))),
      EncodeComponent(n.name)))
            == InRange(n.port, ExpectedVless(n))
  {
    var q := VlessParams(n);
    QueryHasNoMark(q);
    DissectBuilt(p, Cred(n, "uuid").GetOr(""), n, Some(Serialize(q)));
    QueryRoundTrip(q, p.repair);
    VlessShows(n);
    TransportRead(n.transport);
    VlessRead(p, q, n);
  }

  // The same, from the parameters on.
  lemma VlessRead(p: Platform, q: Params, n: Node)
    requires Shows(q, n) && TransportOk(p, n) && ParseTransport(NetOf(n.transport)) == ShownTransport(n)
    ensures var security, transport := Get(q, "security").GetOr(""), ParseTransport(Get(q, "type").GetOr("tcp"));
      var tls := if security == "tls" then TLS else if security == "reality" then REALITY else PLAIN;
      var e := Blank(VLESS, ExpectedName(n.name), Bare(n.host), n.port, tls)
      .(uuid := Some(Cred(n, "uuid").GetOr("")), transport := transport, realityPublicKey := Get(q, "pbk"),
        shortId := Get(q, "sid"),
        sni := if Get(q, "sni").Some? then Get(q, "sni") else if transport == Some(XHTTP) then None
          else Some(Get(q, "host").GetOr("")),
        path := Some(if Get(q, "path").Some? then Get(q, "path").value else Get(q, "serviceName").GetOr("")),
        transportHost := if transport == Some(WS) then Get(q, "host") else None);
      WithXhttp(p, q, e) == Some(ExpectedVless(n))
  {
    SecurityNamesDiffer();
    var e := Blank(VLESS, ExpectedName(n.name), Bare(n.host), n.port, n.tls)
    .(uuid := Some(Cred(n, "uuid").GetOr("")), transport := ShownTransport(n), realityPublicKey := Get(q, "pbk"),
      shortId := Get(q, "sid"),
      sni := if SniOf(n).Some? then SniOf(n) else if n.transport == XHTTP then None else Some(HostOf(n).GetOr("")),
      path := Some(PathOf(n)), transportHost := if n.transport == WS then HostOf(n) else None);
    XhttpRead(p, q, n, e);
  }

  lemma SecurityNamesDiffer()
    ensures "tls" != "reality" && "tls" != "none" && "reality" != "none"
  {
    assert "tls"[0] == 't' && "reality"[0] == 'r' && "none"[0] == 'n';
  }

  // The UUID is printed as it is: it comes back exactly if it holds no mark that
  // ends the user part.
  lemma VlessUuidIff(p: Platform, n: Node)
    requires Lawful(p) && GoodHost(n.host) && TransportOk(p, n) && 1 <= n.port <= 65535
    ensures var uuid := Cred(n, "uuid").GetOr("");
      var back := ParseVless(p, Compose(uuid, Authority(n.host, n.port), Some(Serialize(VlessParams(n))),
        EncodeComponent(n.name)));
      back.Some? && back.value.uuid == Some(uuid) <==> '#' !in uuid && '?' !in uuid
  {
    var uuid := Cred(n, "uuid").GetOr("");
    if '#' !in uuid && '?' !in uuid {
      VlessRoundTrip(p, n);
    } else {
      UserHasNoMark(Compose(uuid, Authority(n.host, n.port), Some(Serialize(VlessParams(n))), EncodeComponent(n.name)));
    }
  }

  lemma UserHasNoMark(rest: string)
    ensures '#' !in Dissect(rest).user && '?' !in Dissect(rest).user
  {
    var (main, _) := Cut(rest, '#');
    var (hostPart, _) := Cut(main, '?');
    assert '#' !in main;
    assert forall c <- hostPart :: c in main;
    assert '?' !in hostPart;
    assert forall c <- CutLast(hostPart, '@').0 :: c in hostPart;
  }

  lemma PasswordRead(password: string)
    ensures SafeDecode(EncodeComponent(password)) == password
    ensures '#' !in EncodeComponent(password) && '?' !in EncodeComponent(password)
  {
    ComponentRoundTrip(password);
    EncodedHasNoMark(password);
  }

  // REALITY is read as TLS: the format has no field for it.
  lemma TrojanRoundTrip(p: Platform, n: Node)
    requires Lawful(p) && GoodHost(n.host) && TransportOk(p, n)
    ensures ParseTrojan(p, Compose(EncodedPassword(n), Authority(n.host, n.port), QueryOf(TrojanParams(n)),
      EncodeComponent(n.name)))
            == InRange(n.port, ExpectedTrojan(n))
  {
    var q := TrojanParams(n);
    TrojanShows(n);
    QueryOfIs(q);
    PasswordRead(Cred(n, "password").GetOr(""));
    DissectBuilt(p, EncodedPassword(n), n, QueryOf(q));
    QueryRoundTrip(q, p.repair);
    TransportRead(n.transport);
    TrojanRead(p, q, n);
  }

  lemma TrojanRead(p: Platform, q: Params, n: Node)
    requires Shows(q, n) && TransportOk(p, n) && ParseTransport(NetOf(n.transport)) == ShownTransport(n)
    ensures var security, transport := Get(q, "security").GetOr("tls"), ParseTransport(Get(q, "type").GetOr("tcp"));
      var e := Blank(TROJAN, ExpectedName(n.name), Bare(n.host), n.port, if security == "none" then PLAIN else TLS)
      .(password := Some(Cred(n, "password").GetOr("")), transport := transport, sni := Some(Get(q, "sni").GetOr("")),
        path := Some(if Get(q, "path").Some? then Get(q, "path").value else Get(q, "serviceName").GetOr("")),
        transportHost := if transport == Some(WS) then Get(q, "host") else None);
      WithXhttp(p, q, e) == Some(ExpectedTrojan(n))
  {
    SecurityNamesDiffer();
    var e := Blank(TROJAN, ExpectedName(n.name), Bare(n.host), n.port, if n.tls == PLAIN then PLAIN else TLS)
    .(password := Some(Cred(n, "password").GetOr("")), transport := ShownTransport(n), sni := Some(SniOf(n).GetOr("")),
      path := Some(PathOf(n)), transportHost := if n.transport == WS then HostOf(n) else None);
    XhttpRead(p, q, n, e);
  }

  lemma Hysteria2RoundTrip(p: Platform, n: Node)
    requires Lawful(p) && GoodHost(n.host)
    ensures ParseHysteria2(p, Compose(EncodedPassword(n), Authority(n.host, n.port), QueryOf(Hysteria2Params(n)),
      EncodeComponent(n.name)))
            == InRange(n.port, ExpectedHysteria2(n))
  {
    PasswordRead(Cred(n, "password").GetOr(""));
    QueryOfIs(Hysteria2Params(n));
    DissectBuilt(p, EncodedPassword(n), n, QueryOf(Hysteria2Params(n)));
    QueryRoundTrip(Hysteria2Params(n), p.repair);
    Hysteria2Shows(n);
  }

  lemma Hysteria2Shows(n: Node)
    ensures Get(Hysteria2Params(n), "sni") == Truthy(n.domain)
  {
    GetAfterSetIf([], "sni", Truthy(n.domain), "sni");
  }

  lemma QueryOfIs(ps: Params)
    ensures QueryOf(ps).GetOr("") == Serialize(ps) && '#' !in QueryOf(ps).GetOr("")
  {
    QueryHasNoMark(ps);
  }

  // Method and password are split at the first colon.
  function ExpectedShadowsocks(n: Node): External {
    var (cipher, password) := Cut(SsUser(n), ':');
    Blank(SHADOWSOCKS, ExpectedName(n.name), Bare(n.host), n.port, PLAIN).(cipher := Some(cipher),
      password := Some(password.GetOr("")))
  }

  lemma ShadowsocksRoundTrip(p: Platform, n: Node)
    requires Lawful(p) && GoodHost(n.host)
    ensures ParseShadowsocks(p, Compose(Encode64(Encode(SsUser(n))), Authority(n.host, n.port), None,
      EncodeComponent(n.name)))
            == InRange(n.port, ExpectedShadowsocks(n))
  {
    var user, authority, tag := Encode64(Encode(SsUser(n))), Authority(n.host, n.port), EncodeComponent(n.name);
    var main := user + "@" + authority;
    EncodedInAlphabet(Encode(SsUser(n)));
    AuthorityIsPlain(n.host, n.port);
    assert Compose(user, authority, None, tag) == main + ['#'] + tag;
    CutAt(main, '#', tag);
    assert main == user + ['@'] + authority && main[|user|] == '@';
    CutLastAt(user, '@', authority);
    Base64RoundTrip(Encode(SsUser(n)));
    DecodeEncode(SsUser(n));
    NameRoundTrip(n.name);
    HostPortRoundTrip(p, n.host, n.port);
  }

  // Method and password come back exactly if the method holds no colon.
  lemma ShadowsocksMethodIff(n: Node)
    ensures var cipher, password := Cred(n, "method").GetOr("aes-256-gcm"), Cred(n, "password").GetOr("");
      (ExpectedShadowsocks(n).cipher == Some(cipher) && ExpectedShadowsocks(n).password == Some(password)) <==>
        ':' !in cipher
  {
    var cipher, password := Cred(n, "method").GetOr("aes-256-gcm"), Cred(n, "password").GetOr("");
    assert SsUser(n) == cipher + [':'] + password;
    if ':' !in cipher {
      CutAt(cipher, ':', password);
    } else {
      assert ':' !in Cut(SsUser(n), ':').0;
    }
  }

  // ── SOCKS5 ───────────────────────────────────────────────────────────────

  datatype SocksExit = SocksExit(host: string, port: nat, login: Option<(string, string)>, name: string)

  predicate StartsWith(s: string, prefix: string) {
    |prefix| <= |s| && s[..|prefix|] == prefix
  }

  // The length of the scheme, in any case.
  function SocksScheme(uri: string): Option<nat> {
    if StartsWith(Lower(uri), "socks://") then Some(8)
    else if StartsWith(Lower(uri), "socks5://") then Some(9)
    else None
  }

  predicate HostMark(c: char) {
    IsSpace(c) || c == '/' || c == '?' || c == '#' || c == '@' || c == '[' || c == ']'
  }

  // None where the original refuses the host.
  function SocksHost(p: Platform, raw: string): Option<string> {
    if raw == "" || Units(raw) > 253 || exists c <- raw :: HostMark(c) then None
    else if ':' in raw then (if p.isIp6(raw) then Some(raw) else None)
    else
      var host := if p.isIp4(raw) then raw else p.toAscii(raw);
      if host == "" || Units(host) > 253 then None else Some(host)
  }

  predicate Login(username: string, password: string) {
    username != "" && Units(username) <= 256 && Units(password) <= 1024 && NoControl(username) && NoControl(password)
  }

  // Base64 without its padding, in the standard alphabet.
  function Normalized(s: string): string {
    if s == "" then ""
    else (if s[0] == '=' then "" else if s[0] == '-' then "+" else if s[0] == '_' then "/"
       else [s[0]]) + Normalized(s[1..])
  }

  // username:password in Base64; None where the original throws.
  function Base64Login(value: string): Option<(string, string)> {
    var body := if |value| > 2 && value[|value| - 2..] == "==" then value[..|value| - 2]
                else if value != "" && value[|value| - 1] == '=' then value[..|value| - 1] else value;
    var bytes := Decode64(body);
    var text := Decode(bytes);
    if body == "" || (exists c <- body :: Sextet(c).None?) || bytes == [] || text.None?
      || Normalized(Encode64(bytes)) != Normalized(body) then None
    else
      var (username, password) := Cut(text.value, ':');
      if username == "" || password.None? then None else Some((username, password.value))
  }

  function ParseCredentials(user: string): Option<(string, string)> {
    var (front, behind) := Cut(user, ':');
    var login :=
      if behind.Some? then
        var username, password := DecodeComponent(front), DecodeComponent(behind.value);
        if username.Some? && password.Some? then Some((username.value, password.value)) else None
      else
        var decoded := DecodeComponent(user);
        if decoded.Some? then Base64Login(decoded.value) else None;
    if login.Some? && Login(login.value.0, login.value.1) then login else None
  }

  function SocksLabel(fragment: string): Option<string> {
    var note := DecodeComponent(fragment);
    if note.Some? && Units(note.value) <= 128 && NoControl(note.value) then note else None
  }

  function FormatHost(host: string): string {
    if ':' in host then "[" + host + "]" else host
  }

  function SocksName(note: string, host: string, port: nat): string {
    if note == "" then "SOCKS5 " + FormatHost(host) + ":" + Decimal(port) else note
  }

  // None where the original throws.
  function SocksFrom(p: Platform, user: string, hostPort: string, fragment: string): Option<SocksExit> {
    var at := ParseHostPort(p, hostPort);
    if '/' in hostPort || '?' in hostPort || at.None? then None
    else
      var host, note := SocksHost(p, at.value.0), SocksLabel(fragment);
      var login := if user == "" then None else ParseCredentials(user);
      if host.None? || note.None? || (user != "" && login.None?) then None
      else Some(SocksExit(host.value, at.value.1, login, SocksName(note.value, host.value, at.value.1)))
  }

  // Behind the scheme.
  function ParseSocksRest(p: Platform, rest: string): Option<SocksExit> {
    var (authority, fragment) := Cut(rest, '#');
    var (user, hostPort) := CutLast(authority, '@');
    if authority == "" then None else SocksFrom(p, user, hostPort, fragment.GetOr(""))
  }

  function ParseSocksUri(p: Platform, value: string): Option<SocksExit> {
    var uri := Trim(value);
    if uri == "" || Units(uri) > 4096 || !NoControl(uri) || SocksScheme(uri).None? then None
    else ParseSocksRest(p, uri[SocksScheme(uri).value..])
  }

  function ParseSocks(p: Platform, uri: string): Option<External> {
    var exit := ParseSocksUri(p, uri);
    if exit.None? then None
    else Some(Blank(SOCKS5, exit.value.name, exit.value.host, exit.value.port, PLAIN)
              .(username := if exit.value.login.Some? then Some(exit.value.login.value.0) else None,
                password := if exit.value.login.Some? then Some(exit.value.login.value.1) else None))
  }

  // What the parser demands, in terms of the node.
  ghost predicate SocksOk(p: Platform, n: Node) {
    SocksFits(p, n) && NoControl(n.host) && Units("socks5://" + SocksRest(n)) <= 4096
  }

  function ExpectedSocks(p: Platform, n: Node): External {
    Blank(SOCKS5, ExpectedExit(p, n).name, ExpectedExit(p, n).host, n.port, PLAIN)
    .(username := Cred(n, "username"), password := if Cred(n,
      "username").Some? then Some(Cred(n, "password").GetOr("")) else None)
  }

  lemma TrimmedAlready(s: string)
    requires s != "" && !IsSpace(s[0]) && !IsSpace(s[|s| - 1])
    ensures Trim(s) == s
  {
  }

  lemma CredentialsRead(username: string, password: string)
    ensures ParseCredentials(EncodeComponent(username) + ":" + EncodeComponent(password)) ==
            if Login(username, password) then Some((username, password)) else None
  {
    EncodedHasNoMark(username);
    ComponentRoundTrip(username);
    ComponentRoundTrip(password);
    assert EncodeComponent(username) + ":" + EncodeComponent(password)
      == EncodeComponent(username) + [':'] + EncodeComponent(password);
    CutAt(EncodeComponent(username), ':', EncodeComponent(password));
  }

  // The user part, its mark included.
  lemma UserCut(n: Node)
    requires GoodHost(n.host)
    ensures CutLast(SocksUser(n) + Authority(n.host, n.port), '@').1 == Authority(n.host, n.port)
    ensures var user := CutLast(SocksUser(n) + Authority(n.host, n.port), '@').0;
      user == if Cred(n, "username").None? then ""
        else EncodeComponent(Cred(n, "username").value) + ":" + EncodedPassword(n)
  {
    var authority := Authority(n.host, n.port);
    AuthorityIsPlain(n.host, n.port);
    if Cred(n, "username").None? {
      assert SocksUser(n) + authority == authority;
      NoLast(authority, '@');
    } else {
      var user := EncodeComponent(Cred(n, "username").value) + ":" + EncodedPassword(n);
      assert SocksUser(n) + authority == user + ['@'] + authority;
      CutLastAt(user, '@', authority);
    }
  }

  lemma NoLast(s: string, mark: char)
    requires mark !in s
    ensures CutLast(s, mark) == ("", s)
  {
    assert forall k :: 0 <= k < |s| ==> s[k] in s;
  }

  lemma SlashInAuthority(host: string, port: nat)
    requires GoodHost(host)
    ensures '/' in Authority(host, port) <==> '/' in Bare(host)
    ensures '?' !in Authority(host, port)
  {
    AuthorityIsPlain(host, port);
    DigitsOnly(port);
    if Bracketed(host) {
      assert host == "[" + Bare(host) + "]";
    }
  }

  // What the parser demands behind the scheme.
  predicate SocksFits(p: Platform, n: Node) {
    && 1 <= n.port <= 65535 && SocksHost(p, Bare(n.host)).Some? && Units(n.name) <= 128 && NoControl(n.name)
    && (Cred(n, "username").Some? ==> Login(Cred(n, "username").value, Cred(n, "password").GetOr("")))
  }

  function ExpectedExit(p: Platform, n: Node): SocksExit {
    var host := SocksHost(p, Bare(n.host)).GetOr("");
    SocksExit(host, n.port,
      if Cred(n, "username").Some? then Some((Cred(n, "username").value, Cred(n, "password").GetOr(""))) else None,
      SocksName(n.name, host, n.port))
  }

  function SocksUserBare(n: Node): string {
    if Cred(n, "username").None? then "" else EncodeComponent(Cred(n, "username").value) + ":" + EncodedPassword(n)
  }

  lemma LoginRead(n: Node)
    ensures Cred(n, "username").Some? ==>
      SocksUserBare(n) != "" && ParseCredentials(SocksUserBare(n)) ==
        if Login(Cred(n, "username").value, Cred(n, "password").GetOr(""))
        then Some((Cred(n, "username").value, Cred(n, "password").GetOr(""))) else None
  {
    if Cred(n, "username").Some? {
      CredentialsRead(Cred(n, "username").value, Cred(n, "password").GetOr(""));
    }
  }

  lemma LabelRead(name: string)
    ensures SocksLabel(EncodeComponent(name)) == if Units(name) <= 128 && NoControl(name) then Some(name) else None
  {
    ComponentRoundTrip(name);
  }

  lemma SlashIsRefused(p: Platform, host: string)
    ensures '/' in host ==> SocksHost(p, host).None?
  {
    assert HostMark('/');
  }

  lemma SocksFromRead(p: Platform, n: Node)
    requires Lawful(p) && GoodHost(n.host)
    ensures SocksFrom(p, SocksUserBare(n), Authority(n.host, n.port), EncodeComponent(n.name)) ==
            if SocksFits(p, n) then Some(ExpectedExit(p, n)) else None
  {
    HostPortRoundTrip(p, n.host, n.port);
    SlashInAuthority(n.host, n.port);
    SlashIsRefused(p, Bare(n.host));
    LabelRead(n.name);
    LoginRead(n);
  }

  lemma SocksRestRead(p: Platform, n: Node)
    requires Lawful(p) && GoodHost(n.host)
    ensures ParseSocksRest(p, SocksRest(n)) == if SocksFits(p, n) then Some(ExpectedExit(p, n)) else None
  {
    var authority, tag := SocksUser(n) + Authority(n.host, n.port), EncodeComponent(n.name);
    SocksUserPlain(n);
    AuthorityIsPlain(n.host, n.port);
    assert authority + "#" + tag == authority + ['#'] + tag;
    CutAt(authority, '#', tag);
    UserCut(n);
    SocksFromRead(p, n);
  }

  lemma SocksUserPlain(n: Node)
    ensures forall c <- SocksUser(n) :: c != '#' && !IsControl(c)
  {
    if Cred(n, "username").Some? {
      EncodedHasNoMark(Cred(n, "username").value);
      EncodedHasNoMark(Cred(n, "password").GetOr(""));
    }
  }

  lemma SchemeRead(rest: string)
    ensures SocksScheme("socks5://" + rest) == Some(9) && ("socks5://" + rest)[9..] == rest
  {
    var uri := "socks5://" + rest;
    assert Lower(uri)[5] == '5';
    NotScheme(Lower(uri), "socks://", 5);
    assert Lower(uri)[..9] == "socks5://";
  }

  lemma NotScheme(s: string, prefix: string, i: nat)
    requires i < |prefix| && (i < |s| ==> s[i] != prefix[i])
    ensures !StartsWith(s, prefix)
  {
  }

  lemma SocksUriRead(p: Platform, rest: string)
    requires rest != "" && !IsSpace(rest[|rest| - 1])
    ensures ParseSocksUri(p, "socks5://" + rest) ==
            if Units("socks5://" + rest) <= 4096 && NoControl("socks5://" + rest) then ParseSocksRest(p, rest) else None
  {
    TrimmedAlready("socks5://" + rest);
    SchemeRead(rest);
  }

  lemma SocksRestEnds(n: Node)
    ensures SocksRest(n) != "" && !IsSpace(SocksRest(n)[|SocksRest(n)| - 1])
  {
    var tag := EncodeComponent(n.name);
    EncodedHasNoMark(n.name);
    assert tag != "" ==> tag[|tag| - 1] in tag;
  }

  lemma ControlOfParts(a: string, b: string)
    ensures NoControl(a + b) <==> NoControl(a) && NoControl(b)
  {
    if NoControl(a + b) {
      assert forall c <- a :: c in a + b;
      assert forall c <- b :: c in a + b;
    }
  }

  lemma ControlOfAuthority(host: string, port: nat)
    requires GoodHost(host)
    ensures NoControl(Authority(host, port)) <==> NoControl(host)
  {
    DigitsOnly(port);
    ControlOfParts(FormatUriHost(host) + ":", Decimal(port));
    ControlOfParts(FormatUriHost(host), ":");
    ControlOfParts("[" + host, "]");
    ControlOfParts("[", host);
  }

  lemma ControlOfUri(n: Node)
    requires GoodHost(n.host)
    ensures NoControl("socks5://" + SocksRest(n)) <==> NoControl(n.host)
  {
    SocksUserPlain(n);
    EncodedHasNoMark(n.name);
    ControlOfParts("socks5://", SocksRest(n));
    ControlOfParts(SocksUser(n) + Authority(n.host, n.port) + "#", EncodeComponent(n.name));
    ControlOfParts(SocksUser(n) + Authority(n.host, n.port), "#");
    ControlOfParts(SocksUser(n), Authority(n.host, n.port));
    ControlOfAuthority(n.host, n.port);
  }

  // Read back exactly when it is within the parser's limits.
  lemma SocksRoundTrip(p: Platform, n: Node)
    requires Lawful(p) && GoodHost(n.host)
    ensures ParseSocks(p, "socks5://" + SocksRest(n)) == if SocksOk(p, n) then Some(ExpectedSocks(p, n)) else None
  {
    SocksRestEnds(n);
    SocksUriRead(p, SocksRest(n));
    SocksRestRead(p, n);
    ControlOfUri(n);
  }

  // ── Any share URI ────────────────────────────────────────────────────────

  // other stands for the schemes that are not part of this model.
  function ParseUri(p: Platform, uri: string, other: string -> Option<External>): Option<External> {
    var trimmed := Trim(uri);
    if StartsWith(trimmed, "vmess://") then other(trimmed)
    else if StartsWith(trimmed, "vless://") then ParseVless(p, trimmed[8..])
    else if StartsWith(trimmed, "ss://") then ParseShadowsocks(p, trimmed[5..])
    else if SocksScheme(trimmed).Some? then ParseSocks(p, trimmed)
    else if StartsWith(trimmed, "trojan://") then ParseTrojan(p, trimmed[9..])
    else if StartsWith(trimmed, "hysteria2://") then ParseHysteria2(p, trimmed[12..])
    else if StartsWith(trimmed, "hy2://") then ParseHysteria2(p, trimmed[6..])
    else other(trimmed)
  }

  ghost function Expected(p: Platform, n: Node): Option<External> {
    match n.protocol
    case VLESS => InRange(n.port, ExpectedVless(n))
    case TROJAN => InRange(n.port, ExpectedTrojan(n))
    case SHADOWSOCKS => InRange(n.port, ExpectedShadowsocks(n))
    case HYSTERIA2 => InRange(n.port, ExpectedHysteria2(n))
    case SOCKS5 => if SocksOk(p, n) then Some(ExpectedSocks(p, n)) else None
  }

  lemma DispatchedVless(p: Platform, rest: string, other: string -> Option<External>)
    requires rest != "" && !IsSpace(rest[|rest| - 1])
    ensures ParseUri(p, "vless://" + rest, other) == ParseVless(p, rest)
  {
    var uri := "vless://" + rest;
    TrimmedAlready(uri);
    NotScheme(uri, "vmess://", 1);
    assert uri[..8] == "vless://" && uri[8..] == rest;
  }

  lemma DispatchedSs(p: Platform, rest: string, other: string -> Option<External>)
    requires rest != "" && !IsSpace(rest[|rest| - 1])
    ensures ParseUri(p, "ss://" + rest, other) == ParseShadowsocks(p, rest)
  {
    var uri := "ss://" + rest;
    TrimmedAlready(uri);
    NotScheme(uri, "vmess://", 0);
    NotScheme(uri, "vless://", 0);
    assert uri[..5] == "ss://" && uri[5..] == rest;
  }

  lemma NotSocks(uri: string)
    requires uri != "" && LowerChar(uri[0]) != 's'
    ensures SocksScheme(uri).None?
  {
    NotScheme(Lower(uri), "socks://", 0);
    NotScheme(Lower(uri), "socks5://", 0);
  }

  lemma DispatchedTrojan(p: Platform, rest: string, other: string -> Option<External>)
    requires rest != "" && !IsSpace(rest[|rest| - 1])
    ensures ParseUri(p, "trojan://" + rest, other) == ParseTrojan(p, rest)
  {
    var uri := "trojan://" + rest;
    TrimmedAlready(uri);
    NotScheme(uri, "vmess://", 0);
    NotScheme(uri, "vless://", 0);
    NotScheme(uri, "ss://", 0);
    NotSocks(uri);
    assert uri[..9] == "trojan://" && uri[9..] == rest;
  }

  lemma DispatchedHy2(p: Platform, rest: string, other: string -> Option<External>)
    requires rest != "" && !IsSpace(rest[|rest| - 1])
    ensures ParseUri(p, "hy2://" + rest, other) == ParseHysteria2(p, rest)
  {
    var uri := "hy2://" + rest;
    TrimmedAlready(uri);
    NotScheme(uri, "vmess://", 0);
    NotScheme(uri, "vless://", 0);
    NotScheme(uri, "ss://", 0);
    NotScheme(uri, "trojan://", 0);
    NotScheme(uri, "hysteria2://", 2);
    NotSocks(uri);
    assert uri[..6] == "hy2://" && uri[6..] == rest;
  }

  lemma DispatchedSocks(p: Platform, rest: string, other: string -> Option<External>)
    requires rest != "" && !IsSpace(rest[|rest| - 1])
    ensures ParseUri(p, "socks5://" + rest, other) == ParseSocks(p, "socks5://" + rest)
  {
    var uri := "socks5://" + rest;
    TrimmedAlready(uri);
    NotScheme(uri, "vmess://", 0);
    NotScheme(uri, "vless://", 0);
    NotScheme(uri, "ss://", 1);
    SchemeRead(rest);
  }

  lemma ComposedEnds(user: string, hostPort: string, query: Option<string>, name: string)
    ensures var rest := Compose(user, hostPort, query, EncodeComponent(name)); rest != "" && !IsSpace(rest[|rest| - 1])
  {
    var tag := EncodeComponent(name);
    EncodedHasNoMark(name);
    assert tag != "" ==> tag[|tag| - 1] in tag;
  }

  // What is printed is read back, for every name, password, path and host.
  lemma ShareUriRoundTrip(p: Platform, n: Node, other: string -> Option<External>)
    requires Lawful(p) && GoodHost(n.host) && BuildShareUri(p, n).Some?
    requires n.protocol == VLESS ==> '#' !in Cred(n, "uuid").GetOr("") && '?' !in Cred(n, "uuid").GetOr("")
    ensures ParseUri(p, BuildShareUri(p, n).value, other) == Expected(p, n)
  {
    var authority := Authority(n.host, n.port);
    match n.protocol
    case VLESS =>
      ComposedEnds(Cred(n, "uuid").GetOr(""), authority, Some(Serialize(VlessParams(n))), n.name);
      DispatchedVless(p, Compose(Cred(n, "uuid").GetOr(""), authority, Some(Serialize(VlessParams(n))),
        EncodeComponent(n.name)), other);
      VlessRoundTrip(p, n);
    case TROJAN =>
      ComposedEnds(EncodedPassword(n), authority, QueryOf(TrojanParams(n)), n.name);
      DispatchedTrojan(p, Compose(EncodedPassword(n), authority, QueryOf(TrojanParams(n)), EncodeComponent(n.name)),
        other);
      TrojanRoundTrip(p, n);
    case SHADOWSOCKS =>
      ComposedEnds(Encode64(Encode(SsUser(n))), authority, None, n.name);
      DispatchedSs(p, Compose(Encode64(Encode(SsUser(n))), authority, None, EncodeComponent(n.name)), other);
      ShadowsocksRoundTrip(p, n);
    case HYSTERIA2 =>
      ComposedEnds(EncodedPassword(n), authority, QueryOf(Hysteria2Params(n)), n.name);
      DispatchedHy2(p, Compose(EncodedPassword(n), authority, QueryOf(Hysteria2Params(n)), EncodeComponent(n.name)),
        other);
      Hysteria2RoundTrip(p, n);
    case SOCKS5 =>
      SocksRestEnds(n);
      DispatchedSocks(p, SocksRest(n), other);
      SocksRoundTrip(p, n);
  }
}
