/**
 * The VLESS connection URI that vless_api.py builds from an inbound of the 3x-ui panel:
 *
 *   vless://<uuid>@<host>:<port>?<key=value>&<key=value>...#<remark>
 *
 * The inbound's `streamSettings` arrive as a JSON string; here they are already decoded
 * into typed records whose `Option` fields keep apart a key that is absent (a default
 * is used) from a key that is present, perhaps with an empty value (that value is used).
 */
module VlessLink {
  import opened Wrappers
  import opened Text

  // ---------------------------------------------------------------------------
  // Decoded inbound configuration (only the keys get_client_link reads)

  /** `wsSettings.headers`, of which only `Host` is read. */
  datatype WsHeaders = WsHeaders(host: Option<string>)
  datatype WsSettings = WsSettings(path: Option<string>, headers: Option<WsHeaders>)
  datatype GrpcSettings = GrpcSettings(serviceName: Option<string>)
  /** `tcpSettings.header`, of which only `type` is read. */
  datatype TcpHeader = TcpHeader(headerType: Option<string>)
  datatype TcpSettings = TcpSettings(header: Option<TcpHeader>)
  datatype TlsSettings = TlsSettings(serverName: Option<string>, fingerprint: Option<string>, alpn: Option<seq<string>>)
  datatype RealitySettings = RealitySettings(
    publicKey: Option<string>,
    fingerprint: Option<string>,
    serverNames: Option<seq<string>>,
    shortIds: Option<seq<string>>,
    spiderX: Option<string>)

  datatype StreamSettings = StreamSettings(
    network: Option<string>,
    security: Option<string>,
    wsSettings: Option<WsSettings>,
    grpcSettings: Option<GrpcSettings>,
    tcpSettings: Option<TcpSettings>,
    tlsSettings: Option<TlsSettings>,
    realitySettings: Option<RealitySettings>)

  /** `json.loads("{}")`: what an inbound without `streamSettings` decodes to. */
  const NoStreamSettings := StreamSettings(None, None, None, None, None, None, None)

  datatype Inbound = Inbound(port: Option<int>, remark: Option<string>, streamSettings: StreamSettings)

  /** `result.get("obj", {})` when the panel sent no inbound object. */
  const EmptyInbound := Inbound(None, None, NoStreamSettings)

  function PortOf(inbound: Inbound): int {
    inbound.port.GetOr(443)
  }

  function RemarkOf(inbound: Inbound): string {
    inbound.remark.GetOr("vless")
  }

  function Network(ss: StreamSettings): string {
    ss.network.GetOr("tcp")
  }

  function Security(ss: StreamSettings): string {
    ss.security.GetOr("none")
  }

  /** `xs[0] if xs else ""` for an optional list (`serverNames`, `shortIds`). */
  function FirstOrEmpty(xs: Option<seq<string>>): string {
    if xs.Some? && |xs.value| > 0 then xs.value[0] else ""
  }


  // ---------------------------------------------------------------------------
  // Query parameters

  /** The parameter names a VLESS link can carry. */
  datatype Key =
    | TypeKey | SecurityKey
    | PathKey | HostKey | ServiceNameKey | HeaderTypeKey
    | SniKey | FpKey | AlpnKey | PbkKey | SidKey | SpxKey

  function KeyName(k: Key): (r: string)
    ensures PlainKey(r)
  {
    match k
    case TypeKey => "type"
    case SecurityKey => "security"
    case PathKey => "path"
    case HostKey => "host"
    case ServiceNameKey => "serviceName"
    case HeaderTypeKey => "headerType"
    case SniKey => "sni"
    case FpKey => "fp"
    case AlpnKey => "alpn"
    case PbkKey => "pbk"
    case SidKey => "sid"
    case SpxKey => "spx"
  }

  /** A key holds none of the separators a client splits the query on. */
  predicate PlainKey(k: string) {
    '=' !in k && '&' !in k && '#' !in k
  }

  /** Distinct keys have distinct names, so a client reading the query by name loses nothing. */
  lemma KeyNamesDistinct(j: Key, k: Key)
    requires j != k
    ensures KeyName(j) != KeyName(k)
  {
    assert KeyName(j)[0] != KeyName(k)[0] || |KeyName(j)| != |KeyName(k)| || KeyName(j)[1] != KeyName(k)[1];
  }

  datatype Param = Param(key: string, value: string)

  function Render(p: Param): string {
    p.key + "=" + p.value
  }

  /** The three transports that carry parameters of their own; any other network carries none. */
  datatype NetworkKind = WsNetwork | GrpcNetwork | TcpNetwork | OtherNetwork

  function NetworkKindOf(network: string): NetworkKind {
    if network == "ws" then WsNetwork
    else if network == "grpc" then GrpcNetwork
    else if network == "tcp" then TcpNetwork
    else OtherNetwork
  }

  /** The two security layers that carry parameters of their own; any other carries none. */
  datatype SecurityKind = TlsSecurity | RealitySecurity | OtherSecurity

  function SecurityKindOf(security: string): SecurityKind {
    if security == "tls" then TlsSecurity
    else if security == "reality" then RealitySecurity
    else OtherSecurity
  }

  function WsOf(ss: StreamSettings): WsSettings {
    ss.wsSettings.GetOr(WsSettings(None, None))
  }

  function TlsOf(ss: StreamSettings): TlsSettings {
    ss.tlsSettings.GetOr(TlsSettings(None, None, None))
  }

  function RealityOf(ss: StreamSettings): RealitySettings {
    ss.realitySettings.GetOr(RealitySettings(None, None, None, None, None))
  }

  /**
   * What a client reading the link finds under `k`, parameter by parameter: transport
   * parameters belong to their network, TLS and Reality parameters to their security
   * kind, and absent settings take the defaults the source writes.
   */
  function ParamValue(ss: StreamSettings, server: string, k: Key): Option<string> {
    var network, security := NetworkKindOf(Network(ss)), SecurityKindOf(Security(ss));
    match k
    case TypeKey => Some(Network(ss))
    case SecurityKey => Some(Security(ss))
    case PathKey =>
      if network == WsNetwork then Some(WsOf(ss).path.GetOr("/")) else None
    case HostKey =>
      if network == WsNetwork then Some(WsOf(ss).headers.GetOr(WsHeaders(None)).host.GetOr(server)) else None
    case ServiceNameKey =>
      if network == GrpcNetwork then Some(ss.grpcSettings.GetOr(GrpcSettings(None)).serviceName.GetOr("")) else None
    case HeaderTypeKey =>
      if network == TcpNetwork then
        Some(ss.tcpSettings.GetOr(TcpSettings(None)).header.GetOr(TcpHeader(None)).headerType.GetOr("none"))
      else None
    case SniKey =>
      if security == TlsSecurity then Some(TlsOf(ss).serverName.GetOr(server))
      else if security == RealitySecurity then Some(FirstOrEmpty(RealityOf(ss).serverNames))
      else None
    case FpKey =>
      if security == TlsSecurity then
        (if TlsOf(ss).fingerprint.GetOr("") != "" then Some(TlsOf(ss).fingerprint.GetOr("")) else None)
      else if security == RealitySecurity then Some(RealityOf(ss).fingerprint.GetOr("chrome"))
      else None
    case AlpnKey =>
      if security == TlsSecurity && Join(TlsOf(ss).alpn.GetOr([]), ',') != "" then
        Some(Join(TlsOf(ss).alpn.GetOr([]), ','))
      else None
    case PbkKey =>
      if security == RealitySecurity then Some(RealityOf(ss).publicKey.GetOr("")) else None
    case SidKey =>
      if security == RealitySecurity && FirstOrEmpty(RealityOf(ss).shortIds) != "" then
        Some(FirstOrEmpty(RealityOf(ss).shortIds))
      else None
    case SpxKey =>
      if security == RealitySecurity && RealityOf(ss).spiderX.GetOr("") != "" then
        Some(RealityOf(ss).spiderX.GetOr(""))
      else None
  }

  /** The parameter `k`, if it is present at all. */
  function Entry(ss: StreamSettings, server: string, k: Key): (r: seq<Param>)
    ensures forall p :: p in r ==> p.key == KeyName(k) && ParamValue(ss, server, k) == Some(p.value)
  {
    match ParamValue(ss, server, k)
    case Some(v) => [Param(KeyName(k), v)]
    case None => []
  }

  function TransportEntries(ss: StreamSettings, server: string): seq<Param> {
    Entry(ss, server, PathKey) + Entry(ss, server, HostKey)
    + Entry(ss, server, ServiceNameKey) + Entry(ss, server, HeaderTypeKey)
  }

  function SecurityEntries(ss: StreamSettings, server: string): seq<Param> {
    Entry(ss, server, SniKey) + Entry(ss, server, FpKey) + Entry(ss, server, AlpnKey)
    + Entry(ss, server, PbkKey) + Entry(ss, server, SidKey) + Entry(ss, server, SpxKey)
  }

  /**
   * The query as a reference: the keys in the one order they are ever written (type,
   * security, path, host, serviceName, headerType, sni, fp, alpn, pbk, sid, spx),
   * restricted to those present, each with its value.
   */
  function CanonicalParams(ss: StreamSettings, server: string): seq<Param> {
    Entry(ss, server, TypeKey) + Entry(ss, server, SecurityKey)
    + TransportEntries(ss, server) + SecurityEntries(ss, server)
  }

  /**
   * get_client_link's parameter list, built as the source builds it: type and security,
   * then the transport's parameters, then the security layer's, each appended in turn.
   */
  method BuildParams(ss: StreamSettings, server: string) returns (params: seq<Param>)
    ensures params == CanonicalParams(ss, server)
  {
    params := [Param("type", Network(ss)), Param("security", Security(ss))];
    params := AppendTransportParams(params, ss, server);
    params := AppendSecurityParams(params, ss, server);
  }

  /** The network-specific part of get_client_link. */
  method AppendTransportParams(params: seq<Param>, ss: StreamSettings, server: string) returns (r: seq<Param>)
    ensures r == params + TransportEntries(ss, server)
  {
    var network := Network(ss);
    if network == "ws" {
      var ws := ss.wsSettings.GetOr(WsSettings(None, None));
      var path := ws.path.GetOr("/");
      var host := ws.headers.GetOr(WsHeaders(None)).host.GetOr(server);
      r := params + [Param("path", path), Param("host", host)];
    } else if network == "grpc" {
      var grpc := ss.grpcSettings.GetOr(GrpcSettings(None));
      r := params + [Param("serviceName", grpc.serviceName.GetOr(""))];
    } else if network == "tcp" {
      var tcp := ss.tcpSettings.GetOr(TcpSettings(None));
      r := params + [Param("headerType", tcp.header.GetOr(TcpHeader(None)).headerType.GetOr("none"))];
    } else {
      r := params;
    }
    TransportEntriesByNetwork(ss, server);
  }

  /** The security-specific part of get_client_link. */
  method AppendSecurityParams(params: seq<Param>, ss: StreamSettings, server: string) returns (r: seq<Param>)
    ensures r == params + SecurityEntries(ss, server)
  {
    var security := Security(ss);
    r := params;
    if security == "tls" {
      var tls := ss.tlsSettings.GetOr(TlsSettings(None, None, None));
      var sni := tls.serverName.GetOr(server);
      var fp := tls.fingerprint.GetOr("");
      var alpn := Join(tls.alpn.GetOr([]), ',');
      r := r + [Param("sni", sni)];
      if fp != "" {
        r := r + [Param("fp", fp)];
      }
      if alpn != "" {
        r := r + [Param("alpn", alpn)];
      }
      SecurityEntriesTls(ss, server);
    } else if security == "reality" {
      var reality := ss.realitySettings.GetOr(RealitySettings(None, None, None, None, None));
      var pbk := reality.publicKey.GetOr("");
      var fp := reality.fingerprint.GetOr("chrome");
      var sni := FirstOrEmpty(reality.serverNames);
      var sid := FirstOrEmpty(reality.shortIds);
      var spx := reality.spiderX.GetOr("");
      r := r + [Param("sni", sni), Param("fp", fp), Param("pbk", pbk)];
      if sid != "" {
        r := r + [Param("sid", sid)];
      }
      if spx != "" {
        r := r + [Param("spx", spx)];
      }
      SecurityEntriesReality(ss, server);
    } else {
      SecurityEntriesOther(ss, server);
    }
  }

  /** The transport part of the reference list, network by network. */
  lemma TransportEntriesByNetwork(ss: StreamSettings, server: string)
    ensures NetworkKindOf(Network(ss)) == WsNetwork ==>
      TransportEntries(ss, server) == [Param("path", WsOf(ss).path.GetOr("/")),
                                       Param("host", WsOf(ss).headers.GetOr(WsHeaders(None)).host.GetOr(server))]
    ensures NetworkKindOf(Network(ss)) == GrpcNetwork ==>
      TransportEntries(ss, server) == [Param("serviceName", ss.grpcSettings.GetOr(GrpcSettings(None)).serviceName.GetOr(""))]
    ensures NetworkKindOf(Network(ss)) == TcpNetwork ==>
      TransportEntries(ss, server) ==
        [Param("headerType", ss.tcpSettings.GetOr(TcpSettings(None)).header.GetOr(TcpHeader(None)).headerType.GetOr("none"))]
    ensures NetworkKindOf(Network(ss)) == OtherNetwork ==> TransportEntries(ss, server) == []
  {
  }

  /** The security part of the reference list over TLS. */
  lemma SecurityEntriesTls(ss: StreamSettings, server: string)
    requires SecurityKindOf(Security(ss)) == TlsSecurity
    ensures
      var tls := TlsOf(ss);
      var fp, alpn := tls.fingerprint.GetOr(""), Join(tls.alpn.GetOr([]), ',');
      SecurityEntries(ss, server) ==
        [Param("sni", tls.serverName.GetOr(server))]
        + (if fp != "" then [Param("fp", fp)] else []) + (if alpn != "" then [Param("alpn", alpn)] else [])
  {
    TlsEntries(ss, server);
  }

  lemma TlsEntries(ss: StreamSettings, server: string)
    requires SecurityKindOf(Security(ss)) == TlsSecurity
    ensures Entry(ss, server, SniKey) == [Param("sni", TlsOf(ss).serverName.GetOr(server))]
    ensures var fp := TlsOf(ss).fingerprint.GetOr("");
      Entry(ss, server, FpKey) == if fp != "" then [Param("fp", fp)] else []
    ensures var alpn := Join(TlsOf(ss).alpn.GetOr([]), ',');
      Entry(ss, server, AlpnKey) == if alpn != "" then [Param("alpn", alpn)] else []
    ensures Entry(ss, server, PbkKey) == [] && Entry(ss, server, SidKey) == [] && Entry(ss, server, SpxKey) == []
  {
  }

  /** The security part of the reference list over Reality. */
  lemma SecurityEntriesReality(ss: StreamSettings, server: string)
    requires SecurityKindOf(Security(ss)) == RealitySecurity
    ensures
      var reality := RealityOf(ss);
      var sid, spx := FirstOrEmpty(reality.shortIds), reality.spiderX.GetOr("");
      SecurityEntries(ss, server) ==
        [Param("sni", FirstOrEmpty(reality.serverNames)), Param("fp", reality.fingerprint.GetOr("chrome")),
         Param("pbk", reality.publicKey.GetOr(""))]
        + (if sid != "" then [Param("sid", sid)] else []) + (if spx != "" then [Param("spx", spx)] else [])
  {
    RealityEntries(ss, server);
  }

  lemma RealityEntries(ss: StreamSettings, server: string)
    requires SecurityKindOf(Security(ss)) == RealitySecurity
    ensures Entry(ss, server, SniKey) == [Param("sni", FirstOrEmpty(RealityOf(ss).serverNames))]
    ensures Entry(ss, server, FpKey) == [Param("fp", RealityOf(ss).fingerprint.GetOr("chrome"))]
    ensures Entry(ss, server, AlpnKey) == []
    ensures Entry(ss, server, PbkKey) == [Param("pbk", RealityOf(ss).publicKey.GetOr(""))]
    ensures var sid := FirstOrEmpty(RealityOf(ss).shortIds);
      Entry(ss, server, SidKey) == if sid != "" then [Param("sid", sid)] else []
    ensures var spx := RealityOf(ss).spiderX.GetOr("");
      Entry(ss, server, SpxKey) == if spx != "" then [Param("spx", spx)] else []
  {
  }

  /** Any other security layer adds nothing. */
  lemma SecurityEntriesOther(ss: StreamSettings, server: string)
    requires SecurityKindOf(Security(ss)) == OtherSecurity
    ensures SecurityEntries(ss, server) == []
  {
  }

  function Renders(ps: seq<Param>): (r: seq<string>)
    ensures |r| == |ps|
    ensures forall i :: 0 <= i < |ps| ==> r[i] == Render(ps[i])
  {
    if ps == [] then [] else [Render(ps[0])] + Renders(ps[1..])
  }

  /** `"&".join(params)`. */
  function Query(ps: seq<Param>): string {
    Join(Renders(ps), '&')
  }

  /** `f"vless://{uuid}@{server}:{port}?{query}#{remark}"`. */
  function Link(uuid: string, server: string, port: string, ps: seq<Param>, remark: string): string {
    "vless://" + (uuid + "@" + (server + ":" + (port + "?" + (Query(ps) + "#" + remark))))
  }

  /** The URI for credential `uuid` on `inbound`, reached at `server`. */
  function ClientLink(uuid: string, server: string, inbound: Inbound): string {
    Link(uuid, server, IntToString(PortOf(inbound)), CanonicalParams(inbound.streamSettings, server), RemarkOf(inbound))
  }

  /**
   * `VLESS_PANEL_URL.split("://")[1].split(":")[0]`: the text after the first "://" up to
   * the next ':'. A URL without "://" makes the source raise (IndexError): None here.
   */
  function ServerAddress(panelUrl: string): (r: Option<string>)
    ensures r.None? <==> !Contains(panelUrl, "://")
    ensures r.Some? ==> ':' !in r.value
    ensures r.Some? ==>
      var start := FindSub(panelUrl, "://").value + 3;
      start + |r.value| <= |panelUrl| && panelUrl[start..start + |r.value|] == r.value
      && (start + |r.value| == |panelUrl| || panelUrl[start + |r.value|] == ':')
  {
    match FindSub(panelUrl, "://")
    case None => None
    case Some(k) =>
      var host := TakeUntil(panelUrl[k + 3..], ':');
      assert panelUrl[k + 3..][..|host|] == panelUrl[k + 3..k + 3 + |host|];
      Some(host)
  }

  /**
   * A panel URL `scheme://host` followed by nothing or by `:port...` gives `host`. (When
   * `host` is followed by a path and no port, the path stays in the address.)
   */
  lemma ServerAddressOfUrl(scheme: string, host: string, rest: string)
    requires ':' !in scheme && ':' !in host
    requires rest == [] || rest[0] == ':'
    ensures ServerAddress(scheme + "://" + host + rest) == Some(host)
  {
    var url := scheme + "://" + host + rest;
    var k := |scheme|;
    assert url[k..k + 3] == "://";
    assert OccursAt(url, "://", k);
    forall j | 0 <= j < k ensures !OccursAt(url, "://", j) {
      assert url[j] == scheme[j];
      assert j + 3 <= |url| ==> url[j..j + 3][0] == url[j];
    }
    assert url[k + 3..] == host + rest;
    TakeUntilGlued(host, ':', rest);
  }

  // ---------------------------------------------------------------------------
  // Reading a link back

  datatype ParsedLink = ParsedLink(uuid: string, host: string, port: string, params: seq<Param>, remark: string)

  function ParseParam(item: string): Option<Param> {
    match SplitFirst(item, '=')
    case None => None
    case Some(kv) => Some(Param(kv.0, kv.1))
  }

  function ParseParams(items: seq<string>): Option<seq<Param>> {
    if items == [] then Some([])
    else match (ParseParam(items[0]), ParseParams(items[1..]))
      case (Some(p), Some(ps)) => Some([p] + ps)
      case _ => None
  }

  /**
   * How a client app reads a VLESS URI: the uuid up to '@', the host up to ':', the
   * port up to '?', the query up to '#', the remark after it; the query is split on
   * '&' and each parameter at its first '='.
   */
  function ParseLink(link: string): Option<ParsedLink> {
    if !StartsWith(link, "vless://") then None
    else match SplitFirst(link[8..], '@')
      case None => None
      case Some(a) => match SplitFirst(a.1, ':')
        case None => None
        case Some(b) => match SplitFirst(b.1, '?')
          case None => None
          case Some(c) => match SplitFirst(c.1, '#')
            case None => None
            case Some(d) => match ParseParams(Split(d.0, '&'))
              case None => None
              case Some(ps) => Some(ParsedLink(a.0, b.0, c.0, ps, d.1))
  }

  // ---------------------------------------------------------------------------
  // Properties

  /** The values a link carries hold none of the separators a client splits the link on. */
  ghost predicate PlainValues(ss: StreamSettings, server: string) {
    forall k: Key :: ParamValue(ss, server, k).Some? ==>
      '&' !in ParamValue(ss, server, k).value && '#' !in ParamValue(ss, server, k).value
  }

  /** Every parameter of the query is a known key, present, with its value. */
  lemma CanonicalParamsEntries(ss: StreamSettings, server: string)
    ensures forall p :: p in CanonicalParams(ss, server) ==>
      exists k: Key :: p.key == KeyName(k) && ParamValue(ss, server, k) == Some(p.value)
  {
    forall p | p in CanonicalParams(ss, server)
      ensures exists k: Key :: p.key == KeyName(k) && ParamValue(ss, server, k) == Some(p.value)
    {
      var k: Key;
      if p in Entry(ss, server, TypeKey) { k := TypeKey; }
      else if p in Entry(ss, server, SecurityKey) { k := SecurityKey; }
      else if p in Entry(ss, server, PathKey) { k := PathKey; }
      else if p in Entry(ss, server, HostKey) { k := HostKey; }
      else if p in Entry(ss, server, ServiceNameKey) { k := ServiceNameKey; }
      else if p in Entry(ss, server, HeaderTypeKey) { k := HeaderTypeKey; }
      else if p in Entry(ss, server, SniKey) { k := SniKey; }
      else if p in Entry(ss, server, FpKey) { k := FpKey; }
      else if p in Entry(ss, server, AlpnKey) { k := AlpnKey; }
      else if p in Entry(ss, server, PbkKey) { k := PbkKey; }
      else if p in Entry(ss, server, SidKey) { k := SidKey; }
      else { k := SpxKey; }
      assert p in Entry(ss, server, k);
    }
  }

  /** Every known key that is present appears in the query. */
  lemma CanonicalParamsComplete(ss: StreamSettings, server: string, k: Key)
    requires ParamValue(ss, server, k).Some?
    ensures Param(KeyName(k), ParamValue(ss, server, k).value) in CanonicalParams(ss, server)
  {
    assert Param(KeyName(k), ParamValue(ss, server, k).value) in Entry(ss, server, k);
  }

  lemma {:induction false} ParseRendered(ps: seq<Param>)
    requires forall i :: 0 <= i < |ps| ==> '=' !in ps[i].key
    ensures ParseParams(Renders(ps)) == Some(ps)
  {
    if ps != [] {
      SplitFirstGlued(ps[0].key, '=', ps[0].value);
      assert Render(ps[0]) == ps[0].key + ['='] + ps[0].value;
      ParseRendered(ps[1..]);
      assert Renders(ps)[1..] == Renders(ps[1..]);
      assert [ps[0]] + ps[1..] == ps;
    }
  }

  /** Any link whose pieces avoid the separators after them reads back as its pieces. */
  lemma ParseLinkOfPieces(uuid: string, server: string, port: string, ps: seq<Param>, remark: string)
    requires '@' !in uuid && ':' !in server && '?' !in port && |ps| > 0
    requires forall i :: 0 <= i < |ps| ==> PlainKey(ps[i].key) && '&' !in ps[i].value && '#' !in ps[i].value
    ensures ParseLink(Link(uuid, server, port, ps, remark)) == Some(ParsedLink(uuid, server, port, ps, remark))
  {
    var q := Query(ps);
    var items := Renders(ps);
    forall i | 0 <= i < |items| ensures '&' !in items[i] && '#' !in items[i] {
      assert items[i] == ps[i].key + "=" + ps[i].value;
    }
    JoinAvoids(items, '&', '#');
    SplitJoin(items, '&');
    ParseRendered(ps);

    var link := Link(uuid, server, port, ps, remark);
    var d := q + "#" + remark;
    var c := port + "?" + d;
    var b := server + ":" + c;
    var a := uuid + "@" + b;
    assert link == "vless://" + a;
    assert link[8..] == a;
    SplitFirstGlued(uuid, '@', b);
    SplitFirstGlued(server, ':', c);
    SplitFirstGlued(port, '?', d);
    SplitFirstGlued(q, '#', remark);
  }

  /**
   * The link reads back as what it was built from: a client app parsing it finds the
   * uuid, the host, the port, every parameter in order, and the remark. This needs a uuid
   * without `@` and values without `&` or `#`, since the values are not percent-encoded.
   */
  lemma LinkRoundTrip(uuid: string, server: string, inbound: Inbound)
    requires '@' !in uuid && ':' !in server
    requires PlainValues(inbound.streamSettings, server)
    ensures ParseLink(ClientLink(uuid, server, inbound)) ==
      Some(ParsedLink(uuid, server, IntToString(PortOf(inbound)),
                      CanonicalParams(inbound.streamSettings, server), RemarkOf(inbound)))
  {
    var ss := inbound.streamSettings;
    var ps := CanonicalParams(ss, server);
    CanonicalParamsEntries(ss, server);
    forall i | 0 <= i < |ps| ensures PlainKey(ps[i].key) && '&' !in ps[i].value && '#' !in ps[i].value {
      assert ps[i] in ps;
    }
    assert Param("type", Network(ss)) in Entry(ss, server, TypeKey);
    ParseLinkOfPieces(uuid, server, IntToString(PortOf(inbound)), ps, RemarkOf(inbound));
  }
}
