/** vless:// share links: transports, securities, ParseURI, Build and the emitted stream settings.
    A link is a parsed URL; its query is a map (section 3.4 of RFC 3986). */
module ShareLink {
  import opened Text

  // ----- query keys -----

  datatype Key =
    | KType | KSecurity | KEncryption | KPacketEncoding | KFlow
    | KPath | KHost | KServiceName | KMode | KAuthority | KExtra | KHeaderType | KSeed
    | KSni | KAlpn | KFp | KAllowInsecure | KPbk | KSid | KSpx

  type Query = map<Key, string>

  function Get(q: Query, k: Key): string {
    if k in q then q[k] else ""
  }

  /** url.Values.Set, guarded as the ShareLink hooks guard it. */
  function SetNonEmpty(q: Query, k: Key, v: string): Query {
    if v != "" then q[k := v] else q
  }

  // ----- encoding/json, as far as raw messages need it -----

  /** Validity, compaction and "is an object" of a JSON text. */
  datatype Json = Json(valid: string -> bool, compact: string -> string, isObject: string -> bool)

  ghost predicate Lawful(j: Json) {
    forall x :: j.valid(x) ==>
      j.compact(x) != "" && Trim(j.compact(x)) == j.compact(x)
      && j.valid(j.compact(x)) && j.compact(j.compact(x)) == j.compact(x)
  }

  // ----- transports -----

  datatype Transport = Tcp | Ws | Grpc | Xhttp | HttpUpgrade | Kcp

  /** The JSON object a transport config is stored as; absent fields are zero. */
  datatype TJson = TJson(path: string, host: string, serviceName: string, multiMode: bool, authority: string,
                         mode: string, extra: string, headers: map<string, string>, headerType: string, seed: string)
  const NO_TRANSPORT := TJson("", "", "", false, "", "", "", map[], "", "")

  datatype TSpec =
    | TcpSpec
    | WsSpec(path: string, host: string)
    | GrpcSpec(serviceName: string, multiMode: bool, authority: string)
    | XhttpSpec(path: string, host: string, mode: string, extra: string)
    | UpgradeSpec(path: string, host: string, headers: map<string, string>)
    | KcpSpec(headerType: string, seed: string)

  function TransportName(t: Transport): string {
    match t
    case Tcp => "tcp" case Ws => "ws" case Grpc => "grpc"
    case Xhttp => "xhttp" case HttpUpgrade => "httpupgrade" case Kcp => "kcp"
  }

  /** Registry.Resolve over the registered names and aliases. */
  function ResolveTransport(name: string): Option<Transport> {
    var key := Lower(Trim(name));
    if key == "tcp" then Some(Tcp)
    else if key == "ws" || key == "websocket" then Some(Ws)
    else if key == "grpc" || key == "gun" then Some(Grpc)
    else if key == "xhttp" || key == "splithttp" then Some(Xhttp)
    else if key == "httpupgrade" then Some(HttpUpgrade)
    else if key == "kcp" || key == "mkcp" then Some(Kcp)
    else None
  }

  /** DecodeSpec; None stands for JSON that does not decode. Plain TCP never looks. */
  function DecodeT(t: Transport, c: Option<TJson>): Option<TSpec> {
    if t.Tcp? then Some(TcpSpec)
    else if c.None? then None
    else
      var f := c.value;
      Some(match t
        case Ws => WsSpec(f.path, f.host)
        case Grpc => GrpcSpec(f.serviceName, f.multiMode, f.authority)
        case Xhttp => XhttpSpec(f.path, f.host, f.mode, f.extra)
        case HttpUpgrade => UpgradeSpec(f.path, f.host, f.headers)
        case _ => KcpSpec(f.headerType, f.seed))
  }

  /** EncodeSpec; json.Marshal compacts the raw message. */
  function EncodeT(j: Json, s: TSpec): TJson {
    match s
    case TcpSpec => NO_TRANSPORT
    case WsSpec(p, h) => NO_TRANSPORT.(path := p, host := h)
    case GrpcSpec(n, m, a) => NO_TRANSPORT.(serviceName := n, multiMode := m, authority := a)
    case XhttpSpec(p, h, m, x) =>
      NO_TRANSPORT.(path := p, host := h, mode := m, extra := if x == "" then "" else j.compact(x))
    case UpgradeSpec(p, h, hs) => NO_TRANSPORT.(path := p, host := h, headers := hs)
    case KcpSpec(t, s) => NO_TRANSPORT.(headerType := t, seed := s)
  }

  const XHTTP_MODES: set<string> := {"", "auto", "packet-up", "stream-up", "stream-one"}
  const KCP_HEADERS: set<string> := {"", "none", "srtp", "utp", "wechat-video", "dtls", "wireguard", "dns"}

  predicate ValidT(s: TSpec) {
    && (s.XhttpSpec? ==> s.mode in XHTTP_MODES)
    && (s.KcpSpec? ==> s.headerType in KCP_HEADERS)
  }

  /** EqualFold(_, "multi"). */
  predicate IsMulti(s: string) {
    |s| == 5 && (s[0] == 'm' || s[0] == 'M') && (s[1] == 'u' || s[1] == 'U') && (s[2] == 'l' || s[2] == 'L')
    && (s[3] == 't' || s[3] == 'T') && (s[4] == 'i' || s[4] == 'I')
  }

  function ParseT(j: Json, t: Transport, q: Query): TSpec {
    match t
    case Tcp => TcpSpec
    case Ws => WsSpec(Trim(Get(q, KPath)), Trim(Get(q, KHost)))
    case Grpc =>
      var svc := Trim(Get(q, KServiceName));
      GrpcSpec(if svc == "" then Trim(Get(q, KAlpn)) else svc, IsMulti(Trim(Get(q, KMode))), Trim(Get(q, KAuthority)))
    case Xhttp =>
      var mode, raw := Trim(Get(q, KMode)), Trim(Get(q, KExtra));
      XhttpSpec(Trim(Get(q, KPath)), Trim(Get(q, KHost)), if mode == "" then "auto" else mode,
                if raw != "" && j.valid(raw) then raw else "")
    case HttpUpgrade => UpgradeSpec(Trim(Get(q, KPath)), Trim(Get(q, KHost)), map[])
    case Kcp => KcpSpec(Trim(Get(q, KHeaderType)), Trim(Get(q, KSeed)))
  }

  function ShareT(s: TSpec): Query {
    match s
    case TcpSpec => map[]
    case WsSpec(p, h) => SetNonEmpty(SetNonEmpty(map[], KPath, p), KHost, h)
    case GrpcSpec(n, m, a) =>
      SetNonEmpty(SetNonEmpty(SetNonEmpty(map[], KServiceName, n), KMode, if m then "multi" else ""), KAuthority, a)
    case XhttpSpec(p, h, m, x) =>
      var q := SetNonEmpty(SetNonEmpty(map[], KPath, p), KHost, h);
      SetNonEmpty(SetNonEmpty(q, KMode, if m == "auto" then "" else m), KExtra, x)
    case UpgradeSpec(p, h, _) => SetNonEmpty(SetNonEmpty(map[], KPath, p), KHost, h)
    case KcpSpec(t, s) => SetNonEmpty(SetNonEmpty(map[], KHeaderType, t), KSeed, s)
  }

  // ----- securities -----

  datatype Security = NoSecurity | Tls | Reality

  datatype SJson = SJson(serverName: string, alpn: seq<string>, fingerprint: string, allowInsecure: bool,
                         publicKey: string, shortId: string, spiderX: string)
  const NO_SECURITY := SJson("", [], "", false, "", "", "")

  datatype SSpec =
    | NoneSpec
    | TlsSpec(serverName: string, alpn: seq<string>, fingerprint: string, allowInsecure: bool)
    | RealitySpec(serverName: string, fingerprint: string, publicKey: string, shortId: string, spiderX: string)

  function SecurityName(s: Security): string {
    match s case NoSecurity => "none" case Tls => "tls" case Reality => "reality"
  }

  function ResolveSecurity(name: string): Option<Security> {
    var key := Lower(Trim(name));
    if key == "none" then Some(NoSecurity)
    else if key == "tls" then Some(Tls)
    else if key == "reality" then Some(Reality)
    else None
  }

  function DecodeS(s: Security, c: Option<SJson>): Option<SSpec> {
    if s.NoSecurity? then Some(NoneSpec)
    else if c.None? then None
    else if s.Tls? then Some(TlsSpec(c.value.serverName, c.value.alpn, c.value.fingerprint, c.value.allowInsecure))
    else Some(RealitySpec(c.value.serverName, c.value.fingerprint, c.value.publicKey, c.value.shortId, c.value.spiderX))
  }

  function EncodeS(s: SSpec): SJson {
    match s
    case NoneSpec => NO_SECURITY
    case TlsSpec(n, a, f, i) => NO_SECURITY.(serverName := n, alpn := a, fingerprint := f, allowInsecure := i)
    case RealitySpec(n, f, p, i, x) =>
      NO_SECURITY.(serverName := n, fingerprint := f, publicKey := p, shortId := i, spiderX := x)
  }

  predicate ValidS(s: SSpec) {
    s.RealitySpec? ==> s.publicKey != ""
  }

  predicate Truthy(s: string) {
    var l := Lower(Trim(s));
    l == "1" || l == "true" || l == "yes"
  }

  /** Comma-separated, trimmed, blanks dropped. */
  function SplitAlpn(raw: string): seq<string> {
    if Trim(raw) == "" then [] else TrimAll(Split(raw, ','))
  }

  function TrimAll(parts: seq<string>): (out: seq<string>)
    ensures forall p :: p in out ==> p != ""
  {
    if parts == [] then []
    else if Trim(parts[0]) == "" then TrimAll(parts[1..])
    else [Trim(parts[0])] + TrimAll(parts[1..])
  }

  function ParseS(s: Security, q: Query): SSpec {
    match s
    case NoSecurity => NoneSpec
    case Tls => TlsSpec(Trim(Get(q, KSni)), SplitAlpn(Get(q, KAlpn)), Trim(Get(q, KFp)), Truthy(Get(q, KAllowInsecure)))
    case Reality =>
      RealitySpec(Trim(Get(q, KSni)), Trim(Get(q, KFp)), Trim(Get(q, KPbk)), Trim(Get(q, KSid)), Trim(Get(q, KSpx)))
  }

  function ShareS(s: SSpec): Query {
    match s
    case NoneSpec => map[]
    case TlsSpec(n, a, f, i) =>
      var q := SetNonEmpty(map[], KSni, n);
      var r := if a == [] then q else q[KAlpn := Join(a, ',')];
      SetNonEmpty(SetNonEmpty(r, KFp, f), KAllowInsecure, if i then "1" else "")
    case RealitySpec(n, f, p, i, x) =>
      SetNonEmpty(SetNonEmpty(SetNonEmpty(SetNonEmpty(SetNonEmpty(map[], KSni, n), KFp, f), KPbk, p), KSid, i), KSpx, x)
  }

  // ----- links, nodes, inputs -----

  /** A parsed URL. An empty port is None; url.Parse admits only digits. */
  datatype Link = Link(scheme: string, user: string, host: string, port: Option<nat>, query: Query, fragment: string)

  const MAX_INT: nat := 0x7fff_ffff_ffff_ffff

  datatype Node = Node(uuid: string, address: string, port: int,
                       flow: string, encryption: string, packetEncoding: string,
                       network: string, transport: TJson, security: string, securityCfg: SJson,
                       display: string, link: Link)

  /** None configs stand for JSON that does not decode. */
  datatype Input = Input(display: string, uuid: string, address: string, port: int, flow: string, encryption: string,
                         packetEncoding: string, network: string, transport: Option<TJson>,
                         security: string, securityCfg: Option<SJson>)

  function OrElse(s: string, def: string): string {
    if s == "" then def else s
  }

  /** ParseURI; None is any of its errors. */
  function Parse(j: Json, l: Link): Option<Node> {
    var t := ResolveTransport(OrElse(Get(l.query, KType), "tcp"));
    var s := ResolveSecurity(OrElse(Get(l.query, KSecurity), "none"));
    if Lower(l.scheme) != "vless" || l.user == "" || l.host == "" || (l.port.Some? && l.port.value > MAX_INT) then None
    else if t.None? || s.None? then None
    else
      var tSpec, sSpec := ParseT(j, t.value, l.query), ParseS(s.value, l.query);
      if !ValidT(tSpec) || !ValidS(sSpec) then None
      else Some(Node(l.user, l.host, if l.port.Some? then l.port.value else 443,
        Trim(Get(l.query, KFlow)), OrElse(Trim(Get(l.query, KEncryption)), "none"), Trim(Get(l.query, KPacketEncoding)),
        TransportName(t.value), EncodeT(j, tSpec), SecurityName(s.value), EncodeS(sSpec),
        OrElse(l.fragment, l.host), l))
  }

  /** The part of the query that neither transport nor security writes. */
  function CommonQuery(input: Input, t: Transport, s: Security): Query {
    var enc := OrElse(Trim(input.encryption), "none");
    var q := map[KType := TransportName(t), KSecurity := SecurityName(s)];
    SetNonEmpty(SetNonEmpty(SetNonEmpty(q, KEncryption, if enc == "none" then "" else enc),
                            KPacketEncoding, Trim(input.packetEncoding)), KFlow, Trim(input.flow))
  }

  function BuildQuery(input: Input, t: Transport, tSpec: TSpec, s: Security, sSpec: SSpec): Query {
    CommonQuery(input, t, s) + ShareT(tSpec) + ShareS(sSpec)
  }

  /** Build; None is any of its errors. */
  function Build(j: Json, input: Input): Option<Node> {
    if Trim(input.uuid) == "" || Trim(input.address) == "" || input.port <= 0 || input.port > 65535 then None
    else
      var t := ResolveTransport(OrElse(Trim(input.network), "tcp"));
      var s := ResolveSecurity(OrElse(Trim(input.security), "none"));
      if t.None? || s.None? then None
      else
        var tSpec, sSpec := DecodeT(t.value, input.transport), DecodeS(s.value, input.securityCfg);
        if tSpec.None? || sSpec.None? || !ValidT(tSpec.value) || !ValidS(sSpec.value) then None
        else Some(Node(input.uuid, input.address, input.port, Trim(input.flow), OrElse(Trim(input.encryption), "none"),
          Trim(input.packetEncoding), TransportName(t.value), EncodeT(j, tSpec.value),
          SecurityName(s.value), EncodeS(sSpec.value),
          OrElse(Trim(input.display), input.address),
          Link("vless", input.uuid, input.address, Some(input.port as nat),
               BuildQuery(input, t.value, tSpec.value, s.value, sSpec.value), input.display)))
  }

  /** The structured form of a node, as an edit form would send it back. */
  function Fields(n: Node): Input {
    Input(n.display, n.uuid, n.address, n.port, n.flow, n.encryption, n.packetEncoding,
          n.network, Some(n.transport), n.security, Some(n.securityCfg))
  }

  // ----- emitted stream settings -----

  datatype TOut =
    | TcpOut
    | WsOut(path: string, host: string)
    | GrpcOut(serviceName: string, multiMode: bool, authority: string)
    | XhttpOut(path: string, mode: string, host: string, extra: Option<string>)
    | UpgradeOut(path: string, host: string, headers: map<string, string>)
    | KcpOut(headerType: string, seed: string)

  /** TLS does not emit its fingerprint. */
  datatype SOut =
    | NoneOut
    | TlsOut(allowInsecure: bool, serverName: string, alpn: seq<string>)
    | RealityOut(fingerprint: string, serverName: string, publicKey: string, shortId: string, spiderX: string)

  datatype StreamSettings = StreamSettings(network: string, security: string, transport: TOut, tls: SOut)

  function EmitT(j: Json, s: TSpec): TOut {
    match s
    case TcpSpec => TcpOut
    case WsSpec(p, h) => WsOut(if HasPrefix(p, "/") then p else "/", h)
    case GrpcSpec(n, m, a) => GrpcOut(OrElse(n, "GunService"), m, a)
    case XhttpSpec(p, h, m, x) =>
      XhttpOut(OrElse(p, "/"), OrElse(m, "auto"), h, if x != "" && j.isObject(x) then Some(x) else None)
    case UpgradeSpec(p, h, hs) => UpgradeOut(OrElse(p, "/"), h, hs)
    case KcpSpec(t, s) => KcpOut(OrElse(t, "none"), s)
  }

  function EmitS(s: SSpec): SOut {
    match s
    case NoneSpec => NoneOut
    case TlsSpec(n, a, f, i) => TlsOut(i, n, a)
    case RealitySpec(n, f, p, i, x) => RealityOut(OrElse(f, "chrome"), n, p, i, OrElse(x, "/"))
  }

  /** streamSettingsOutbound; unknown names fall back to plain TCP without security. */
  function Emit(j: Json, n: Node): StreamSettings {
    var t := match ResolveTransport(OrElse(n.network, "tcp")) case Some(t) => t case None => Tcp;
    var s := match ResolveSecurity(OrElse(n.security, "none")) case Some(s) => s case None => NoSecurity;
    StreamSettings(TransportName(t), SecurityName(s),
      EmitT(j, DecodeT(t, Some(n.transport)).value), EmitS(DecodeS(s, Some(n.securityCfg)).value))
  }
}
