/** Re-parsing what Build prints: exactly when nothing drifts, and what runs. */
module ShareLinkProofs {
  import opened Text
  import opened ShareLink

  // ----- who writes which key -----

  datatype Part = Common | OfTransport | OfSecurity

  function Writer(k: Key): Part {
    match k
    case KType => Common case KSecurity => Common case KEncryption => Common
    case KPacketEncoding => Common case KFlow => Common
    case KPath => OfTransport case KHost => OfTransport case KServiceName => OfTransport case KMode => OfTransport
    case KAuthority => OfTransport case KExtra => OfTransport case KHeaderType => OfTransport case KSeed => OfTransport
    case _ => OfSecurity
  }

  function KeyName(k: Key): string {
    match k
    case KType => "type" case KSecurity => "security" case KEncryption => "encryption"
    case KPacketEncoding => "packetEncoding" case KFlow => "flow"
    case KPath => "path" case KHost => "host" case KServiceName => "serviceName" case KMode => "mode"
    case KAuthority => "authority" case KExtra => "extra" case KHeaderType => "headerType" case KSeed => "seed"
    case KSni => "sni" case KAlpn => "alpn" case KFp => "fp" case KAllowInsecure => "allowInsecure"
    case KPbk => "pbk" case KSid => "sid" case KSpx => "spx"
  }

  /** Distinct keys have distinct names, so the map keyed by Key is the query keyed by name. */
  lemma KeyNamesDiffer(a: Key, b: Key)
    ensures KeyName(a) == KeyName(b) ==> a == b
  {
  }

  lemma CommonKeys(input: Input, t: Transport, s: Security, k: Key)
    requires k in CommonQuery(input, t, s)
    ensures Writer(k) == Common
  {
    hide Trim, TransportName, SecurityName, OrElse;
  }

  lemma TransportKeys(ts: TSpec, k: Key)
    requires k in ShareT(ts)
    ensures Writer(k) == OfTransport
  {
  }

  lemma SecurityKeys(ss: SSpec, k: Key)
    requires k in ShareS(ss)
    ensures Writer(k) == OfSecurity
  {
  }

  /** What a part contributes to the query under a key. */
  function Contributed(input: Input, t: Transport, ts: TSpec, s: Security, ss: SSpec, k: Key): string {
    match Writer(k)
    case Common => Get(CommonQuery(input, t, s), k)
    case OfTransport => Get(ShareT(ts), k)
    case OfSecurity => Get(ShareS(ss), k)
  }

  lemma MergeGets(a: Query, b: Query, k: Key)
    ensures Get(a + b, k) == if k in b then Get(b, k) else Get(a, k)
    ensures k !in a ==> Get(a, k) == ""
    ensures k !in b ==> Get(b, k) == ""
  {
  }

  /** No part of a link overwrites a key of another part. */
  lemma QueryGets(input: Input, t: Transport, ts: TSpec, s: Security, ss: SSpec, k: Key)
    ensures Get(BuildQuery(input, t, ts, s, ss), k) == Contributed(input, t, ts, s, ss, k)
  {
    hide CommonQuery, ShareT, ShareS, Writer, Get;
    var c, st, sec := CommonQuery(input, t, s), ShareT(ts), ShareS(ss);
    MergeGets(c + st, sec, k);
    MergeGets(c, st, k);
    if k in CommonQuery(input, t, s) { CommonKeys(input, t, s, k); }
    if k in ShareT(ts) { TransportKeys(ts, k); }
    if k in ShareS(ss) { SecurityKeys(ss, k); }
  }

  // ----- what re-parsing makes of a spec -----

  function RereadT(j: Json, s: TSpec, alpn: string): TSpec {
    match s
    case TcpSpec => TcpSpec
    case WsSpec(p, h) => WsSpec(Trim(p), Trim(h))
    case GrpcSpec(n, m, a) => GrpcSpec(if Trim(n) == "" then Trim(alpn) else Trim(n), m, Trim(a))
    case XhttpSpec(p, h, m, x) =>
      XhttpSpec(Trim(p), Trim(h), OrElse(m, "auto"), if Trim(x) != "" && j.valid(Trim(x)) then Trim(x) else "")
    case UpgradeSpec(p, h, _) => UpgradeSpec(Trim(p), Trim(h), map[])
    case KcpSpec(t, s) => KcpSpec(t, Trim(s))
  }

  function KindT(s: TSpec): Transport {
    match s
    case TcpSpec => Tcp
    case WsSpec(_, _) => Ws
    case GrpcSpec(_, _, _) => Grpc
    case XhttpSpec(_, _, _, _) => Xhttp
    case UpgradeSpec(_, _, _) => HttpUpgrade
    case KcpSpec(_, _) => Kcp
  }

  /** The query holds this transport's share link, and `alpn` under the ALPN key. */
  ghost predicate CarriesT(q: Query, s: TSpec, alpn: string) {
    Get(q, KAlpn) == alpn && forall k :: Writer(k) == OfTransport ==> Get(q, k) == Get(ShareT(s), k)
  }

  lemma TrimConstants()
    ensures Trim("") == "" && Trim("multi") == "multi" && Trim("auto") == "auto"
    ensures forall m :: m in XHTTP_MODES ==> Trim(m) == m
    ensures forall m :: m in KCP_HEADERS ==> Trim(m) == m
  {
    hide Trim, IsSpace;
    TrimPlain(""); TrimPlain("multi"); TrimPlain("auto");
    TrimPlain("packet-up"); TrimPlain("stream-up"); TrimPlain("stream-one");
    TrimPlain("none"); TrimPlain("srtp"); TrimPlain("utp"); TrimPlain("wechat-video");
    TrimPlain("dtls"); TrimPlain("wireguard"); TrimPlain("dns");
  }

  lemma TrimPlain(s: string)
    requires s == "" || ('!' <= s[0] <= '~' && '!' <= s[|s| - 1] <= '~')
    ensures Trim(s) == s
  {
  }

  lemma SharedPathHost(p: string, h: string, hs: map<string, string>)
    ensures var q := ShareT(WsSpec(p, h)); Get(q, KPath) == p && Get(q, KHost) == h
    ensures var q := ShareT(UpgradeSpec(p, h, hs)); Get(q, KPath) == p && Get(q, KHost) == h
  {
  }

  lemma SharedGrpc(n: string, m: bool, a: string)
    ensures var q := ShareT(GrpcSpec(n, m, a));
      Get(q, KServiceName) == n && Get(q, KMode) == (if m then "multi" else "") && Get(q, KAuthority) == a
  {
  }

  lemma SharedXhttp(p: string, h: string, m: string, x: string)
    ensures var q := ShareT(XhttpSpec(p, h, m, x));
      && Get(q, KPath) == p && Get(q, KHost) == h
      && Get(q, KMode) == (if m == "auto" then "" else m) && Get(q, KExtra) == x
  {
  }

  lemma SharedKcp(t: string, sd: string)
    ensures var q := ShareT(KcpSpec(t, sd)); Get(q, KHeaderType) == t && Get(q, KSeed) == sd
  {
  }

  lemma Writers()
    ensures Writer(KPath) == Writer(KHost) == Writer(KServiceName) == Writer(KMode) == OfTransport
    ensures Writer(KAuthority) == Writer(KExtra) == Writer(KHeaderType) == Writer(KSeed) == OfTransport
    ensures Writer(KSni) == Writer(KAlpn) == Writer(KFp) == Writer(KAllowInsecure) == OfSecurity
    ensures Writer(KPbk) == Writer(KSid) == Writer(KSpx) == OfSecurity
  {
  }

  lemma ReparsePathHost(j: Json, s: TSpec, q: Query, alpn: string)
    requires CarriesT(q, s, alpn) && (s.WsSpec? || s.UpgradeSpec?)
    ensures ParseT(j, KindT(s), q) == RereadT(j, s, alpn)
  {
    hide Trim, ShareT, Get, Writer;
    assert Writer(KPath) == OfTransport && Writer(KHost) == OfTransport by { Writers(); }
    SharedPathHost(s.path, s.host, if s.UpgradeSpec? then s.headers else map[]);
  }

  lemma MultiFolds()
    ensures IsMulti("multi") && IsMulti("MULTI") && IsMulti("Multi") && !IsMulti("") && !IsMulti("gun")
  {
  }

  lemma ReparseGrpc(j: Json, s: TSpec, q: Query, alpn: string)
    requires CarriesT(q, s, alpn) && s.GrpcSpec?
    ensures ParseT(j, KindT(s), q) == RereadT(j, s, alpn)
  {
    hide Trim, IsMulti, ShareT, Get, Writer;
    Writers();
    MultiFolds();
    TrimPlain("");
    TrimPlain("multi");
    SharedGrpc(s.serviceName, s.multiMode, s.authority);
  }

  lemma ReparseXhttp(j: Json, s: TSpec, q: Query, alpn: string)
    requires CarriesT(q, s, alpn) && s.XhttpSpec? && s.mode in XHTTP_MODES
    ensures ParseT(j, KindT(s), q) == RereadT(j, s, alpn)
  {
    hide Trim, ShareT, Get, Writer;
    Writers();
    TrimConstants();
    SharedXhttp(s.path, s.host, s.mode, s.extra);
    assert Get(q, KMode) == if s.mode == "auto" then "" else s.mode;
  }

  lemma ReparseKcp(j: Json, s: TSpec, q: Query, alpn: string)
    requires CarriesT(q, s, alpn) && s.KcpSpec? && s.headerType in KCP_HEADERS
    ensures ParseT(j, KindT(s), q) == RereadT(j, s, alpn)
  {
    hide Trim, ShareT, Get, Writer;
    Writers();
    TrimConstants();
    SharedKcp(s.headerType, s.seed);
  }

  lemma ReparseT(j: Json, s: TSpec, q: Query, alpn: string)
    requires ValidT(s) && CarriesT(q, s, alpn)
    ensures ParseT(j, KindT(s), q) == RereadT(j, s, alpn)
  {
    hide CarriesT;
    match s {
      case TcpSpec =>
      case WsSpec(_, _) => ReparsePathHost(j, s, q, alpn);
      case GrpcSpec(_, _, _) => ReparseGrpc(j, s, q, alpn);
      case XhttpSpec(_, _, _, _) => ReparseXhttp(j, s, q, alpn);
      case UpgradeSpec(_, _, _) => ReparsePathHost(j, s, q, alpn);
      case KcpSpec(_, _) => ReparseKcp(j, s, q, alpn);
    }
    hide ParseT, RereadT, KindT;
  }

  function RereadS(s: SSpec): SSpec {
    match s
    case NoneSpec => NoneSpec
    case TlsSpec(n, a, f, i) => TlsSpec(Trim(n), SplitAlpn(AlpnLink(s)), Trim(f), i)
    case RealitySpec(n, f, p, i, x) => RealitySpec(Trim(n), Trim(f), Trim(p), Trim(i), Trim(x))
  }

  /** The ALPN text a security puts into the link. */
  function AlpnLink(s: SSpec): string {
    if s.TlsSpec? then Join(s.alpn, ',') else ""
  }

  function KindS(s: SSpec): Security {
    match s case NoneSpec => NoSecurity case TlsSpec(_, _, _, _) => Tls case RealitySpec(_, _, _, _, _) => Reality
  }

  ghost predicate CarriesS(q: Query, s: SSpec) {
    forall k :: Writer(k) == OfSecurity ==> Get(q, k) == Get(ShareS(s), k)
  }

  lemma TruthyFlags()
    ensures Truthy("1") && !Truthy("")
  {
    hide Trim;
    TrimPlain("1");
    TrimPlain("");
    assert Lower("1") == "1" && Lower("") == "";
  }

  lemma SharedAlpn(s: SSpec)
    ensures Get(ShareS(s), KAlpn) == AlpnLink(s)
  {
  }

  lemma SharedTls(n: string, a: seq<string>, f: string, i: bool)
    ensures var q := ShareS(TlsSpec(n, a, f, i));
      Get(q, KSni) == n && Get(q, KFp) == f && Get(q, KAllowInsecure) == (if i then "1" else "")
  {
  }

  lemma SharedReality(n: string, f: string, p: string, i: string, x: string)
    ensures var q := ShareS(RealitySpec(n, f, p, i, x));
      Get(q, KSni) == n && Get(q, KFp) == f && Get(q, KPbk) == p && Get(q, KSid) == i && Get(q, KSpx) == x
  {
  }

  lemma ReparseS(s: SSpec, q: Query)
    requires CarriesS(q, s)
    ensures ParseS(KindS(s), q) == RereadS(s)
    ensures Get(q, KAlpn) == AlpnLink(s)
  {
    hide Trim, Join, SplitAlpn, Truthy, AlpnLink, ShareS, Get, Writer;
    Writers();
    TruthyFlags();
    SharedAlpn(s);
    match s {
      case NoneSpec =>
      case TlsSpec(n, a, f, i) => SharedTls(n, a, f, i);
      case RealitySpec(n, f, p, i, x) => SharedReality(n, f, p, i, x);
    }
  }
}
