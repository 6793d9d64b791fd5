/** What a structured input or a share link comes to, field by field: which are accepted, and what
    is emitted for them. */
module ShareLinkFields {
  import opened Text
  import opened ShareLink
  import opened ShareLinkProofs
  import opened ShareLinkTheorems

  const MODES: set<string> := {"", "auto", "packet-up", "stream-up", "stream-one"}
  const HEADER_TYPES: set<string> := {"", "none", "srtp", "utp", "wechat-video", "dtls", "wireguard", "dns"}

  // ----- names and aliases -----

  /** The names and aliases of each transport, in any case and with any white space around them. */
  lemma TransportNames(name: string)
    ensures var key, r := Lower(Trim(name)), ResolveTransport(name);
      && (r == Some(Tcp) <==> key == "tcp")
      && (r == Some(Ws) <==> key == "ws" || key == "websocket")
      && (r == Some(Grpc) <==> key == "grpc" || key == "gun")
      && (r == Some(Xhttp) <==> key == "xhttp" || key == "splithttp")
      && (r == Some(HttpUpgrade) <==> key == "httpupgrade")
      && (r == Some(Kcp) <==> key == "kcp" || key == "mkcp")
  {
    hide Lower, Trim;
  }

  lemma SecurityNames(name: string)
    ensures var key, r := Lower(Trim(name)), ResolveSecurity(name);
      && (r == Some(NoSecurity) <==> key == "none")
      && (r == Some(Tls) <==> key == "tls")
      && (r == Some(Reality) <==> key == "reality")
  {
    hide Lower, Trim;
  }

  lemma CanonicalNames(t: Transport, s: Security)
    ensures TransportName(t) == match t
      case Tcp => "tcp" case Ws => "ws" case Grpc => "grpc"
      case Xhttp => "xhttp" case HttpUpgrade => "httpupgrade" case Kcp => "kcp"
    ensures SecurityName(s) == match s case NoSecurity => "none" case Tls => "tls" case Reality => "reality"
  {
  }

  // ----- what is emitted for a stored config -----

  predicate EmittedT(j: Json, t: Transport, f: TJson, o: StreamSettings) {
    match t
    case Tcp => o.network == "tcp" && o.transport == TcpOut
    case Ws =>
      o.network == "ws" && o.transport == WsOut(if f.path != "" && f.path[0] == '/' then f.path else "/", f.host)
    case Grpc =>
      && o.network == "grpc"
      && o.transport == GrpcOut(if f.serviceName == "" then "GunService" else f.serviceName, f.multiMode, f.authority)
    case Xhttp =>
      && o.network == "xhttp"
      && o.transport == XhttpOut(if f.path == "" then "/" else f.path, if f.mode == "" then "auto" else f.mode, f.host,
                                 if f.extra != "" && j.isObject(f.extra) then Some(f.extra) else None)
    case HttpUpgrade =>
      o.network == "httpupgrade" && o.transport == UpgradeOut(if f.path == "" then "/" else f.path, f.host, f.headers)
    case Kcp => o.network == "kcp" && o.transport == KcpOut(if f.headerType == "" then "none" else f.headerType, f.seed)
  }

  predicate EmittedS(s: Security, g: SJson, o: StreamSettings) {
    match s
    case NoSecurity => o.security == "none" && o.tls == NoneOut
    case Tls => o.security == "tls" && o.tls == TlsOut(g.allowInsecure, g.serverName, g.alpn)
    case Reality =>
      && o.security == "reality"
      && o.tls == RealityOut(if g.fingerprint == "" then "chrome" else g.fingerprint, g.serverName, g.publicKey,
                             g.shortId, if g.spiderX == "" then "/" else g.spiderX)
  }

  lemma EmittedOf(j: Json, n: Node, t: Transport, s: Security)
    requires n.network == TransportName(t) && n.security == SecurityName(s)
    ensures EmittedT(j, t, n.transport, Emit(j, n)) && EmittedS(s, n.securityCfg, Emit(j, n))
  {
    hide ResolveTransport, ResolveSecurity, Trim, Lower;
    NamesResolve(t, s);
  }

  /** A stored name that does not resolve counts as plain TCP, or as no security. */
  lemma UnknownNamesFallBack(j: Json, n: Node)
    ensures n.network != "" && ResolveTransport(n.network).None? ==> EmittedT(j, Tcp, n.transport, Emit(j, n))
    ensures n.security != "" && ResolveSecurity(n.security).None? ==> EmittedS(NoSecurity, n.securityCfg, Emit(j, n))
  {
    hide ResolveTransport, ResolveSecurity;
  }

  // ----- from the structured form -----

  /** A config as it is stored: raw messages are compacted. */
  function Compacted(j: Json, f: TJson): TJson {
    f.(extra := if f.extra == "" then "" else j.compact(f.extra))
  }

  /** For an accepted input exactly its own configs are emitted, of the transport and security that
      its names stand for. */
  lemma EmittedOfInput(j: Json, input: Input, t: Transport, s: Security)
    requires Build(j, input).Some?
    requires ResolveTransport(OrElse(Trim(input.network), "tcp")) == Some(t)
    requires ResolveSecurity(OrElse(Trim(input.security), "none")) == Some(s)
    ensures var o := Emit(j, Build(j, input).value);
      && (t.Tcp? || input.transport.Some?) && (s.NoSecurity? || input.securityCfg.Some?)
      && EmittedT(j, t, if t.Tcp? then NO_TRANSPORT else Compacted(j, input.transport.value), o)
      && EmittedS(s, if s.NoSecurity? then NO_SECURITY else input.securityCfg.value, o)
  {
    hide Build, Emit, Trim, Lower, ResolveTransport, ResolveSecurity, BuildQuery, EmittedT, EmittedS, Compacted,
      EncodeT, EncodeS, TransportName, SecurityName, ValidT, ValidS, KindT, KindS, OrElse;
    BuiltBy(j, input);
    var n := Build(j, input).value;
    var u, v, ts, ss :| Built(j, input, n, u, v, ts, ss);
    EmittedOf(j, n, t, s);
    if input.transport.Some? { OwnFieldsT(j, t, input.transport.value, Emit(j, n)); }
    if input.securityCfg.Some? { OwnFieldsS(s, input.securityCfg.value, Emit(j, n)); }
    NoFields(j, Emit(j, n), n.transport, n.securityCfg);
  }

  /** Storing a config keeps the fields its transport emits. */
  lemma OwnFieldsT(j: Json, t: Transport, f: TJson, o: StreamSettings)
    ensures EmittedT(j, t, EncodeT(j, DecodeT(t, Some(f)).value), o) ==> EmittedT(j, t, Compacted(j, f), o)
  {
  }

  lemma OwnFieldsS(s: Security, g: SJson, o: StreamSettings)
    ensures EmittedS(s, EncodeS(DecodeS(s, Some(g)).value), o) ==> EmittedS(s, g, o)
  {
  }

  lemma NoFields(j: Json, o: StreamSettings, f: TJson, g: SJson)
    ensures EmittedT(j, Tcp, f, o) ==> EmittedT(j, Tcp, NO_TRANSPORT, o)
    ensures EmittedS(NoSecurity, g, o) ==> EmittedS(NoSecurity, NO_SECURITY, o)
  {
  }

  /** Exactly which inputs are accepted. */
  lemma AcceptsInputIff(j: Json, input: Input)
    ensures Build(j, input).Some? <==>
      && Trim(input.uuid) != "" && Trim(input.address) != "" && 1 <= input.port <= 65535
      && var t := ResolveTransport(if Trim(input.network) == "" then "tcp" else input.network);
      var s := ResolveSecurity(if Trim(input.security) == "" then "none" else input.security);
      && t.Some? && s.Some?
      && (t.value.Tcp? || input.transport.Some?) && (s.value.NoSecurity? || input.securityCfg.Some?)
      && (t.value.Xhttp? ==> input.transport.value.mode in MODES)
      && (t.value.Kcp? ==> input.transport.value.headerType in HEADER_TYPES)
      && (s.value.Reality? ==> input.securityCfg.value.publicKey != "")
  {
    SameName(input.network, "tcp");
    SameName(input.security, "none");
    hide Trim, ResolveTransport, ResolveSecurity, TransportName, SecurityName, BuildQuery, EncodeT, EncodeS,
      CommonQuery;
    var t := ResolveTransport(OrElse(Trim(input.network), "tcp"));
    var s := ResolveSecurity(OrElse(Trim(input.security), "none"));
    if t.Some? { ValidInputT(t.value, input.transport); }
    if s.Some? { ValidInputS(s.value, input.securityCfg); }
    hide DecodeT, DecodeS, ValidT, ValidS, XHTTP_MODES, KCP_HEADERS;
  }

  lemma ValidInputT(t: Transport, c: Option<TJson>)
    ensures var ts := DecodeT(t, c);
      (ts.Some? && ValidT(ts.value)) <==>
        && (t.Tcp? || c.Some?)
        && (t.Xhttp? ==> c.value.mode in MODES)
        && (t.Kcp? ==> c.value.headerType in HEADER_TYPES)
  {
  }

  lemma ValidInputS(s: Security, c: Option<SJson>)
    ensures var ss := DecodeS(s, c);
      (ss.Some? && ValidS(ss.value)) <==> (s.NoSecurity? || c.Some?) && (s.Reality? ==> c.value.publicKey != "")
  {
  }

  /** Names are resolved trimmed or not. */
  lemma SameName(name: string, def: string)
    ensures Trim(name) != "" ==> ResolveTransport(OrElse(Trim(name), def)) == ResolveTransport(name)
    ensures Trim(name) != "" ==> ResolveSecurity(OrElse(Trim(name), def)) == ResolveSecurity(name)
  {
    hide Trim, Lower;
    TrimTwice(name);
  }

  // ----- from a share link -----

  /** The transport fields of a link, by query key. */
  function LinkT(j: Json, t: Transport, q: Query): TJson {
    var path, host, mode := Trim(Get(q, KPath)), Trim(Get(q, KHost)), Trim(Get(q, KMode));
    var service, extra := Trim(Get(q, KServiceName)), Trim(Get(q, KExtra));
    match t
    case Tcp => TJson("", "", "", false, "", "", "", map[], "", "")
    case Ws => TJson(path, host, "", false, "", "", "", map[], "", "")
    case Grpc => TJson("", "", if service == "" then Trim(Get(q, KAlpn)) else service, IsMulti(mode),
                       Trim(Get(q, KAuthority)), "", "", map[], "", "")
    case Xhttp => TJson(path, host, "", false, "", if mode == "" then "auto" else mode,
                        if extra != "" && j.valid(extra) then j.compact(extra) else "", map[], "", "")
    case HttpUpgrade => TJson(path, host, "", false, "", "", "", map[], "", "")
    case Kcp => TJson("", "", "", false, "", "", "", map[], Trim(Get(q, KHeaderType)), Trim(Get(q, KSeed)))
  }

  function LinkS(s: Security, q: Query): SJson {
    var sni, fp := Trim(Get(q, KSni)), Trim(Get(q, KFp));
    match s
    case NoSecurity => SJson("", [], "", false, "", "", "")
    case Tls => SJson(sni, SplitAlpn(Get(q, KAlpn)), fp, Lower(Trim(Get(q, KAllowInsecure))) in {"1", "true", "yes"},
                      "", "", "")
    case Reality => SJson(sni, [], fp, false, Trim(Get(q, KPbk)), Trim(Get(q, KSid)), Trim(Get(q, KSpx)))
  }

  /** Exactly which links are accepted, and every field of the node that one becomes. */
  lemma FieldsOfLink(j: Json, l: Link)
    ensures var q := l.query;
      var t := ResolveTransport(if Get(q, KType) == "" then "tcp" else Get(q, KType));
      var s := ResolveSecurity(if Get(q, KSecurity) == "" then "none" else Get(q, KSecurity));
      && (Parse(j, l).Some? <==>
            && Lower(l.scheme) == "vless" && l.user != "" && l.host != ""
            && (l.port.Some? ==> l.port.value <= 0x7fff_ffff_ffff_ffff) && t.Some? && s.Some?
            && (t.value.Xhttp? ==> Trim(Get(q, KMode)) in MODES)
            && (t.value.Kcp? ==> Trim(Get(q, KHeaderType)) in HEADER_TYPES)
            && (s.value.Reality? ==> Trim(Get(q, KPbk)) != ""))
      && (Parse(j, l).Some? ==>
            Parse(j, l) == Some(Node(l.user, l.host, if l.port.Some? then l.port.value else 443,
              Trim(Get(q, KFlow)), if Trim(Get(q, KEncryption)) == "" then "none" else Trim(Get(q, KEncryption)),
              Trim(Get(q, KPacketEncoding)),
              TransportName(t.value), LinkT(j, t.value, q), SecurityName(s.value), LinkS(s.value, q),
              if l.fragment == "" then l.host else l.fragment, l)))
  {
    hide Trim, Get, ResolveTransport, ResolveSecurity, TransportName, SecurityName, IsMulti, SplitAlpn, Lower;
    assert "auto" in XHTTP_MODES;
  }

  /** What is emitted for a link, by query key. */
  lemma EmittedOfLink(j: Json, l: Link, t: Transport, s: Security)
    requires Parse(j, l).Some?
    requires ResolveTransport(if Get(l.query, KType) == "" then "tcp" else Get(l.query, KType)) == Some(t)
    requires ResolveSecurity(if Get(l.query, KSecurity) == "" then "none" else Get(l.query, KSecurity)) == Some(s)
    ensures var o := Emit(j, Parse(j, l).value);
      EmittedT(j, t, LinkT(j, t, l.query), o) && EmittedS(s, LinkS(s, l.query), o)
  {
    FieldsOfLink(j, l);
    EmittedOf(j, Parse(j, l).value, t, s);
    hide Parse, Emit, Trim, Get, ResolveTransport, ResolveSecurity, TransportName, SecurityName, LinkT, LinkS,
      EmittedT, EmittedS;
  }
}
