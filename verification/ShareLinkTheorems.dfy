/** Round trips between the structured form of a node and its share link. */
module ShareLinkTheorems {
  import opened Text
  import opened ShareLink
  import opened ShareLinkProofs

  // ----- ALPN lists -----

  predicate CleanAlpn(a: seq<string>) {
    forall e :: e in a ==> e != "" && Trim(e) == e && ',' !in e
  }

  lemma {:induction false} TrimAllIdentity(parts: seq<string>)
    requires forall e :: e in parts ==> e != "" && Trim(e) == e
    ensures TrimAll(parts) == parts
  {
    hide Trim;
    if parts != [] {
      var rest := parts[1..];
      assert forall e :: e in rest ==> e in parts;
      assert parts[0] in parts && parts == [parts[0]] + rest;
      TrimAllIdentity(rest);
    }
  }

  lemma {:induction false} TrimAllClean(parts: seq<string>)
    requires forall p :: p in parts ==> ',' !in p
    ensures CleanAlpn(TrimAll(parts))
  {
    hide Trim;
    if parts != [] {
      assert parts[0] in parts;
      assert forall p :: p in parts[1..] ==> p in parts;
      TrimAllClean(parts[1..]);
      TrimFacts(parts[0]);
    }
  }

  lemma {:induction false} JoinHead(a: seq<string>)
    requires a != [] && a[0] != ""
    ensures Join(a, ',') != "" && Join(a, ',')[0] == a[0][0]
  {
  }

  lemma JoinNothing()
    ensures Join<char>([], ',') == ""
  {
  }

  /** Joining with commas and splitting again is the identity exactly on clean lists. */
  lemma AlpnRoundTrip(a: seq<string>)
    ensures SplitAlpn(Join(a, ',')) == a <==> CleanAlpn(a)
  {
    hide Trim, IsSpace;
    if SplitAlpn(Join(a, ',')) == a {
      TrimAllClean(Split(Join(a, ','), ','));
    }
    if CleanAlpn(a) { CleanSurvives(a); }
  }

  lemma CleanSurvives(a: seq<string>)
    requires CleanAlpn(a)
    ensures SplitAlpn(Join(a, ',')) == a
  {
    hide Trim, IsSpace, Join, Split;
    if a == [] {
      TrimPlain("");
      JoinNothing();
    } else {
      assert a[0] in a;
      JoinHead(a);
      TrimFacts(a[0]);
      TrimFacts(Join(a, ','));
      SplitJoin(a, ',');
      TrimAllIdentity(a);
    }
  }

  // ----- names -----

  lemma NamesResolve(t: Transport, s: Security)
    ensures ResolveTransport(TransportName(t)) == Some(t) && TransportName(t) != ""
    ensures ResolveSecurity(SecurityName(s)) == Some(s) && SecurityName(s) != ""
    ensures Trim(TransportName(t)) == TransportName(t) && Trim(SecurityName(s)) == SecurityName(s)
  {
    hide Trim;
    TrimPlain(TransportName(t));
    TrimPlain(SecurityName(s));
    LowerPlain(TransportName(t));
    LowerPlain(SecurityName(s));
    hide Lower;
  }

  lemma LowerPlain(s: string)
    requires forall i :: 0 <= i < |s| ==> 'a' <= s[i] <= 'z'
    ensures Lower(s) == s
  {
  }

  // ----- what parsing a built link yields -----

  /** The pieces Build resolved and decoded. */
  ghost predicate Built(j: Json, input: Input, n: Node, t: Transport, s: Security, ts: TSpec, ss: SSpec) {
    && Trim(input.uuid) != "" && Trim(input.address) != "" && 0 < input.port <= 65535
    && KindT(ts) == t && KindS(ss) == s && ValidT(ts) && ValidS(ss)
    && ResolveTransport(OrElse(Trim(input.network), "tcp")) == Some(t)
    && ResolveSecurity(OrElse(Trim(input.security), "none")) == Some(s)
    && DecodeT(t, input.transport) == Some(ts) && DecodeS(s, input.securityCfg) == Some(ss)
    && n == Node(input.uuid, input.address, input.port, Trim(input.flow), OrElse(Trim(input.encryption), "none"),
                 Trim(input.packetEncoding), TransportName(t), EncodeT(j, ts), SecurityName(s), EncodeS(ss),
                 OrElse(Trim(input.display), input.address),
                 Link("vless", input.uuid, input.address, Some(input.port as nat),
                      BuildQuery(input, t, ts, s, ss), input.display))
  }

  lemma BuiltBy(j: Json, input: Input)
    requires Build(j, input).Some?
    ensures exists t, s, ts, ss :: Built(j, input, Build(j, input).value, t, s, ts, ss)
  {
    hide Trim, ResolveTransport, ResolveSecurity, TransportName, SecurityName, BuildQuery, EncodeT, EncodeS, ValidT,
      ValidS, OrElse;
    var t := ResolveTransport(OrElse(Trim(input.network), "tcp")).value;
    var s := ResolveSecurity(OrElse(Trim(input.security), "none")).value;
    var ts, ss := DecodeT(t, input.transport).value, DecodeS(s, input.securityCfg).value;
    assert Built(j, input, Build(j, input).value, t, s, ts, ss);
  }

  lemma BuildIs(j: Json, input: Input, n: Node, t: Transport, s: Security, ts: TSpec, ss: SSpec)
    requires Built(j, input, n, t, s, ts, ss)
    ensures Build(j, input) == Some(n)
  {
    hide Trim, ResolveTransport, ResolveSecurity, TransportName, SecurityName, BuildQuery, EncodeT, EncodeS, ValidT,
      ValidS, KindT, KindS;
  }

  lemma CommonGets(input: Input, t: Transport, s: Security)
    ensures var q := CommonQuery(input, t, s);
      && Get(q, KType) == TransportName(t) && Get(q, KSecurity) == SecurityName(s)
      && OrElse(Get(q, KEncryption), "none") == OrElse(Trim(input.encryption), "none")
      && (Get(q, KEncryption) == "" || Get(q, KEncryption) == Trim(input.encryption))
      && Get(q, KPacketEncoding) == Trim(input.packetEncoding) && Get(q, KFlow) == Trim(input.flow)
  {
    hide Trim, TransportName, SecurityName;
  }

  lemma TrimTwice(s: string)
    ensures Trim(Trim(s)) == Trim(s) && Trim("") == ""
  {
  }

  lemma RereadValid(j: Json, s: TSpec, alpn: string)
    requires ValidT(s)
    ensures ValidT(RereadT(j, s, alpn)) && KindT(RereadT(j, s, alpn)) == KindT(s)
  {
  }

  lemma Gets(input: Input, t: Transport, s: Security, ts: TSpec, ss: SSpec)
    ensures var q, c := BuildQuery(input, t, ts, s, ss), CommonQuery(input, t, s);
      && CarriesS(q, ss) && CarriesT(q, ts, AlpnLink(ss))
      && Get(q, KType) == Get(c, KType) && Get(q, KSecurity) == Get(c, KSecurity)
      && Get(q, KEncryption) == Get(c, KEncryption) && Get(q, KPacketEncoding) == Get(c, KPacketEncoding)
      && Get(q, KFlow) == Get(c, KFlow)
  {
    hide BuildQuery, CommonQuery, ShareT, ShareS, Get, AlpnLink;
    var q := BuildQuery(input, t, ts, s, ss);
    forall k
      ensures Get(q, k) == Contributed(input, t, ts, s, ss, k)
    {
      QueryGets(input, t, ts, s, ss, k);
    }
    assert Writer(KType) == Writer(KSecurity) == Writer(KEncryption) == Writer(KPacketEncoding) == Writer(KFlow)
      == Common;
    assert Get(q, KAlpn) == AlpnLink(ss) by { assert Writer(KAlpn) == OfSecurity; SharedAlpn(ss); }
  }

  /** The node a parse of the built link yields, whenever it yields one. */
  function Reparsed(j: Json, input: Input, n: Node, ts: TSpec, ss: SSpec): Node {
    n.(transport := EncodeT(j, RereadT(j, ts, AlpnLink(ss))), securityCfg := EncodeS(RereadS(ss)),
       display := OrElse(input.display, input.address))
  }

  lemma ParseOfBuild(j: Json, input: Input, n: Node, t: Transport, s: Security, ts: TSpec, ss: SSpec)
    requires Built(j, input, n, t, s, ts, ss)
    ensures Parse(j, n.link) == if ValidS(RereadS(ss)) then Some(Reparsed(j, input, n, ts, ss)) else None
  {
    hide Trim, Lower, ResolveTransport, ResolveSecurity, TransportName, SecurityName, BuildQuery, CommonQuery, Get,
      ParseT, ParseS, RereadT, RereadS, EncodeT, EncodeS, AlpnLink, CarriesT, CarriesS,
      ValidT, KindT, KindS, DecodeT, DecodeS;
    var q := n.link.query;
    Gets(input, t, s, ts, ss);
    CommonGets(input, t, s);
    NamesResolve(t, s);
    TrimTwice(input.flow);
    TrimTwice(input.encryption);
    TrimTwice(input.packetEncoding);
    ReparseT(j, ts, q, AlpnLink(ss));
    ReparseS(ss, q);
    RereadValid(j, ts, AlpnLink(ss));
    LowerPlain("vless");
  }

  // ----- when nothing drifts -----

  /** A raw message that came out of a JSON decoder. */
  predicate Decoded(j: Json, x: string) {
    x == "" || (j.valid(x) && Trim(x) == x)
  }

  /** Re-parsing keeps this transport; `alpn` is what TLS puts into the same link. */
  predicate CanonT(ts: TSpec, alpn: string) {
    match ts
    case TcpSpec => true
    case WsSpec(p, h) => Trim(p) == p && Trim(h) == h
    case GrpcSpec(n, _, a) => Trim(n) == n && Trim(a) == a && (n == "" ==> Trim(alpn) == "")
    case XhttpSpec(p, h, m, _) => Trim(p) == p && Trim(h) == h && m != ""
    case UpgradeSpec(p, h, hs) => Trim(p) == p && Trim(h) == h && hs == map[]
    case KcpSpec(_, s) => Trim(s) == s
  }

  predicate CanonS(ss: SSpec) {
    match ss
    case NoneSpec => true
    case TlsSpec(n, a, f, _) => Trim(n) == n && Trim(f) == f && CleanAlpn(a)
    case RealitySpec(n, f, p, i, x) => Trim(n) == n && Trim(f) == f && Trim(p) == p && Trim(i) == i && Trim(x) == x
  }

  lemma DriftT(j: Json, ts: TSpec, alpn: string)
    requires ts.XhttpSpec? ==> Decoded(j, ts.extra)
    ensures EncodeT(j, RereadT(j, ts, alpn)) == EncodeT(j, ts) <==> CanonT(ts, alpn)
  {
    hide Trim;
    TrimTwice(alpn);
    if ts.GrpcSpec? { TrimTwice(ts.serviceName); }
    if ts.XhttpSpec? { TrimTwice(ts.extra); }
  }

  lemma DriftS(ss: SSpec)
    ensures EncodeS(RereadS(ss)) == EncodeS(ss) <==> CanonS(ss)
  {
    hide Trim, Join, SplitAlpn, CleanAlpn;
    if ss.TlsSpec? { AlpnRoundTrip(ss.alpn); }
  }

  lemma DriftDisplay(display: string, address: string)
    requires Trim(address) != ""
    ensures OrElse(display, address) == OrElse(Trim(display), address) <==> Trim(display) == display
  {
  }

  /** The saved node is what a parse of its own link yields, exactly for canonical input. */
  lemma RoundTripIff(j: Json, input: Input, n: Node, t: Transport, s: Security, ts: TSpec, ss: SSpec)
    requires Built(j, input, n, t, s, ts, ss)
    requires ts.XhttpSpec? ==> Decoded(j, ts.extra)
    ensures Parse(j, n.link) == Some(n) <==>
      Trim(input.display) == input.display && CanonT(ts, AlpnLink(ss)) && CanonS(ss)
  {
    hide Parse, Trim, RereadT, RereadS, EncodeT, EncodeS, AlpnLink, CanonT, KindT, KindS, BuildQuery, ValidT,
      ResolveTransport, ResolveSecurity, DecodeT, DecodeS;
    ParseOfBuild(j, input, n, t, s, ts, ss);
    DriftT(j, ts, AlpnLink(ss));
    DriftS(ss);
    DriftDisplay(input.display, input.address);
    CanonStillValid(ss);
  }

  lemma CanonStillValid(ss: SSpec)
    ensures CanonS(ss) && ValidS(ss) ==> ValidS(RereadS(ss))
  {
  }

  // ----- normalisation is idempotent -----

  lemma ParsedT(j: Json, t: Transport, s: Security, q: Query)
    ensures var ts, ss := ParseT(j, t, q), ParseS(s, q);
      CanonT(ts, AlpnLink(ss)) && KindT(ts) == t && (ts.XhttpSpec? ==> Decoded(j, ts.extra))
  {
    hide Trim, Get, Join, TrimAll, Truthy, IsMulti;
    forall k
      ensures Trim(Trim(Get(q, k))) == Trim(Get(q, k))
    {
      TrimTwice(Get(q, k));
    }
    TrimPlain("");
    TrimPlain("auto");
    JoinNothing();
  }

  lemma ParsedS(s: Security, q: Query)
    ensures CanonS(ParseS(s, q)) && KindS(ParseS(s, q)) == s
  {
    hide Trim, Get, Split, TrimAll, Truthy, CleanAlpn;
    forall k
      ensures Trim(Trim(Get(q, k))) == Trim(Get(q, k))
    {
      TrimTwice(Get(q, k));
    }
    SplitClean(Get(q, KAlpn));
  }

  lemma SplitClean(raw: string)
    ensures CleanAlpn(SplitAlpn(raw))
  {
    hide Trim, TrimAll;
    if Trim(raw) != "" { TrimAllClean(Split(raw, ',')); }
  }

  /** Storing a spec compacts its raw message and changes nothing else. */
  function Stored(j: Json, ts: TSpec): TSpec {
    if ts.XhttpSpec? && ts.extra != "" then ts.(extra := j.compact(ts.extra)) else ts
  }

  lemma StoredSpecs(j: Json, ts: TSpec, ss: SSpec, alpn: string)
    requires Lawful(j) && ValidT(ts) && CanonT(ts, alpn) && (ts.XhttpSpec? ==> Decoded(j, ts.extra))
    ensures DecodeT(KindT(ts), Some(EncodeT(j, ts))) == Some(Stored(j, ts))
      && DecodeS(KindS(ss), Some(EncodeS(ss))) == Some(ss)
    ensures var st := Stored(j, ts);
      && ValidT(st) && KindT(st) == KindT(ts) && CanonT(st, alpn) && EncodeT(j, st) == EncodeT(j, ts)
      && (st.XhttpSpec? ==> Decoded(j, st.extra))
  {
    hide Trim;
  }

  /** The pieces a successful parse resolved. */
  ghost predicate ParsedAs(j: Json, l: Link, n: Node, t: Transport, s: Security, ts: TSpec, ss: SSpec) {
    && ts == ParseT(j, t, l.query) && ss == ParseS(s, l.query) && ValidT(ts) && ValidS(ss)
    && l.user != "" && l.host != ""
    && n == Node(l.user, l.host, if l.port.Some? then l.port.value else 443,
         Trim(Get(l.query, KFlow)), OrElse(Trim(Get(l.query, KEncryption)), "none"),
         Trim(Get(l.query, KPacketEncoding)),
         TransportName(t), EncodeT(j, ts), SecurityName(s), EncodeS(ss), OrElse(l.fragment, l.host), l)
  }

  lemma ParsedBy(j: Json, l: Link)
    requires Parse(j, l).Some?
    ensures exists t, s, ts, ss :: ParsedAs(j, l, Parse(j, l).value, t, s, ts, ss)
  {
    hide Trim, Lower, ResolveTransport, ResolveSecurity, TransportName, SecurityName, EncodeT, EncodeS, ValidT,
      ValidS, ParseT, ParseS, Get;
    var t := ResolveTransport(OrElse(Get(l.query, KType), "tcp")).value;
    var s := ResolveSecurity(OrElse(Get(l.query, KSecurity), "none")).value;
    assert ParsedAs(j, l, Parse(j, l).value, t, s, ParseT(j, t, l.query), ParseS(s, l.query));
  }

  /** Rebuilding a parsed node from its own fields and parsing that link gives the same node again,
      up to the link itself, for every transport and security. */
  lemma NormalisationIsIdempotent(j: Json, l: Link)
    requires Lawful(j) && Parse(j, l).Some?
    requires 1 <= Parse(j, l).value.port <= 65535 && Trim(l.user) != "" && Trim(l.host) != ""
    ensures var n, built := Parse(j, l).value, Build(j, Fields(Parse(j, l).value));
      built.Some? && Parse(j, built.value.link) == Some(n.(link := built.value.link))
  {
    hide Parse, Build, Built, Trim, Get;
    ParsedBy(j, l);
    var n := Parse(j, l).value;
    var t, s, ts, ss :| ParsedAs(j, l, n, t, s, ts, ss);
    Rebuild(j, l, n, t, s, ts, ss);
  }

  lemma Rebuild(j: Json, l: Link, n: Node, t: Transport, s: Security, ts: TSpec, ss: SSpec)
    requires Lawful(j) && ParsedAs(j, l, n, t, s, ts, ss)
    requires 1 <= n.port <= 65535 && Trim(l.user) != "" && Trim(l.host) != ""
    ensures var built := Build(j, Fields(n));
      built.Some? && Parse(j, built.value.link) == Some(n.(link := built.value.link))
  {
    hide Parse, Build, Trim, Get, ParseT, ParseS, ResolveTransport, ResolveSecurity, TransportName, SecurityName,
      EncodeT, EncodeS, ValidT, ValidS, BuildQuery, CanonT, CanonS, KindT, KindS, DecodeT, DecodeS, Stored,
      RereadT, RereadS, AlpnLink;
    var st := Stored(j, ts);
    ParsedT(j, t, s, l.query);
    ParsedS(s, l.query);
    StoredSpecs(j, ts, ss, AlpnLink(ss));
    var input := Fields(n);
    var n2 := Node(n.uuid, n.address, n.port, n.flow, n.encryption, n.packetEncoding, n.network, n.transport,
      n.security, n.securityCfg,
      OrElse(Trim(n.display), n.address),
      Link("vless", n.uuid, n.address, Some(n.port as nat), BuildQuery(input, t, st, s, ss), n.display));
    NamesResolve(t, s);
    TrimTwice(Get(l.query, KFlow));
    TrimTwice(Get(l.query, KEncryption));
    TrimTwice(Get(l.query, KPacketEncoding));
    TrimPlain("none");
    assert Built(j, input, n2, t, s, st, ss);
    BuildIs(j, input, n2, t, s, st, ss);
    ParseOfBuild(j, input, n2, t, s, st, ss);
    DriftT(j, st, AlpnLink(ss));
    DriftS(ss);
    CanonStillValid(ss);
  }

  // ----- the saved form is the running config -----

  /** A WebSocket path without a leading slash is emitted as "/", so such paths need not be kept. */
  predicate KeepsPath(p: string) {
    if HasPrefix(p, "/") then Trim(p) == p else !HasPrefix(Trim(p), "/") || Trim(p) == "/"
  }

  /** What a share link can carry of a transport. Custom headers never; white space around a value
      only where it makes no difference; an empty gRPC service name only without an ALPN list, which
      a parse takes for the service name. */
  predicate KeepsSettings(ts: TSpec, alpn: string) {
    match ts
    case TcpSpec => true
    case WsSpec(p, h) => KeepsPath(p) && Trim(h) == h
    case GrpcSpec(n, _, a) => (if n == "" then Trim(alpn) in {"", "GunService"} else Trim(n) == n) && Trim(a) == a
    case XhttpSpec(p, h, _, _) => Trim(p) == p && Trim(h) == h
    case UpgradeSpec(p, h, hs) => Trim(p) == p && Trim(h) == h && hs == map[]
    case KcpSpec(_, s) => Trim(s) == s
  }

  /** And of a security; the TLS fingerprint is not emitted. */
  predicate KeepsSecurity(ss: SSpec) {
    match ss
    case NoneSpec => true
    case TlsSpec(n, a, _, _) => Trim(n) == n && CleanAlpn(a)
    case RealitySpec(n, f, p, i, x) => Trim(n) == n && Trim(f) == f && Trim(p) == p && Trim(i) == i && Trim(x) == x
  }

  /** A REALITY key of white space only: its link no longer parses. */
  predicate BlankKey(ss: SSpec) {
    ss.RealitySpec? && Trim(ss.publicKey) == ""
  }

  lemma SettingsT(j: Json, ts: TSpec, alpn: string)
    requires ts.XhttpSpec? ==> Decoded(j, ts.extra)
    ensures EmitT(j, Stored(j, RereadT(j, ts, alpn))) == EmitT(j, Stored(j, ts)) <==> KeepsSettings(ts, alpn)
  {
    hide Trim, HasPrefix;
    TrimTwice(alpn);
    match ts {
      case TcpSpec =>
      case WsSpec(p, _) => SlashStays(p);
      case GrpcSpec(n, _, _) => TrimTwice(n); SlashPlain();
      case XhttpSpec(p, _, _, x) => TrimTwice(p); TrimTwice(x); SlashPlain();
      case UpgradeSpec(p, _, _) => TrimTwice(p); SlashPlain();
      case KcpSpec(_, _) =>
    }
  }

  lemma SlashPlain()
    ensures Trim("/") == "/" && Trim("GunService") == "GunService" && Trim("chrome") == "chrome"
  {
    hide Trim;
    TrimPlain("/");
    TrimPlain("GunService");
    TrimPlain("chrome");
  }

  lemma SlashStays(p: string)
    ensures HasPrefix(p, "/") ==> HasPrefix(Trim(p), "/")
  {
    if HasPrefix(p, "/") { TrimHead(p); }
  }

  lemma {:induction false} TrimHead(s: string)
    requires s != "" && !IsSpace(s[0])
    ensures Trim(s) != "" && Trim(s)[0] == s[0]
  {
    hide IsSpace;
    if IsSpace(s[|s| - 1]) { TrimHead(s[..|s| - 1]); }
  }

  lemma SettingsS(ss: SSpec)
    ensures EmitS(RereadS(ss)) == EmitS(ss) <==> KeepsSecurity(ss)
    ensures ValidS(ss) ==> (ValidS(RereadS(ss)) <==> !BlankKey(ss))
  {
    hide Trim, Join, SplitAlpn, CleanAlpn, AlpnLink;
    SlashPlain();
    match ss {
      case NoneSpec =>
      case TlsSpec(_, a, _, _) => AlpnRoundTrip(a); JoinedAlpn(ss);
      case RealitySpec(_, f, _, _, x) => TrimTwice(f); TrimTwice(x);
    }
  }

  lemma JoinedAlpn(ss: SSpec)
    requires ss.TlsSpec?
    ensures AlpnLink(ss) == Join(ss.alpn, ',')
  {
  }

  lemma StoredAs(j: Json, ts: TSpec, ss: SSpec)
    ensures DecodeT(KindT(ts), Some(EncodeT(j, ts))) == Some(Stored(j, ts))
      && DecodeS(KindS(ss), Some(EncodeS(ss))) == Some(ss)
  {
  }

  lemma EmitOf(j: Json, n: Node, t: Transport, s: Security, ts: TSpec, ss: SSpec)
    requires n.network == TransportName(t) && n.security == SecurityName(s) && KindT(ts) == t && KindS(ss) == s
    requires n.transport == EncodeT(j, ts) && n.securityCfg == EncodeS(ss)
    ensures Emit(j, n) == StreamSettings(TransportName(t), SecurityName(s), EmitT(j, Stored(j, ts)), EmitS(ss))
  {
    hide EmitT, EmitS, TransportName, SecurityName, ResolveTransport, ResolveSecurity, KindT, KindS, EncodeT, EncodeS,
      DecodeT, DecodeS, Stored;
    NamesResolve(t, s);
    StoredAs(j, ts, ss);
  }

  /** The node Start and ReloadNodes run: its link parsed anew, or the stored fields should that fail. */
  function Running(j: Json, n: Node): Node {
    match Parse(j, n.link)
    case Some(again) => again
    case None => n
  }

  /** Whatever is stored, re-parsing touches nothing but transport, security and display name. */
  lemma RunningKeepsTheRest(j: Json, input: Input, n: Node, t: Transport, s: Security, ts: TSpec, ss: SSpec)
    requires Built(j, input, n, t, s, ts, ss)
    ensures var r := Running(j, n);
      r.(transport := n.transport, securityCfg := n.securityCfg, display := n.display) == n
  {
    hide Parse, Trim, RereadT, RereadS, EncodeT, EncodeS, AlpnLink, KindT, KindS, BuildQuery, ValidT, ValidS,
      ResolveTransport, ResolveSecurity, DecodeT, DecodeS, TransportName, SecurityName;
    ParseOfBuild(j, input, n, t, s, ts, ss);
  }

  /** The settings that run, after a start has re-parsed the link, are those of the stored node
      exactly when the link can carry them, or no longer parses so that the stored ones run. */
  lemma SavedFormIsRunningConfig(j: Json, input: Input, n: Node, t: Transport, s: Security, ts: TSpec, ss: SSpec)
    requires Built(j, input, n, t, s, ts, ss)
    requires ts.XhttpSpec? ==> Decoded(j, ts.extra)
    ensures Parse(j, n.link).Some? <==> !BlankKey(ss)
    ensures Emit(j, Running(j, n)) == Emit(j, n)
      <==> BlankKey(ss) || (KeepsSettings(ts, AlpnLink(ss)) && KeepsSecurity(ss))
  {
    hide Parse, Trim, RereadT, RereadS, EncodeT, EncodeS, AlpnLink, KindT, KindS, BuildQuery, ValidT, ValidS,
      ResolveTransport, ResolveSecurity, DecodeT, DecodeS, Emit, EmitT, EmitS, Stored,
      KeepsSettings, KeepsSecurity, BlankKey, TransportName, SecurityName;
    ParseOfBuild(j, input, n, t, s, ts, ss);
    SettingsS(ss);
    if !BlankKey(ss) {
      RereadValid(j, ts, AlpnLink(ss));
      RereadKind(ss);
      SettingsT(j, ts, AlpnLink(ss));
      EmitOf(j, n, t, s, ts, ss);
      EmitOf(j, Reparsed(j, input, n, ts, ss), t, s, RereadT(j, ts, AlpnLink(ss)), RereadS(ss));
    }
  }

  lemma RereadKind(ss: SSpec)
    ensures KindS(RereadS(ss)) == KindS(ss)
  {
  }

  /** A gRPC node over TLS with an empty service name and one ALPN entry. */
  const GRPC_WITH_ALPN := Input("node", "user", "example.net", 443, "", "", "",
    "grpc", Some(NO_TRANSPORT), "tls", Some(NO_SECURITY.(alpn := ["h2"])))

  lemma PlainInput()
    ensures Trim("node") == "node" && Trim("user") == "user" && Trim("example.net") == "example.net" && Trim("") == ""
    ensures Trim("grpc") == "grpc" && Trim("tls") == "tls" && Trim("h2") == "h2"
  {
    hide Trim;
    TrimPlain("node"); TrimPlain("user"); TrimPlain("example.net"); TrimPlain(""); TrimPlain("grpc");
      TrimPlain("tls"); TrimPlain("h2");
  }

  lemma GrpcTlsNames()
    ensures ResolveTransport(OrElse(Trim("grpc"), "tcp")) == Some(Grpc)
      && ResolveSecurity(OrElse(Trim("tls"), "none")) == Some(Tls)
  {
    hide ResolveTransport, ResolveSecurity, Trim, Lower;
    NamesResolve(Grpc, Tls);
  }

  /** Saving this node and restarting changes what runs: the ALPN entry becomes the service name. */
  lemma SavedFormDrifts(j: Json)
    ensures var built := Build(j, GRPC_WITH_ALPN);
      built.Some? && Emit(j, Running(j, built.value)) != Emit(j, built.value)
  {
    hide Parse, Build, Trim, ResolveTransport, ResolveSecurity, BuildQuery, Emit, Lower;
    var ts, ss := GrpcSpec("", false, ""), TlsSpec("", ["h2"], "", false);
    PlainInput();
    GrpcTlsNames();
    var input := GRPC_WITH_ALPN;
    var n := Node("user", "example.net", 443, "", "none", "",
      TransportName(Grpc), EncodeT(j, ts), SecurityName(Tls), EncodeS(ss), "node",
      Link("vless", "user", "example.net", Some(443), BuildQuery(input, Grpc, ts, Tls, ss), "node"));
    assert Built(j, input, n, Grpc, Tls, ts, ss);
    BuildIs(j, input, n, Grpc, Tls, ts, ss);
    assert AlpnLink(ss) == "h2" && !BlankKey(ss);
    SavedFormIsRunningConfig(j, input, n, Grpc, Tls, ts, ss);
  }
}
