/** The mangle chain of one tunnel: its rules, and what iptables does with a packet. */
module Tproxy {
  import opened Text

  datatype Proto = Tcp | Udp | Icmp | OtherProto(number: nat)
  datatype Packet = Packet(dst: string, proto: Proto, dport: nat, syn: bool, rst: bool)

  datatype Criteria = Criteria(dst: Option<string>, proto: Option<Proto>, dport: Option<nat>, synOnly: bool)
  datatype Target = RETURN | DROP | TCPMSS(size: int) | TPROXY(port: nat, mark: nat)
  datatype MangleRule = MangleRule(on: Criteria, target: Target)

  const DEFAULT_MSS_CLAMP := 1280

  /** The arguments of SetupTProxy that shape the chain. */
  datatype ChainCfg = ChainCfg(gateway: string, flow: string, mssClamp: int, port: nat, mark: nat)

  /** True for Vision flows that cannot carry QUIC. */
  predicate DropQuicVision(flow: string) {
    var f := Lower(Trim(flow));
    if f == "" then false
    else if Contains(f, "vision-udp443") then false
    else Contains(f, "vision")
  }

  function To(dst: Option<string>, proto: Option<Proto>, dport: Option<nat>, target: Target): MangleRule {
    MangleRule(Criteria(dst, proto, dport, false), target)
  }

  /** The parts of a chain, in the order SetupTProxy appends them. */
  datatype Part = Dns | IcmpReturn | Clamp | TcpProxy | QuicDrop | UdpProxy | Rest

  function Place(part: Part): nat {
    match part
    case Dns => 0 case IcmpReturn => 1 case Clamp => 2 case TcpProxy => 3
    case QuicDrop => 4 case UdpProxy => 5 case Rest => 6
  }

  function Before(part: Part): Part {
    match part
    case Rest => UdpProxy case UdpProxy => QuicDrop case QuicDrop => TcpProxy
    case TcpProxy => Clamp case Clamp => IcmpReturn case _ => Dns
  }

  function Mss(c: ChainCfg): int {
    if c.mssClamp <= 0 then DEFAULT_MSS_CLAMP else c.mssClamp
  }

  function DnsRules(c: ChainCfg): seq<MangleRule> {
    var g := Trim(c.gateway);
    if g == "" then [] else [To(Some(g), Some(Udp), Some(53), RETURN), To(Some(g), Some(Tcp), Some(53), RETURN)]
  }

  function PartRules(c: ChainCfg, part: Part): seq<MangleRule> {
    match part
    case Dns => DnsRules(c)
    case IcmpReturn => [To(None, Some(Icmp), None, RETURN)]
    case Clamp => [MangleRule(Criteria(None, Some(Tcp), None, true), TCPMSS(Mss(c)))]
    case TcpProxy => [To(None, Some(Tcp), None, TPROXY(c.port, c.mark))]
    case QuicDrop => if DropQuicVision(c.flow) then [To(None, Some(Udp), Some(443), DROP)] else []
    case UdpProxy => [To(None, Some(Udp), None, TPROXY(c.port, c.mark))]
    case Rest => [To(None, None, None, RETURN)]
  }

  /** The rules appended up to and with a part. */
  function ChainUpTo(c: ChainCfg, part: Part): seq<MangleRule>
    decreases Place(part), c
  {
    if part == Dns then DnsRules(c) else ChainUpTo(c, Before(part)) + PartRules(c, part)
  }

  /** The rules SetupTProxy appends, in order. */
  function BuildChain(c: ChainCfg): seq<MangleRule> {
    ChainUpTo(c, Rest)
  }

  predicate Matches(m: Criteria, p: Packet) {
    && (m.dst.Some? ==> m.dst.value == p.dst)
    && (m.proto.Some? ==> m.proto.value == p.proto)
    && (m.dport.Some? ==> m.dport.value == p.dport)
    && (m.synOnly ==> p.syn && !p.rst)
  }

  datatype Action = Returned | Dropped | Proxied(port: nat, mark: nat)
  /** The fate of a packet and the MSS written into it, if any. */
  datatype Verdict = Verdict(action: Action, mss: Option<int>)

  /** First match; TCPMSS edits the packet and goes on; the end of the chain returns. */
  function Eval(rules: seq<MangleRule>, p: Packet, mss: Option<int>): Verdict {
    if rules == [] then Verdict(Returned, mss)
    else if !Matches(rules[0].on, p) then Eval(rules[1..], p, mss)
    else match rules[0].target
      case RETURN => Verdict(Returned, mss)
      case DROP => Verdict(Dropped, mss)
      case TPROXY(port, mark) => Verdict(Proxied(port, mark), mss)
      case TCPMSS(size) => Eval(rules[1..], p, Some(size))
  }

  /** The intended treatment of a packet, stated without the chain. */
  function Decide(c: ChainCfg, p: Packet): Verdict {
    var proxied := Proxied(c.port, c.mark);
    match p.proto
    case Icmp => Verdict(Returned, None)
    case OtherProto(_) => Verdict(Returned, None)
    case Tcp =>
      if IsGatewayDns(c, p) then Verdict(Returned, None)
      else Verdict(proxied, if p.syn && !p.rst then Some(if c.mssClamp > 0 then c.mssClamp else 1280) else None)
    case Udp =>
      if IsGatewayDns(c, p) then Verdict(Returned, None)
      else if p.dport == 443 && VisionWithoutUdp443(c.flow) then Verdict(Dropped, None)
      else Verdict(proxied, None)
  }

  predicate IsGatewayDns(c: ChainCfg, p: Packet) {
    Trim(c.gateway) != "" && p.dst == Trim(c.gateway) && p.dport == 53
  }

  predicate VisionWithoutUdp443(flow: string) {
    var f := Lower(Trim(flow));
    Contains(f, "vision") && !Contains(f, "vision-udp443")
  }

  /** What the first rule makes of a packet, given the rest of the chain. */
  function FirstRule(r: MangleRule, rest: seq<MangleRule>, p: Packet, mss: Option<int>): Verdict {
    if !Matches(r.on, p) then Eval(rest, p, mss)
    else match r.target
      case RETURN => Verdict(Returned, mss)
      case DROP => Verdict(Dropped, mss)
      case TPROXY(port, mark) => Verdict(Proxied(port, mark), mss)
      case TCPMSS(size) => Eval(rest, p, Some(size))
  }

  lemma EvalHead(r: MangleRule, rest: seq<MangleRule>, p: Packet, mss: Option<int>)
    ensures Eval([r] + rest, p, mss) == FirstRule(r, rest, p, mss)
  {
  }

  function UdpPart(c: ChainCfg): seq<MangleRule> {
    PartRules(c, UdpProxy) + PartRules(c, Rest)
  }

  function QuicPart(c: ChainCfg): seq<MangleRule> {
    PartRules(c, QuicDrop) + UdpPart(c)
  }

  function TcpPart(c: ChainCfg): seq<MangleRule> {
    PartRules(c, TcpProxy) + QuicPart(c)
  }

  function ClampPart(c: ChainCfg): seq<MangleRule> {
    PartRules(c, Clamp) + TcpPart(c)
  }

  function IcmpPart(c: ChainCfg): seq<MangleRule> {
    PartRules(c, IcmpReturn) + ClampPart(c)
  }

  lemma BuiltOfParts(c: ChainCfg)
    ensures BuildChain(c) == DnsRules(c) + IcmpPart(c)
  {
    hide DnsRules, PartRules;
    assert ChainUpTo(c, IcmpReturn) == DnsRules(c) + PartRules(c, IcmpReturn);
    assert ChainUpTo(c, Clamp) == ChainUpTo(c, IcmpReturn) + PartRules(c, Clamp);
    assert ChainUpTo(c, TcpProxy) == ChainUpTo(c, Clamp) + PartRules(c, TcpProxy);
    assert ChainUpTo(c, QuicDrop) == ChainUpTo(c, TcpProxy) + PartRules(c, QuicDrop);
    assert ChainUpTo(c, UdpProxy) == ChainUpTo(c, QuicDrop) + PartRules(c, UdpProxy);
    assert ChainUpTo(c, Rest) == ChainUpTo(c, UdpProxy) + PartRules(c, Rest);
  }

  lemma UdpPartEval(c: ChainCfg, p: Packet, m: Option<int>)
    ensures Eval(UdpPart(c), p, m) == Verdict(if p.proto == Udp then Proxied(c.port, c.mark) else Returned, m)
  {
  }

  lemma QuicPartEval(c: ChainCfg, p: Packet, m: Option<int>)
    ensures Eval(QuicPart(c), p, m)
         == if DropQuicVision(c.flow) && p.proto == Udp && p.dport == 443 then Verdict(Dropped, m)
            else Verdict(if p.proto == Udp then Proxied(c.port, c.mark) else Returned, m)
  {
    hide Eval, DropQuicVision;
    EvalHead(To(None, Some(Udp), Some(443), DROP), UdpPart(c), p, m);
    UdpPartEval(c, p, m);
    assert [] + UdpPart(c) == UdpPart(c);
  }

  lemma IcmpPartEval(c: ChainCfg, p: Packet)
    ensures Eval(IcmpPart(c), p, None) == Decide(c.(gateway := ""), p)
  {
    hide Eval, DropQuicVision, Trim, Contains, Lower;
    var mss := if c.mssClamp <= 0 then DEFAULT_MSS_CLAMP else c.mssClamp;
    VisionIsNotBlank(c.flow);
    TrimEmpty();
    EvalHead(To(None, Some(Icmp), None, RETURN), ClampPart(c), p, None);
    EvalHead(MangleRule(Criteria(None, Some(Tcp), None, true), TCPMSS(mss)), TcpPart(c), p, None);
    EvalHead(To(None, Some(Tcp), None, TPROXY(c.port, c.mark)), QuicPart(c), p, None);
    EvalHead(To(None, Some(Tcp), None, TPROXY(c.port, c.mark)), QuicPart(c), p, Some(mss));
    QuicPartEval(c, p, None);
  }

  lemma TrimEmpty()
    ensures Trim("") == ""
  {
  }

  /** For every packet, first-match evaluation of the built chain is the decision table. */
  lemma ChainDecides(c: ChainCfg, p: Packet)
    ensures Eval(BuildChain(c), p, None) == Decide(c, p)
  {
    hide Eval, DropQuicVision, Trim, Contains, Lower, BuildChain, IcmpPart;
    TrimEmpty();
    IcmpPartEval(c, p);
    var g := Trim(c.gateway);
    BuiltOfParts(c);
    if g == "" {
      assert BuildChain(c) == IcmpPart(c);
    } else {
      var tcpDns, udpDns := To(Some(g), Some(Tcp), Some(53), RETURN), To(Some(g), Some(Udp), Some(53), RETURN);
      EvalHead(tcpDns, IcmpPart(c), p, None);
      EvalHead(udpDns, [tcpDns] + IcmpPart(c), p, None);
      assert BuildChain(c) == [udpDns] + ([tcpDns] + IcmpPart(c));
    }
  }

  lemma VisionIsNotBlank(flow: string)
    ensures DropQuicVision(flow) == VisionWithoutUdp443(flow)
  {
  }

  lemma PlainFlow(flow: string)
    requires forall c :: c in flow ==> '-' <= c <= 'z' && !('A' <= c <= 'Z')
    ensures Lower(Trim(flow)) == flow
  {
    if flow != "" { assert flow[0] in flow && flow[|flow| - 1] in flow; }
    assert Trim(flow) == flow;
    hide Trim;
    forall i | 0 <= i < |flow|
      ensures LowerChar(flow[i]) == flow[i]
    {
      assert flow[i] in flow;
    }
  }

  lemma FoundAt(s: string, sub: string, i: nat)
    requires i + |sub| <= |s| && s[i..i + |sub|] == sub
    ensures Contains(s, sub)
  {
    hide Contains;
    ContainsIff(s, sub);
    assert s[i..][..|sub|] == sub;
  }

  lemma PrefixHead(s: string, sub: string, i: nat)
    requires sub != "" && i <= |s| && HasPrefix(s[i..], sub)
    ensures i <= |s| - |sub| && s[i] == sub[0]
  {
    assert s[i..][..|sub|][0] == s[i];
  }

  lemma NotFound(s: string, sub: string)
    requires sub != "" && forall i :: 0 <= i <= |s| - |sub| ==> s[i] != sub[0]
    ensures !Contains(s, sub)
  {
    hide Contains;
    ContainsIff(s, sub);
    if Contains(s, sub) {
      var i :| 0 <= i <= |s| && HasPrefix(s[i..], sub);
      PrefixHead(s, sub, i);
      assert false;
    }
  }

  /** The Vision flows with and without UDP/443, and a flow that is not Vision. */
  lemma VisionVectors()
    ensures VisionWithoutUdp443("xtls-rprx-vision") && !VisionWithoutUdp443("xtls-rprx-vision-udp443")
    ensures !VisionWithoutUdp443("xtls-rprx-origin")
  {
    hide Contains, Trim, Lower;
    PlainFlow("xtls-rprx-vision");
    PlainFlow("xtls-rprx-vision-udp443");
    PlainFlow("xtls-rprx-origin");
    FoundAt("xtls-rprx-vision", "vision", 10);
    NotFound("xtls-rprx-vision", "vision-udp443");
    FoundAt("xtls-rprx-vision-udp443", "vision-udp443", 10);
    NotFound("xtls-rprx-origin", "vision");
  }
}
