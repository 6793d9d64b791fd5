/** Compiling a node list into an xray routing configuration, and what that configuration routes. */
module XrayConfig {
  import opened Text
  import SL = ShareLink

  datatype User = User(id: string, encryption: string, flow: Option<string>, packetEncoding: Option<string>)
  datatype Outbound =
    | Vless(tag: string, address: string, port: int, user: User, stream: SL.StreamSettings, mux: bool)
    | Freedom(tag: string)
  /** `target` is the fixed destination of an inbound that does not follow the original one. */
  datatype Inbound = Inbound(tag: string, listen: string, port: int, tproxy: bool, target: Option<(string, nat)>)
  datatype Target = ToOutbound(tag: string) | ToBalancer(tag: string)
  datatype Rule = Rule(inboundTags: seq<string>, target: Target)
  datatype Balancer = Balancer(tag: string, selector: string, strategy: string, fallbackTag: string)
  datatype Config = Config(inbounds: seq<Inbound>, outbounds: seq<Outbound>, balancers: seq<Balancer>, rules: seq<Rule>,
                           observed: Option<string>)

  datatype Strategy = RoundRobin | LeastPing

  const TRANSPARENT := "transparent-in"
  const DNS := "dns-in"
  const DIRECT := "direct"
  const PROXY := "proxy"
  const BALANCER := "main-balancer"
  const VLESS_OUT := "vless-out-"

  /** The tag of the node at index i, also where the health view looks it up. */
  function NodeTag(i: nat): string { VLESS_OUT + Decimal(i + 1) }

  function NonBlank(s: string): Option<string> {
    if Trim(s) == "" then None else Some(Trim(s))
  }

  function UserOf(n: SL.Node): User {
    User(n.uuid, if n.encryption == "" then "none" else n.encryption, NonBlank(n.flow), NonBlank(n.packetEncoding))
  }

  function NodeOutbound(j: SL.Json, n: SL.Node, tag: string): Outbound {
    Vless(tag, n.address, n.port, UserOf(n), SL.Emit(j, n), NonBlank(n.flow).None?)
  }

  function NodeOutbounds(j: SL.Json, nodes: seq<SL.Node>): (out: seq<Outbound>)
    ensures |out| == |nodes|
    ensures forall i :: 0 <= i < |nodes| ==> out[i] == NodeOutbound(j, nodes[i], NodeTag(i))
  {
    seq(|nodes|, i requires 0 <= i < |nodes| => NodeOutbound(j, nodes[i], NodeTag(i)))
  }

  function Inbounds(port: int, gateway: string): seq<Inbound> {
    [Inbound(TRANSPARENT, "0.0.0.0", port, true, None)]
    + if NonBlank(gateway).None? then [] else [Inbound(DNS, Trim(gateway), 53, false, Some(("1.1.1.1", 53)))]
  }

  method BuildInbounds(port: int, gateway: string) returns (inbounds: seq<Inbound>)
    ensures inbounds == Inbounds(port, gateway)
    ensures |inbounds| == if Trim(gateway) == "" then 1 else 2
    ensures var b := inbounds[0]; b.tag == TRANSPARENT && b.port == port && b.tproxy && b.target == None
    ensures Trim(gateway) != "" ==>
      var b := inbounds[1];
      b.tag == DNS && b.listen == Trim(gateway) && b.port == 53 && !b.tproxy && b.target == Some(("1.1.1.1", 53))
  {
    hide Trim;
    inbounds := [Inbound(TRANSPARENT, "0.0.0.0", port, true, None)];
    var g := Trim(gateway);
    if g != "" {
      inbounds := inbounds + [Inbound(DNS, g, 53, false, Some(("1.1.1.1", 53)))];
    }
  }

  method BuildMultiNode(j: SL.Json, nodes: seq<SL.Node>, strategy: Strategy, tags: seq<string>)
    returns (outbounds: seq<Outbound>, balancer: Balancer, rule: Rule, observed: string)
    ensures outbounds == NodeOutbounds(j, nodes) + [Freedom(DIRECT)]
    ensures balancer
      == Balancer(BALANCER, VLESS_OUT, if strategy.LeastPing? then "leastPing" else "roundRobin", NodeTag(0))
    ensures rule == Rule(tags, ToBalancer(BALANCER)) && observed == VLESS_OUT
  {
    hide NodeTag, NodeOutbound;
    outbounds := [];
    for i := 0 to |nodes|
      invariant |outbounds| == i && forall k :: 0 <= k < i ==> outbounds[k] == NodeOutbound(j, nodes[k], NodeTag(k))
    {
      outbounds := outbounds + [NodeOutbound(j, nodes[i], NodeTag(i))];
    }
    assert outbounds == NodeOutbounds(j, nodes);
    outbounds := outbounds + [Freedom(DIRECT)];
    FirstTag();
    balancer := Balancer(BALANCER, VLESS_OUT, if strategy.LeastPing? then "leastPing" else "roundRobin", "vless-out-1");
    rule := Rule(tags, ToBalancer(BALANCER));
    observed := VLESS_OUT;
  }

  lemma FirstTag()
    ensures NodeTag(0) == "vless-out-1"
  {
  }

  /** None is the "no nodes provided" error. */
  method BuildXrayConfig(j: SL.Json, port: int, gateway: string, nodes: seq<SL.Node>, strategy: Strategy)
    returns (cfg: Option<Config>)
    ensures cfg == Compiled(j, port, gateway, nodes, strategy)
  {
    hide Trim, NodeTag, NodeOutbound, Inbounds, NonBlank;
    if nodes == [] {
      return None;
    }
    var inbounds := BuildInbounds(port, gateway);
    var tags := [TRANSPARENT];
    if NonBlank(gateway).Some? {
      tags := tags + [DNS];
    }
    assert tags == RouteTags(gateway);
    if |nodes| == 1 {
      var outbounds := [Freedom(DIRECT), NodeOutbound(j, nodes[0], PROXY)];
      cfg := Some(Config(inbounds, outbounds, [], [Rule(tags, ToOutbound(PROXY))], None));
    } else {
      var outbounds, balancer, rule, observed := BuildMultiNode(j, nodes, strategy, tags);
      cfg := Some(Config(inbounds, outbounds, [balancer], [rule], Some(observed)));
    }
  }

  function RouteTags(gateway: string): seq<string> {
    [TRANSPARENT] + if NonBlank(gateway).None? then [] else [DNS]
  }

  function Compiled(j: SL.Json, port: int, gateway: string, nodes: seq<SL.Node>, strategy: Strategy): Option<Config> {
    if nodes == [] then None
    else if |nodes| == 1 then
      Some(Config(Inbounds(port, gateway), [Freedom(DIRECT), NodeOutbound(j, nodes[0], PROXY)], [],
                  [Rule(RouteTags(gateway), ToOutbound(PROXY))], None))
    else
      Some(Config(Inbounds(port, gateway), NodeOutbounds(j, nodes) + [Freedom(DIRECT)],
                  [Balancer(BALANCER, VLESS_OUT,
                            if strategy.LeastPing? then "leastPing" else "roundRobin", NodeTag(0))],
                  [Rule(RouteTags(gateway), ToBalancer(BALANCER))], Some(VLESS_OUT)))
  }

  // ----- what xray does with a configuration -----

  /** First match; None is the implicit default, the first outbound. */
  function Matching(rules: seq<Rule>, inbound: string): Option<Rule> {
    if rules == [] then None
    else if inbound in rules[0].inboundTags then Some(rules[0])
    else Matching(rules[1..], inbound)
  }

  /** A balancer picks among the outbounds whose tag has its selector as a prefix. */
  predicate Selects(prefix: string, o: Outbound) { HasPrefix(o.tag, prefix) }

  /** Whether the outbound at index i may carry traffic of an inbound, in some state of the balancer. */
  ghost predicate MayCarry(cfg: Config, inbound: string, i: nat)
    requires i < |cfg.outbounds|
  {
    var o := cfg.outbounds[i];
    match Matching(cfg.rules, inbound)
    case None => i == 0
    case Some(rule) =>
      match rule.target
      case ToOutbound(tag) => o.tag == tag
      case ToBalancer(tag) =>
        exists b :: b in cfg.balancers && b.tag == tag && (Selects(b.selector, o) || o.tag == b.fallbackTag)
  }
}

module XrayConfigProofs {
  import opened Text
  import opened XrayConfig
  import SLP = ShareLinkProofs
  import SLT = ShareLinkTheorems

  lemma TagsDiffer(i: nat, k: nat)
    ensures NodeTag(i) == NodeTag(k) ==> i == k
    ensures HasPrefix(NodeTag(i), VLESS_OUT) && !HasPrefix(DIRECT, VLESS_OUT) && NodeTag(i) != DIRECT
  {
    PrefixedDecimalInjective(VLESS_OUT, i + 1, k + 1);
    assert NodeTag(i)[0] == 'v' && DIRECT[0] == 'd';
    assert (VLESS_OUT + Decimal(i + 1))[..|VLESS_OUT|] == VLESS_OUT;
  }

  lemma InboundsAreRouted(port: int, gateway: string, k: nat)
    requires k < |Inbounds(port, gateway)|
    ensures Inbounds(port, gateway)[k].tag in RouteTags(gateway)
  {
  }

  /** Every inbound reaches exactly the outbounds of the nodes: all of them, and never the direct one. */
  lemma RoutedExactlyToNodes(j: SL.Json, port: int, gateway: string, nodes: seq<SL.Node>, strategy: Strategy,
                             k: nat, i: nat)
    requires nodes != []
    requires var cfg := Compiled(j, port, gateway, nodes, strategy).value; k < |cfg.inbounds| && i < |cfg.outbounds|
    ensures var cfg := Compiled(j, port, gateway, nodes, strategy).value;
      MayCarry(cfg, cfg.inbounds[k].tag, i) <==> cfg.outbounds[i].Vless?
  {
    hide Inbounds, RouteTags, NodeOutbound, NodeTag, NonBlank, Selects;
    var cfg := Compiled(j, port, gateway, nodes, strategy).value;
    InboundsAreRouted(port, gateway, k);
    var tag := cfg.inbounds[k].tag;
    assert Matching(cfg.rules, tag) == Some(cfg.rules[0]);
    if |nodes| == 1 {
      OutboundTag(j, nodes[0], PROXY);
    } else {
      assert cfg.balancers[0] in cfg.balancers;
      if i < |nodes| { OutboundTag(j, nodes[i], NodeTag(i)); }
      MultiSelects(j, nodes, i);
    }
  }

  lemma OutboundTag(j: SL.Json, n: SL.Node, tag: string)
    ensures NodeOutbound(j, n, tag).tag == tag && NodeOutbound(j, n, tag).Vless?
  {
  }

  lemma MultiSelects(j: SL.Json, nodes: seq<SL.Node>, i: nat)
    requires i <= |nodes|
    ensures var o := (NodeOutbounds(j, nodes) + [Freedom(DIRECT)])[i];
      (Selects(VLESS_OUT, o) <==> i < |nodes|) && (o.tag == NodeTag(0) ==> i < |nodes|)
  {
  }

  /** With several nodes, the selector picks one outbound per node, each under its own tag: tag i + 1
      is the node the health view shows at index i, the fallback is the first, and so is the default. */
  lemma OneTagPerNode(j: SL.Json, port: int, gateway: string, nodes: seq<SL.Node>, strategy: Strategy)
    requires |nodes| > 1
    ensures var cfg := Compiled(j, port, gateway, nodes, strategy).value;
      && |cfg.balancers| == 1 && cfg.observed == Some(cfg.balancers[0].selector)
      && Picked(cfg.outbounds, cfg.balancers[0].selector) == NodeOutbounds(j, nodes)
      && cfg.outbounds[0].Vless? && cfg.outbounds[0].tag == cfg.balancers[0].fallbackTag
      && forall i, k :: 0 <= i < |nodes| && 0 <= k < |cfg.outbounds| ==>
           (cfg.outbounds[k].tag == NodeTag(i) <==> k == i) && cfg.outbounds[i] == NodeOutbound(j, nodes[i], NodeTag(i))
  {
    hide NodeOutbound, NodeTag, Inbounds, RouteTags;
    var vless := NodeOutbounds(j, nodes);
    forall i | 0 <= i < |nodes|
      ensures vless[i].tag == NodeTag(i) && Selects(VLESS_OUT, vless[i]) && vless[i].Vless?
    {
      OutboundTag(j, nodes[i], NodeTag(i));
      TagsDiffer(i, i);
    }
    forall i, k | 0 <= i < |nodes| && 0 <= k < |nodes|
      ensures NodeTag(i) == NodeTag(k) ==> i == k
      ensures NodeTag(i) != DIRECT && !HasPrefix(DIRECT, VLESS_OUT)
    {
      TagsDiffer(i, k);
    }
    TagsDiffer(0, 0);
    PickedOf(vless);
  }

  function Picked(outbounds: seq<Outbound>, prefix: string): seq<Outbound> {
    Filter(outbounds, o => Selects(prefix, o))
  }

  lemma PickedOf(vless: seq<Outbound>)
    requires forall o :: o in vless ==> Selects(VLESS_OUT, o)
    ensures Picked(vless + [Freedom(DIRECT)], VLESS_OUT) == vless
  {
    hide Selects;
    FilterConcat(vless, [Freedom(DIRECT)], o => Selects(VLESS_OUT, o));
    FilterAll(vless, o => Selects(VLESS_OUT, o));
    TagsDiffer(0, 0);
    DirectUnselected();
  }

  lemma DirectUnselected()
    ensures !Selects(VLESS_OUT, Freedom(DIRECT))
  {
  }

  /** The implicit default stays inside the tunnel exactly when there is more than one node. */
  lemma DefaultOutbound(j: SL.Json, port: int, gateway: string, nodes: seq<SL.Node>, strategy: Strategy)
    requires nodes != []
    ensures Compiled(j, port, gateway, nodes, strategy).value.outbounds[0].Vless? <==> |nodes| > 1
  {
  }

  // ----- the fields of an outbound -----

  /** Address, port and user of a node; flow and packet encoding are sent trimmed and only when they
      are not blank, encryption is "none" unless set, and connections are multiplexed exactly for
      nodes without a flow. */
  lemma OutboundFields(j: SL.Json, n: SL.Node, tag: string)
    ensures var o := NodeOutbound(j, n, tag); var flow, pe := Trim(n.flow), Trim(n.packetEncoding);
      && o.Vless? && o.tag == tag && o.address == n.address && o.port == n.port && o.stream == SL.Emit(j, n)
      && o.user.id == n.uuid && o.user.encryption == (if n.encryption == "" then "none" else n.encryption)
      && o.user.flow == (if flow == "" then None else Some(flow))
      && o.user.packetEncoding == (if pe == "" then None else Some(pe))
      && (o.mux <==> flow == "")
  {
    hide Trim, SL.Emit;
  }

  // ----- the saved node and the outbound that runs -----

  lemma SameOutbound(j: SL.Json, a: SL.Node, b: SL.Node, tag: string)
    requires a.(transport := b.transport, securityCfg := b.securityCfg, display := b.display) == b
    ensures NodeOutbound(j, a, tag) == NodeOutbound(j, b, tag) <==> SL.Emit(j, a) == SL.Emit(j, b)
  {
  }

  /** The whole outbound xray runs for a saved node is the one its stored fields describe, exactly
      when its link can carry its settings. */
  lemma SavedOutboundRuns(j: SL.Json, input: SL.Input, n: SL.Node, t: SL.Transport, s: SL.Security,
                          ts: SL.TSpec, ss: SL.SSpec, tag: string)
    requires SLT.Built(j, input, n, t, s, ts, ss)
    requires ts.XhttpSpec? ==> SLT.Decoded(j, ts.extra)
    ensures NodeOutbound(j, SLT.Running(j, n), tag) == NodeOutbound(j, n, tag)
      <==> SLT.BlankKey(ss) || (SLT.KeepsSettings(ts, SLP.AlpnLink(ss)) && SLT.KeepsSecurity(ss))
  {
    hide SLT.Built, SLT.Running, SLT.KeepsSettings, SLT.KeepsSecurity, SLT.BlankKey, SLT.Decoded, SLP.AlpnLink,
      SL.Emit, NodeOutbound;
    SLT.SavedFormIsRunningConfig(j, input, n, t, s, ts, ss);
    SLT.RunningKeepsTheRest(j, input, n, t, s, ts, ss);
    SameOutbound(j, SLT.Running(j, n), n, tag);
  }
}
