/** Where on the host a Start puts things and a Stop takes them from, list by list. */
module RuleLists {
  import opened Text
  import opened Naming
  import opened Tproxy
  import opened Host
  import opened Lifecycle
  import opened StartGuard

  /** One occurrence goes, the first one. */
  lemma {:induction false} DeletesOne(l: seq<Rule>, r: Rule)
    ensures multiset(DeleteFirst(l, r)) == multiset(l) - multiset{r}
  {
    if l != [] {
      assert l == [l[0]] + l[1..];
      if l[0] != r { DeletesOne(l[1..], r); }
    }
  }

  function Without(l: seq<Rule>, r: Rule, s: Rule): seq<Rule> {
    DeleteFirst(DeleteFirst(l, r), s)
  }

  /** The ACCEPT pair ends up at the head of DOCKER-USER, incoming first, or else at the head of
      FORWARD, outgoing first; older copies of it are gone from FORWARD in both cases. */
  lemma ForwardLists(h: Host, tun: string, e: StartEnv)
    requires Forward in h.rules && ForwardWorks(h, e)
    ensures var after := SetupForward(h, tun, e).host.rules;
      var docked := DockerUser in h.rules && e.dockerOut && e.dockerIn;
      && Forward in after
      && after[Forward] == (if docked then [] else [AcceptOut(tun), AcceptIn(tun)])
           + Without(h.rules[Forward], AcceptOut(tun), AcceptIn(tun))
      && (docked ==> DockerUser in after)
      && (docked ==>
            var rest := Without(h.rules[DockerUser], AcceptOut(tun), AcceptIn(tun));
            after[DockerUser] == [AcceptIn(tun), AcceptOut(tun)] + rest)
      && (DockerUser in after <==> DockerUser in h.rules)
      && forall t :: t != Forward && t != DockerUser ==>
           (t in after <==> t in h.rules) && (t in after ==> after[t] == h.rules[t])
  {
    hide DeleteFirst;
  }

  lemma TProxyLists(h: Host, id: nat, cfg: ChainCfg, e: StartEnv)
    requires Prerouting in h.rules && SetupTProxy(h, id, cfg, e).ok
    ensures var after := SetupTProxy(h, id, cfg, e).host.rules; var jump := Jump(TunName(id), ChainName(id));
      && Prerouting in after && after[Prerouting] == DeleteFirst(h.rules[Prerouting], jump) + [jump]
      && forall t :: t != Prerouting ==> (t in after <==> t in h.rules) && (t in after ==> after[t] == h.rules[t])
  {
    hide DeleteFirst, TunName, ChainName, BuildChain;
  }

  lemma NatLists(h: Host, tun: string, subnet: string, e: StartEnv)
    requires Postrouting in h.rules && SetupNat(h, tun, subnet, e).ok
    ensures var after := SetupNat(h, tun, subnet, e).host.rules;
      && Postrouting in after && after[Postrouting] == [Masquerade(tun, subnet)]
           + Without(h.rules[Postrouting], Masquerade(tun, subnet), LegacyIcmp(subnet))
      && forall t :: t != Postrouting ==> (t in after <==> t in h.rules) && (t in after ==> after[t] == h.rules[t])
  {
    hide DeleteFirst;
  }

  /** After a successful Start the jump is the last rule of PREROUTING, the masquerade rule the first
      of POSTROUTING and the ACCEPT pair the first two of its list; nothing else in the lists changed
      but older copies, and a rule of an older build, going away. */
  lemma StartLists(w: World, id: nat, e: StartEnv)
    requires id !in w.running && CanStart(w, id, e)
    requires Prerouting in w.host.rules && Forward in w.host.rules && Postrouting in w.host.rules
    ensures var before, after := w.host.rules, Start(w, id, e).world.host.rules;
      var tun, subnet := "tun-wg" + Decimal(id), w.rows[id].address.value.subnet;
      var jump := Jump(tun, "XRAY2WG_" + Decimal(id));
      var docked := DockerUser in before && e.dockerOut && e.dockerIn;
      && Prerouting in after && Forward in after && Postrouting in after
      && after[Prerouting] == DeleteFirst(before[Prerouting], jump) + [jump]
      && after[Postrouting]
           == [Masquerade(tun, subnet)] + Without(before[Postrouting], Masquerade(tun, subnet), LegacyIcmp(subnet))
      && after[Forward] == (if docked then [] else [AcceptOut(tun), AcceptIn(tun)])
           + Without(before[Forward], AcceptOut(tun), AcceptIn(tun))
      && (docked ==> DockerUser in after)
      && (docked ==>
            var rest := Without(before[DockerUser], AcceptOut(tun), AcceptIn(tun));
            after[DockerUser] == [AcceptIn(tun), AcceptOut(tun)] + rest)
  {
    hide SetupReturnRoute, SetupTProxy, SetupForward, SetupNat, BuildChain, DeleteFirst, Without,
      UndoWg, UndoRoute, UndoXray, UndoTProxy, UndoForward, TearDown;
    var row := w.rows[id];
    var a, tun := row.address.value, TunName(id);
    var cfg := ChainCfg(a.gateway, e.flow, row.mssClamp, XrayPort(id), Fwmark(id));
    var h1 := Add(SetupReturnRoute(Add(w.host, OwnDevice(id)), id, e).host, Xray(id));
    assert h1.rules == w.host.rules && h1.chains == w.host.chains;
    TProxyLists(h1, id, cfg, e);
    var t := SetupTProxy(h1, id, cfg, e).host;
    ForwardLists(t, tun, e);
    var f := SetupForward(t, tun, e).host;
    NatLists(f, tun, a.subnet, e);
  }

  /** Of the resources a successful Start adds the device, the xray instance, the route and, unless
      refused, the ip rule; it replaces the default route of its table and touches nothing else. */
  lemma StartResources(w: World, id: nat, e: StartEnv, r: Res)
    requires id !in w.running && CanStart(w, id, e)
    ensures r in Start(w, id, e).world.host.res <==>
      || r == Device(id, "tun-wg" + Decimal(id)) || r == Xray(id) || r == Route(100 + id, "0.0.0.0/0", true)
      || (e.ruleAdd && r == IpRule((0x1000 + id) % 0x1_0000_0000, 100 + id))
      || (r in w.host.res && !(r.Route? && r.table == 100 + id && r.dst == "0.0.0.0/0"))
  {
    hide SetupTProxy, SetupForward, SetupNat, BuildChain, UndoWg, UndoRoute, UndoXray, UndoTProxy, UndoForward,
      TearDown, StartTProxy;
    var row := w.rows[id];
    var h1 := Add(SetupReturnRoute(Add(w.host, OwnDevice(id)), id, e).host, Xray(id));
    assert Start(w, id, e).world.host.res == StartTProxy(h1, id, row.address.value, row.mssClamp, e).host.res;
  }

  lemma TeardownForwardLists(h: Host, tun: string, t: Table)
    requires t in h.rules
    ensures var after := TeardownForward(h, tun).rules;
      && t in after
      && after[t] == if t.Forward? || t.DockerUser? then Without(h.rules[t], AcceptOut(tun), AcceptIn(tun))
                     else h.rules[t]
  {
    hide DeleteFirst;
  }

  lemma TeardownNatLists(h: Host, tun: string, subnet: string, t: Table)
    requires t in h.rules
    ensures var after := TeardownNat(h, tun, subnet).rules;
      && t in after
      && after[t] == if t.Postrouting? then Without(h.rules[t], Masquerade(tun, subnet), LegacyIcmp(subnet))
                     else h.rules[t]
  {
    hide DeleteFirst;
  }

  lemma TeardownTProxyLists(h: Host, id: nat, tun: string, t: Table)
    requires t in h.rules
    ensures var after := TeardownTProxy(h, id, tun).rules;
      && t in after
      && after[t] == if t.Prerouting? then DeleteFirst(h.rules[t], Jump(tun, ChainName(id))) else h.rules[t]
  {
    hide DeleteFirst, ChainName;
  }

  /** A Stop deletes one jump, the ACCEPT pair wherever it is, and, given an address, one masquerade
      rule and one rule of an older build. The device name is the row's, or the derived one. */
  lemma StopLists(w: World, id: nat, saved: Saved, t: Table)
    requires id in w.rows && t in w.host.rules
    ensures var before, after := w.host.rules, Stop(w, id, true, saved).host.rules;
      var row := w.rows[id];
      var tun := if row.tunName == "" then "tun-wg" + Decimal(id) else row.tunName;
      && t in after
      && after[t] == match t
           case Prerouting => DeleteFirst(before[t], Jump(tun, "XRAY2WG_" + Decimal(id)))
           case Postrouting =>
             if row.address.None? then before[t]
             else Without(before[t], Masquerade(tun, row.address.value.subnet), LegacyIcmp(row.address.value.subnet))
           case _ => Without(before[t], AcceptOut(tun), AcceptIn(tun))
  {
    hide DeleteFirst, Without, TeardownForward, TeardownNat, TeardownTProxy, TeardownReturnRoute;
    var h, row := w.host, w.rows[id];
    var tun := TunOrDefault(row, id);
    TeardownForwardLists(h, tun, t);
    var f := TeardownForward(h, tun);
    if row.address.Some? { TeardownNatLists(f, tun, row.address.value.subnet, t); }
    var n := if row.address.Some? then TeardownNat(f, tun, row.address.value.subnet) else f;
    TeardownTProxyLists(n, id, tun, t);
  }
}
