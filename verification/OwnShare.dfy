/** What one Start or Stop makes of its own tunnel's share of the host, whatever was left there. */
module OwnShare {
  import opened Text
  import opened Naming
  import opened Tproxy
  import opened Host
  import opened Lifecycle

  /** The rules of a tunnel in the built-in chains, and its resources beside a possible ip rule. */
  datatype Parts = Parts(pre: seq<Rule>, fwd: seq<Rule>, dock: seq<Rule>, post: seq<Rule>, res: set<Res>)
  const NOTHING := Parts([], [], [], [], {})

  ghost predicate Share(m: Host, id: nat, p: Parts) {
    && Prerouting in m.rules && m.rules[Prerouting] == p.pre
    && Forward in m.rules && m.rules[Forward] == p.fwd
    && (if DockerUser in m.rules then m.rules[DockerUser] == p.dock else p.dock == [])
    && Postrouting in m.rules && m.rules[Postrouting] == p.post
    && m.res - {OwnRule(id)} == p.res
  }

  function OwnJump(id: nat): Rule { Jump(TunName(id), ChainName(id)) }
  function InOut(id: nat): seq<Rule> { [AcceptIn(TunName(id)), AcceptOut(TunName(id))] }
  function OutIn(id: nat): seq<Rule> { [AcceptOut(TunName(id)), AcceptIn(TunName(id))] }
  function All(id: nat): set<Res> { {OwnDevice(id), OwnRoute(id), Xray(id)} }

  /** Where the ACCEPT pair went: DOCKER-USER, or FORWARD in the other order. */
  predicate Placed(id: nat, fwd: seq<Rule>, dock: seq<Rule>) {
    (fwd == [] && dock == InOut(id)) || (fwd == OutIn(id) && dock == [])
  }

  predicate Paired(id: nat, p: Parts) {
    (p.fwd == [] && p.dock == []) || Placed(id, p.fwd, p.dock)
  }

  /** Each item is there at most once, and only as Start puts it there. */
  predicate Legit(id: nat, p: Parts, sub: Option<string>) {
    && (p.pre == [] || p.pre == [OwnJump(id)])
    && Paired(id, p)
    && (p.post == [] || (sub.Some? && p.post == [Masquerade(TunName(id), sub.value)]))
    && p.res <= All(id)
  }

  /** At most an ip rule and an unreachable chain are left. */
  ghost predicate Absent(m: Host, id: nat) {
    Share(m, id, NOTHING)
  }

  ghost predicate ChainIs(m: Host, id: nat, cfg: ChainCfg) {
    ChainName(id) in m.chains && m.chains[ChainName(id)] == BuildChain(cfg)
  }

  ghost predicate ChainBuilt(m: Host, id: nat, a: WgAddr) {
    exists flow, mss :: ChainIs(m, id, ChainCfg(a.gateway, flow, mss, XrayPort(id), Fwmark(id)))
  }

  predicate Complete(id: nat, p: Parts, a: WgAddr) {
    && p.pre == [OwnJump(id)] && Placed(id, p.fwd, p.dock)
    && p.post == [Masquerade(TunName(id), a.subnet)] && p.res == All(id)
  }

  ghost predicate Installed(m: Host, id: nat, a: WgAddr) {
    ChainBuilt(m, id, a) && exists p :: Complete(id, p, a) && Share(m, id, p)
  }

  // ----- policy route -----

  lemma RouteOn(m: Host, id: nat, e: StartEnv, p: Parts)
    requires Share(m, id, p) && p.res <= All(id)
    ensures var r := SetupReturnRoute(m, id, e);
      && Share(r.host, id, if r.ok then p.(res := p.res + {OwnRoute(id)}) else p)
      && r.host.chains == m.chains && (r.ok <==> e.route)
  {
    hide TunName;
    assert SetupReturnRoute(m, id, e).host.res - {OwnRule(id)}
      == if e.route then p.res + {OwnRoute(id)} else p.res;
  }

  lemma RouteOff(m: Host, id: nat, p: Parts)
    requires Share(m, id, p) && p.res <= All(id)
    ensures var t := TeardownReturnRoute(m, id);
      Share(t, id, p.(res := p.res - {OwnRoute(id)})) && t.chains == m.chains && OwnRule(id) !in t.res
  {
    hide TunName;
    var t := TeardownReturnRoute(m, id);
    assert t.res - {OwnRule(id)} == p.res - {OwnRoute(id)} by {
      assert forall r :: r in p.res <==> r in m.res && r != OwnRule(id);
    }
  }

  // ----- tproxy -----

  /** A failing setup takes the jump away, unless it fails before it gets there. */
  lemma TProxyOn(m: Host, id: nat, cfg: ChainCfg, e: StartEnv, p: Parts)
    requires Share(m, id, p) && (p.pre == [] || p.pre == [OwnJump(id)])
    ensures var r := SetupTProxy(m, id, cfg, e);
      if r.ok then Share(r.host, id, p.(pre := [OwnJump(id)])) && ChainIs(r.host, id, cfg) && Relinks(m, id, e)
      else if Relinks(m, id, e) then Share(r.host, id, p.(pre := [])) else r.host == m
  {
    hide TunName, ChainName, BuildChain;
  }

  lemma TProxyOff(m: Host, id: nat, p: Parts)
    requires Share(m, id, p) && (p.pre == [] || p.pre == [OwnJump(id)])
    ensures var t := TeardownTProxy(m, id, TunName(id));
      Share(t, id, p.(pre := [])) && ChainName(id) !in t.chains
  {
    hide TunName, ChainName;
  }

  // ----- forward -----

  lemma DeletePair(id: nat, l: seq<Rule>)
    requires l == [] || l == InOut(id) || l == OutIn(id)
          || l == [AcceptIn(TunName(id))] || l == [AcceptOut(TunName(id))]
    ensures DeleteFirst(DeleteFirst(l, AcceptOut(TunName(id))), AcceptIn(TunName(id))) == []
  {
  }

  lemma ForwardOff(m: Host, id: nat, p: Parts)
    requires Share(m, id, p) && Paired(id, p)
    ensures var t := TeardownForward(m, TunName(id));
      Share(t, id, p.(fwd := [], dock := [])) && t.chains == m.chains
  {
    DeletePair(id, p.fwd);
    DeletePair(id, p.dock);
    hide TunName, DeleteFirst, InOut, OutIn;
  }

  lemma DockerOn(m: Host, id: nat, e: StartEnv, p: Parts)
    requires Share(m, id, p) && p.fwd == [] && p.dock == []
    ensures var r := InsertDocker(m, TunName(id), e);
      Share(r.host, id, if r.ok then p.(dock := InOut(id)) else p) && r.host.chains == m.chains
  {
    if DockerUser in m.rules {
      var i, o := AcceptIn(TunName(id)), AcceptOut(TunName(id));
      var l := (if e.dockerIn then [i] else []) + (if e.dockerOut then [o] else []);
      assert l == [] || l == InOut(id) || l == [i] || l == [o];
      DeletePair(id, l);
      hide TunName, DeleteFirst;
      var a := if e.dockerOut then InsertHead(m, DockerUser, o) else m;
      assert a.rules[DockerUser] == if e.dockerOut then [o] else [];
      var b := if e.dockerIn then InsertHead(a, DockerUser, i) else a;
      assert b.rules[DockerUser] == l;
    }
  }

  lemma ForwardChainOn(m: Host, id: nat, e: StartEnv, p: Parts)
    requires Share(m, id, p) && p.fwd == [] && p.dock == []
    ensures var r := InsertForward(m, TunName(id), e);
      Share(r.host, id, if r.ok then p.(fwd := OutIn(id)) else p) && r.host.chains == m.chains
  {
  }

  /** q is p with the pair in place. */
  predicate Repaired(id: nat, p: Parts, q: Parts) {
    q == p.(fwd := q.fwd, dock := q.dock) && Placed(id, q.fwd, q.dock)
  }

  /** The pair is placed anew, once; a failing setup leaves the share alone or takes the pair away. */
  lemma ForwardOn(m: Host, id: nat, e: StartEnv, p: Parts)
    requires Share(m, id, p) && Paired(id, p)
    ensures var r := SetupForward(m, TunName(id), e);
      && r.host.chains == m.chains
      && if r.ok then exists q: Parts :: Repaired(id, p, q) && Share(r.host, id, q)
         else r.host == m || Share(r.host, id, p.(fwd := [], dock := []))
  {
    if e.filterInit {
      ForwardOff(m, id, p);
      var clean, q := TeardownForward(m, TunName(id)), p.(fwd := [], dock := []);
      DockerOn(clean, id, e, q);
      var d := InsertDocker(clean, TunName(id), e);
      ForwardPlaced(id);
      if d.ok {
        assert Share(d.host, id, q.(dock := InOut(id)));
      } else {
        ForwardChainOn(d.host, id, e, q);
        var f := InsertForward(d.host, TunName(id), e);
        assert f.ok ==> Share(f.host, id, q.(fwd := OutIn(id)));
      }
    }
    hide TunName, InsertDocker, InsertForward, TeardownForward, InOut, OutIn, Share;
  }

  lemma ForwardPlaced(id: nat)
    ensures Placed(id, [], InOut(id)) && Placed(id, OutIn(id), [])
  {
  }

  // ----- nat -----

  lemma NatOff(m: Host, id: nat, p: Parts, sub: string)
    requires Share(m, id, p) && (p.post == [] || p.post == [Masquerade(TunName(id), sub)])
    ensures var t := TeardownNat(m, TunName(id), sub);
      Share(t, id, p.(post := [])) && t.chains == m.chains
  {
  }

  lemma NatOn(m: Host, id: nat, e: StartEnv, p: Parts, sub: string)
    requires Share(m, id, p) && (p.post == [] || p.post == [Masquerade(TunName(id), sub)])
    ensures var r := SetupNat(m, TunName(id), sub, e);
      && r.host.chains == m.chains
      && if r.ok then Share(r.host, id, p.(post := [Masquerade(TunName(id), sub)]))
         else r.host == m || Share(r.host, id, p.(post := []))
  {
    NatOff(m, id, p, sub);
    hide TunName, TeardownNat;
  }

  // ----- rollbacks and teardown -----

  lemma Dropped(m: Host, id: nat, p: Parts, r: Res)
    requires Share(m, id, p)
    ensures Share(Drop(m, r), id, p.(res := p.res - {r}))
  {
    hide TunName;
  }

  lemma Added(m: Host, id: nat, p: Parts, r: Res)
    requires Share(m, id, p) && r != OwnRule(id)
    ensures Share(Add(m, r), id, p.(res := p.res + {r}))
  {
    hide TunName;
  }

  lemma WgUndone(m: Host, id: nat, p: Parts)
    requires Share(m, id, p)
    ensures var h := UndoWg(m, id).host; Share(h, id, p.(res := p.res - {OwnDevice(id)})) && h.chains == m.chains
  {
    Dropped(m, id, p, OwnDevice(id));
    hide Share, TunName;
  }

  lemma RouteUndone(m: Host, id: nat, p: Parts)
    requires Share(m, id, p) && p.res <= All(id)
    ensures var h := UndoRoute(m, id).host;
      Share(h, id, p.(res := p.res - {OwnRoute(id)} - {OwnDevice(id)})) && h.chains == m.chains
  {
    RouteOff(m, id, p);
    hide Share, TunName, TeardownReturnRoute, UndoWg;
    WgUndone(TeardownReturnRoute(m, id), id, p.(res := p.res - {OwnRoute(id)}));
  }

  lemma XrayUndone(m: Host, id: nat, p: Parts)
    requires Share(m, id, p) && p.res <= All(id)
    ensures var h := UndoXray(m, id).host; Share(h, id, p.(res := {})) && h.chains == m.chains
  {
    Dropped(m, id, p, Xray(id));
    var q := p.(res := p.res - {Xray(id)});
    assert q.res <= All(id) && q.res - {OwnRoute(id)} - {OwnDevice(id)} == {};
    hide Share, TunName, UndoRoute;
    RouteUndone(Drop(m, Xray(id)), id, q);
  }

  lemma TProxyUndone(m: Host, id: nat, p: Parts)
    requires Share(m, id, p) && p.res <= All(id) && (p.pre == [] || p.pre == [OwnJump(id)])
    ensures Share(UndoTProxy(m, id).host, id, p.(pre := [], res := {}))
  {
    TProxyOff(m, id, p);
    hide Share, TunName, ChainName, TeardownTProxy, UndoXray;
    XrayUndone(TeardownTProxy(m, id, TunName(id)), id, p.(pre := []));
  }

  lemma ForwardUndone(m: Host, id: nat, p: Parts)
    requires Share(m, id, p) && p.res <= All(id) && (p.pre == [] || p.pre == [OwnJump(id)]) && Paired(id, p)
    ensures Share(UndoForward(m, id).host, id, p.(pre := [], fwd := [], dock := [], res := {}))
  {
    ForwardOff(m, id, p);
    hide Share, TunName, ChainName, TeardownForward, UndoTProxy;
    TProxyUndone(TeardownForward(m, TunName(id)), id, p.(fwd := [], dock := []));
  }

  /** Everything stopInternal undoes, from any point of the pipeline; nothing at all is left. */
  lemma TearDownClears(m: Host, id: nat, p: Parts, sub: Option<string>)
    requires Share(m, id, p) && Legit(id, p, sub)
    ensures var t := TearDown(m, id, TunName(id), sub);
      Absent(t, id) && OwnRule(id) !in t.res && ChainName(id) !in t.chains
  {
    hide TunName, ChainName, TeardownForward, TeardownNat, TeardownTProxy, TeardownReturnRoute, Share, Placed;
    ForwardOff(m, id, p);
    var f, pf := TeardownForward(m, TunName(id)), p.(fwd := [], dock := []);
    if sub.Some? { NatOff(f, id, pf, sub.value); }
    var n, pn := if sub.Some? then TeardownNat(f, TunName(id), sub.value) else f, pf.(post := []);
    TProxyOff(n, id, pn);
    var t, pt := TeardownTProxy(n, id, TunName(id)), pn.(pre := []);
    RouteOff(t, id, pt);
    var r, pr := TeardownReturnRoute(t, id), pt.(res := pt.res - {OwnRoute(id)});
    Dropped(r, id, pr, OwnDevice(id));
    var pd := pr.(res := pr.res - {OwnDevice(id)});
    Dropped(Drop(r, OwnDevice(id)), id, pd, Xray(id));
    assert pd.res - {Xray(id)} == {};
  }

  // ----- Start -----

  /** Each item of q is also in p. */
  predicate Less(q: Parts, p: Parts) {
    && (q.pre == [] || q.pre == p.pre)
    && ((q.fwd == [] && q.dock == []) || (q.fwd == p.fwd && q.dock == p.dock))
    && (q.post == [] || q.post == p.post)
    && q.res <= p.res
  }

  /** The calls after which a Start takes the old jump away. */
  predicate ReachesJump(m: Host, id: nat, e: StartEnv) {
    e.wg && e.assign && e.route && e.xray && Relinks(m, id, e)
  }

  /** A failed Start only takes away: no item is new; the old jump is gone if the Start got that far,
      and otherwise still leads into the same chain. */
  ghost predicate Fallen(h: Host, id: nat, p: Parts, chains: map<string, seq<MangleRule>>, reached: bool) {
    exists q :: Less(q, p) && Share(h, id, q) && q.pre == (if reached then [] else p.pre)
      && (!reached ==> h.chains == chains)
  }

  ghost predicate Ends(b: Brought, id: nat, a: WgAddr, cfg: ChainCfg, p: Parts, chains: map<string, seq<MangleRule>>,
                       reached: bool) {
    if b.end.Up? then ChainIs(b.host, id, cfg) && exists q :: Complete(id, q, a) && Share(b.host, id, q)
    else Fallen(b.host, id, p, chains, reached)
  }

  lemma FallenBy(h: Host, id: nat, p: Parts, chains: map<string, seq<MangleRule>>, reached: bool, q: Parts)
    requires Less(q, p) && Share(h, id, q) && q.pre == (if reached then [] else p.pre)
      && (!reached ==> h.chains == chains)
    ensures Fallen(h, id, p, chains, reached)
  {
  }

  lemma NatStage(m: Host, id: nat, a: WgAddr, e: StartEnv, cfg: ChainCfg, p: Parts, q: Parts,
                 c: map<string, seq<MangleRule>>)
    requires Legit(id, p, Some(a.subnet)) && Placed(id, q.fwd, q.dock) && ChainIs(m, id, cfg)
    requires q == p.(pre := [OwnJump(id)], fwd := q.fwd, dock := q.dock, res := All(id)) && Share(m, id, q)
    ensures Ends(StartNat(m, id, a, e), id, a, cfg, p, c, true)
  {
    hide TunName, ChainName, SetupNat, UndoForward, TearDown, BuildChain, Share, Placed, OwnJump, All;
    NatOn(m, id, e, q, a.subnet);
    var n := SetupNat(m, TunName(id), a.subnet, e);
    var full := q.(post := [Masquerade(TunName(id), a.subnet)]);
    if !n.ok {
      var left := if n.host == m then q else q.(post := []);
      ForwardUndone(n.host, id, left);
      FallenBy(UndoForward(n.host, id).host, id, p, c, true, left.(pre := [], fwd := [], dock := [], res := {}));
    } else if !e.save {
      TearDownClears(n.host, id, full, Some(a.subnet));
      FallenBy(TearDown(n.host, id, TunName(id), Some(a.subnet)), id, p, c, true, NOTHING);
    } else {
      assert Complete(id, full, a) && Share(n.host, id, full);
    }
  }

  lemma ForwardStage(m: Host, id: nat, a: WgAddr, e: StartEnv, cfg: ChainCfg, p: Parts, c: map<string, seq<MangleRule>>)
    requires Legit(id, p, Some(a.subnet)) && ChainIs(m, id, cfg)
    requires Share(m, id, p.(pre := [OwnJump(id)], res := All(id)))
    ensures Ends(StartForward(m, id, a, e), id, a, cfg, p, c, true)
  {
    hide TunName, ChainName, SetupForward, UndoTProxy, StartNat, BuildChain, Share, Placed, OwnJump, All;
    var q := p.(pre := [OwnJump(id)], res := All(id));
    ForwardOn(m, id, e, q);
    var f := SetupForward(m, TunName(id), e);
    if f.ok {
      var r: Parts :| Repaired(id, q, r) && Share(f.host, id, r);
      NatStage(f.host, id, a, e, cfg, p, r, c);
    } else {
      var left := if f.host == m then q else q.(fwd := [], dock := []);
      TProxyUndone(f.host, id, left);
      FallenBy(UndoTProxy(f.host, id).host, id, p, c, true, left.(pre := [], res := {}));
    }
  }

  lemma TProxyStage(m: Host, id: nat, a: WgAddr, mss: int, e: StartEnv, p: Parts)
    requires Legit(id, p, Some(a.subnet)) && Share(m, id, p.(res := All(id)))
    ensures Ends(StartTProxy(m, id, a, mss, e), id, a,
                 ChainCfg(a.gateway, e.flow, mss, XrayPort(id), Fwmark(id)), p, m.chains, Relinks(m, id, e))
  {
    hide TunName, ChainName, SetupTProxy, UndoXray, StartForward, BuildChain, Share, Placed, OwnJump, All;
    var q, cfg := p.(res := All(id)), ChainCfg(a.gateway, e.flow, mss, XrayPort(id), Fwmark(id));
    TProxyOn(m, id, cfg, e, q);
    var t := SetupTProxy(m, id, cfg, e);
    if t.ok {
      ForwardStage(t.host, id, a, e, cfg, p, m.chains);
    } else {
      var left := if Relinks(m, id, e) then q.(pre := []) else q;
      XrayUndone(t.host, id, left);
      FallenBy(UndoXray(t.host, id).host, id, p, m.chains, Relinks(m, id, e), left.(res := {}));
    }
  }

  lemma RouteStage(m: Host, id: nat, a: WgAddr, mss: int, e: StartEnv, p: Parts)
    requires Legit(id, p, Some(a.subnet)) && p.res <= {OwnRoute(id)} && Share(m, id, p.(res := p.res + {OwnDevice(id)}))
    ensures Ends(StartRoute(m, id, a, mss, e), id, a,
                 ChainCfg(a.gateway, e.flow, mss, XrayPort(id), Fwmark(id)), p, m.chains,
                 e.route && e.xray && Relinks(m, id, e))
  {
    hide TunName, SetupReturnRoute, UndoRoute, UndoWg, StartTProxy, Share, Placed, ChainName, OwnJump;
    var q := p.(res := p.res + {OwnDevice(id)});
    RouteOn(m, id, e, q);
    var r := SetupReturnRoute(m, id, e);
    var routed := q.(res := q.res + {OwnRoute(id)});
    if !r.ok {
      WgUndone(r.host, id, q);
      FallenBy(UndoWg(r.host, id).host, id, p, m.chains, false, q.(res := q.res - {OwnDevice(id)}));
    } else if !e.xray {
      RouteUndone(r.host, id, routed);
      FallenBy(UndoRoute(r.host, id).host, id, p, m.chains, false,
        routed.(res := routed.res - {OwnRoute(id)} - {OwnDevice(id)}));
    } else {
      Added(r.host, id, routed, Xray(id));
      assert routed.res + {Xray(id)} == All(id);
      TProxyStage(Add(r.host, Xray(id)), id, a, mss, e, p);
    }
  }

  /** Whatever of the tunnel is left, each item at most once: Start either installs all of it, still
      each item once, or only takes away. */
  lemma StartOnShare(m: Host, id: nat, a: WgAddr, mss: int, e: StartEnv, p: Parts)
    requires Share(m, id, p) && Legit(id, p, Some(a.subnet)) && p.res <= {OwnRoute(id)}
    ensures Ends(StartWg(m, id, a, mss, e), id, a,
                 ChainCfg(a.gateway, e.flow, mss, XrayPort(id), Fwmark(id)), p, m.chains, ReachesJump(m, id, e))
  {
    hide TunName, StartRoute, Share, Placed, ChainName, OwnJump, Legit, UndoWg;
    if e.wg {
      var created, q := Add(m, OwnDevice(id)), p.(res := p.res + {OwnDevice(id)});
      Added(m, id, p, OwnDevice(id));
      if e.assign {
        RouteStage(created, id, a, mss, e, p);
      } else {
        WgUndone(created, id, q);
        FallenBy(UndoWg(created, id).host, id, p, m.chains, false, q.(res := q.res - {OwnDevice(id)}));
      }
    } else {
      FallenBy(m, id, p, m.chains, false, p);
    }
  }
}
