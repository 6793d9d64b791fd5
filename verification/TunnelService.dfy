/** The ids considered running in this process. */
module RunSets {
  class RunSet {
    var m: set<nat>

    constructor ()
      ensures m == {}
    {
      m := {};
    }

    method Mark(id: nat)
      modifies this
      ensures m == old(m) + {id}
    {
      m := m + {id};
    }

    method Clear(id: nat)
      modifies this
      ensures m == old(m) - {id}
    {
      m := m - {id};
    }

    predicate Contains(id: nat)
      reads this
    {
      id in m
    }

    /** Hands every id out exactly once and leaves the set empty. */
    method Drain() returns (out: seq<nat>)
      modifies this
      ensures m == {}
      ensures forall id :: id in out <==> id in old(m)
      ensures forall i, j :: 0 <= i < j < |out| ==> out[i] != out[j]
    {
      out := [];
      var left := m;
      while left != {}
        invariant left <= m
        invariant forall id :: id in m <==> id in left || id in out
        invariant forall id :: id in out ==> id !in left
        invariant forall i, j :: 0 <= i < j < |out| ==> out[i] != out[j]
        decreases left
      {
        var id :| id in left;
        out := out + [id];
        left := left - {id};
      }
      m := {};
    }
  }
}

/** Start and Stop as they run: one host call after another, with the rollback each failure calls
    for. Every method is proved to be the step of the same name in Lifecycle. */
module TunnelServices {
  import opened Text
  import opened Naming
  import opened Tproxy
  import opened Host
  import opened Lifecycle
  import opened RunSets
  import Isolation

  class TunnelService {
    var rules: map<Table, seq<Rule>>
    var res: set<Res>
    var chains: map<string, seq<MangleRule>>
    var rows: map<nat, Row>
    const running: RunSet

    constructor (rules: map<Table, seq<Rule>>, res: set<Res>, chains: map<string, seq<MangleRule>>, rows: map<nat, Row>)
      ensures W() == World(Host(rules, res, chains), {}, rows)
      ensures fresh(running)
    {
      this.rules, this.res, this.chains, this.rows := rules, res, chains, rows;
      running := new RunSet();
    }

    ghost function H(): Host
      reads this
    {
      Host(rules, res, chains)
    }

    ghost function W(): World
      reads this, running
    {
      World(H(), running.m, rows)
    }

    // ----- iptables -----

    method Insert1(t: Table, r: Rule, works: bool) returns (ok: bool)
      modifies this`rules
      ensures ok == works
      ensures H() == if works then InsertHead(old(H()), t, r) else old(H())
    {
      ok := works;
      if works && t in rules { rules := rules[t := [r] + rules[t]]; }
    }

    method DeleteRule(t: Table, r: Rule)
      modifies this`rules
      ensures H() == Delete(old(H()), t, r)
    {
      if t in rules { rules := rules[t := DeleteFirst(rules[t], r)]; }
    }

    /** Append number `k` of a chain under construction; `appends` of them succeed. */
    method TryAppend(chain: string, r: MangleRule, appends: nat, k: nat, ghost all: seq<MangleRule>)
      returns (ok: bool, next: nat)
      requires k < |all| && all[k] == r && k <= appends
      requires chain in chains && chains[chain] == all[..k]
      modifies this`chains
      ensures ok <==> k < appends
      ensures next == if ok then k + 1 else k
      ensures chains == old(chains)[chain := all[..next]]
    {
      ok, next := k < appends, k;
      if ok {
        chains := chains[chain := chains[chain] + [r]];
        next := k + 1;
        assert all[..next] == all[..k] + [r];
      } else {
        assert chains == chains[chain := all[..k]];
      }
    }

    method FillDns(chain: string, cfg: ChainCfg, appends: nat) returns (ok: bool, k: nat)
      requires chain in chains && chains[chain] == []
      modifies this`chains
      ensures Reached(appends, if Trim(cfg.gateway) == "" then 0 else 2, ok, k)
      ensures k <= |BuildChain(cfg)| && chains == old(chains)[chain := BuildChain(cfg)[..k]]
    {
      ChainLayout(cfg);
      hide Trim, DropQuicVision, BuildChain;
      ghost var all := BuildChain(cfg);
      ok, k := true, 0;
      var g := Trim(cfg.gateway);
      if g != "" {
        ok, k := TryAppend(chain, To(Some(g), Some(Udp), Some(53), RETURN), appends, k, all);
        if !ok { return; }
        ok, k := TryAppend(chain, To(Some(g), Some(Tcp), Some(53), RETURN), appends, k, all);
      } else {
        assert chains == chains[chain := all[..0]];
      }
    }

    method FillTcp(chain: string, cfg: ChainCfg, appends: nat, start: nat) returns (ok: bool, k: nat)
      requires start == (if Trim(cfg.gateway) == "" then 0 else 2) && start <= appends && start <= |BuildChain(cfg)|
      requires chain in chains && chains[chain] == BuildChain(cfg)[..start]
      modifies this`chains
      ensures Reached(appends, start + 3, ok, k)
      ensures k <= |BuildChain(cfg)| && chains == old(chains)[chain := BuildChain(cfg)[..k]]
    {
      ChainLayout(cfg);
      hide Trim, DropQuicVision, BuildChain;
      ghost var all := BuildChain(cfg);
      ok, k := TryAppend(chain, To(None, Some(Icmp), None, RETURN), appends, start, all);
      if !ok { return; }
      var mss := if cfg.mssClamp <= 0 then DEFAULT_MSS_CLAMP else cfg.mssClamp;
      ok, k := TryAppend(chain, MangleRule(Criteria(None, Some(Tcp), None, true), TCPMSS(mss)), appends, k, all);
      if !ok { return; }
      ok, k := TryAppend(chain, To(None, Some(Tcp), None, TPROXY(cfg.port, cfg.mark)), appends, k, all);
    }

    method FillUdp(chain: string, cfg: ChainCfg, appends: nat, start: nat) returns (ok: bool, k: nat)
      requires start == (if Trim(cfg.gateway) == "" then 3 else 5) && start <= appends && start <= |BuildChain(cfg)|
      requires chain in chains && chains[chain] == BuildChain(cfg)[..start]
      modifies this`chains
      ensures Reached(appends, |BuildChain(cfg)|, ok, k)
      ensures k <= |BuildChain(cfg)| && chains == old(chains)[chain := BuildChain(cfg)[..k]]
    {
      ChainLayout(cfg);
      hide Trim, DropQuicVision, BuildChain;
      ghost var all := BuildChain(cfg);
      k := start;
      if DropQuicVision(cfg.flow) {
        ok, k := TryAppend(chain, To(None, Some(Udp), Some(443), DROP), appends, k, all);
        if !ok { return; }
      }
      ok, k := TryAppend(chain, To(None, Some(Udp), None, TPROXY(cfg.port, cfg.mark)), appends, k, all);
      if !ok { return; }
      ok, k := TryAppend(chain, To(None, None, None, RETURN), appends, k, all);
    }

    method FillChain(chain: string, cfg: ChainCfg, appends: nat) returns (ok: bool)
      requires chain in chains && chains[chain] == []
      modifies this`chains
      ensures ok <==> appends >= |BuildChain(cfg)|
      ensures chains == old(chains)[chain := Appended(BuildChain(cfg), appends)]
    {
      ChainLayout(cfg);
      hide Trim, DropQuicVision, BuildChain;
      var k;
      ok, k := FillDns(chain, cfg, appends);
      if ok { ok, k := FillTcp(chain, cfg, appends, k); }
      if ok { ok, k := FillUdp(chain, cfg, appends, k); }
      assert BuildChain(cfg)[..k] == Appended(BuildChain(cfg), appends);
    }

    // ----- netconf -----

    method SetupReturnRouteOn(id: nat, e: StartEnv) returns (ok: bool)
      modifies this`res
      ensures var s := SetupReturnRoute(old(H()), id, e); H() == s.host && ok == s.ok
    {
      if e.ruleAdd { res := res + {OwnRule(id)}; }
      if !e.route { return false; }
      res := (set r | r in res && !(InTable(r, RouteTable(id)) && r.dst == DEFAULT_DST)) + {OwnRoute(id)};
      ok := true;
    }

    method TeardownReturnRouteOn(id: nat)
      modifies this`res
      ensures H() == TeardownReturnRoute(old(H()), id)
    {
      ghost var before := res;
      var listed := set r | r in res && r.IpRule?;
      while listed != {}
        invariant listed <= res
        invariant res == before || res == before - {OwnRule(id)}
        invariant OwnRule(id) in res ==> OwnRule(id) in listed
        decreases listed
      {
        var r :| r in listed;
        listed := listed - {r};
        if r.mark == RuleMark(id) && r.table == RouteTable(id) { res := res - {r}; }
      }
      assert res == before - {OwnRule(id)};
      ghost var unruled := res;
      var routes := set r | r in res && InTable(r, RouteTable(id));
      while routes != {}
        invariant forall r :: r in routes ==> InTable(r, RouteTable(id)) && r in res
        invariant forall r :: r in res ==> r in unruled && (InTable(r, RouteTable(id)) ==> r in routes)
        invariant forall r :: r in unruled && !InTable(r, RouteTable(id)) ==> r in res
        decreases routes
      {
        var r :| r in routes;
        routes := routes - {r};
        res := res - {r};
      }
      assert res == set r | r in unruled && !InTable(r, RouteTable(id));
    }

    method SetupTProxyOn(id: nat, cfg: ChainCfg, e: StartEnv) returns (ok: bool)
      modifies this`rules, this`chains
      ensures var s := SetupTProxy(old(H()), id, cfg, e); H() == s.host && ok == s.ok
    {
      hide TunName, ChainName, BuildChain, Delete, Appended;
      if !e.mangleInit { return false; }
      var tun, chain := TunName(id), ChainName(id);
      if chain !in chains && !e.newChain { return false; }
      chains := chains[chain := []];
      DeleteRule(Prerouting, Jump(tun, chain));
      ghost var unlinked := Delete(old(H()), Prerouting, Jump(tun, chain));
      DeleteOnlyRules(old(H()), H().chains, Prerouting, Jump(tun, chain));
      ok := FillChain(chain, cfg, e.appends);
      assert chains == unlinked.chains[chain := Appended(BuildChain(cfg), e.appends)];
      if !ok { return; }
      if !e.jump { return false; }
      if Prerouting in rules { rules := rules[Prerouting := rules[Prerouting] + [Jump(tun, chain)]]; }
    }

    method TeardownTProxyOn(id: nat, tun: string)
      modifies this`rules, this`chains
      ensures H() == TeardownTProxy(old(H()), id, tun)
    {
      hide ChainName;
      DeleteRule(Prerouting, Jump(tun, ChainName(id)));
      if ChainName(id) in chains {
        chains := chains[ChainName(id) := []];
        chains := chains - {ChainName(id)};
      }
    }

    method TeardownForwardOn(tun: string)
      modifies this`rules
      ensures H() == TeardownForward(old(H()), tun)
    {
      hide Delete;
      DeleteRule(Forward, AcceptOut(tun));
      DeleteRule(Forward, AcceptIn(tun));
      DeleteRule(DockerUser, AcceptOut(tun));
      DeleteRule(DockerUser, AcceptIn(tun));
    }

    method SetupForwardOn(tun: string, e: StartEnv) returns (ok: bool)
      modifies this`rules
      ensures var s := SetupForward(old(H()), tun, e); H() == s.host && ok == s.ok
    {
      hide Delete, InsertHead, TeardownForward;
      if !e.filterInit { return false; }
      TeardownForwardOn(tun);
      var useDocker := false;
      if DockerUser in rules {
        var out := Insert1(DockerUser, AcceptOut(tun), e.dockerOut);
        var inn := Insert1(DockerUser, AcceptIn(tun), e.dockerIn);
        if out && inn {
          useDocker := true;
        } else {
          DeleteRule(DockerUser, AcceptOut(tun));
          DeleteRule(DockerUser, AcceptIn(tun));
        }
      }
      if !useDocker {
        ok := Insert1(Forward, AcceptIn(tun), e.forwardIn);
        if !ok { return; }
        ok := Insert1(Forward, AcceptOut(tun), e.forwardOut);
        if !ok {
          DeleteRule(Forward, AcceptIn(tun));
          return;
        }
      }
      ok := true;
    }

    method TeardownNatOn(tun: string, subnet: string)
      modifies this`rules
      ensures H() == TeardownNat(old(H()), tun, subnet)
    {
      hide Delete;
      DeleteRule(Postrouting, Masquerade(tun, subnet));
      DeleteRule(Postrouting, LegacyIcmp(subnet));
    }

    method SetupNatOn(tun: string, subnet: string, e: StartEnv) returns (ok: bool)
      modifies this`rules
      ensures var s := SetupNat(old(H()), tun, subnet, e); H() == s.host && ok == s.ok
    {
      hide TeardownNat, InsertHead;
      if !e.natInit { return false; }
      TeardownNatOn(tun, subnet);
      ok := Insert1(Postrouting, Masquerade(tun, subnet), e.masquerade);
    }

    // ----- WireGuard and xray -----

    method CreateDevice(id: nat)
      modifies this`res
      ensures H() == Add(old(H()), OwnDevice(id))
    {
      res := res + {OwnDevice(id)};
    }

    method DestroyDevice(id: nat)
      modifies this`res
      ensures H() == Drop(old(H()), OwnDevice(id))
    {
      res := res - {OwnDevice(id)};
    }

    method StartXray(id: nat)
      modifies this`res
      ensures H() == Add(old(H()), Xray(id))
    {
      res := res + {Xray(id)};
    }

    method StopXray(id: nat)
      modifies this`res
      ensures H() == Drop(old(H()), Xray(id))
    {
      res := res - {Xray(id)};
    }

    // ----- TunnelService -----

    method StopInternal(id: nat, tun: string, subnet: Option<string>)
      modifies this`rules, this`chains, this`res, running
      ensures H() == TearDown(old(H()), id, tun, subnet)
      ensures running.m == old(running.m) - {id}
    {
      hide TeardownForward, TeardownNat, TeardownTProxy, TeardownReturnRoute, Drop;
      TeardownForwardOn(tun);
      if subnet.Some? { TeardownNatOn(tun, subnet.value); }
      TeardownTProxyOn(id, tun);
      TeardownReturnRouteOn(id);
      DestroyDevice(id);
      StopXray(id);
      running.Clear(id);
    }

    /** The stages from wg_create to the saved row, each failure followed by its rollback. */
    method BringUp(id: nat, a: WgAddr, mss: int, e: StartEnv) returns (end: Ending)
      modifies this`rules, this`chains, this`res, running
      ensures Brought(H(), end) == StartWg(old(H()), id, a, mss, e)
      ensures running.m == if end == Unsaved then old(running.m) - {id} else old(running.m)
    {
      hide TunName, SetupReturnRoute, TeardownReturnRoute, SetupTProxy, TeardownTProxy, SetupForward, TeardownForward,
        SetupNat, TeardownNat, TearDown, Add, Drop;
      var tun, ok := TunName(id), true;
      end := RolledBack;
      if !e.wg { return; }
      CreateDevice(id);
      if !e.assign {
        DestroyDevice(id);
        return;
      }
      ok := SetupReturnRouteOn(id, e);
      if !ok {
        DestroyDevice(id);
        return;
      }
      if !e.xray {
        TeardownReturnRouteOn(id);
        DestroyDevice(id);
        return;
      }
      StartXray(id);
      ok := SetupTProxyOn(id, ChainCfg(a.gateway, e.flow, mss, XrayPort(id), Fwmark(id)), e);
      if !ok {
        StopXray(id);
        TeardownReturnRouteOn(id);
        DestroyDevice(id);
        return;
      }
      ok := SetupForwardOn(tun, e);
      if !ok {
        TeardownTProxyOn(id, tun);
        StopXray(id);
        TeardownReturnRouteOn(id);
        DestroyDevice(id);
        return;
      }
      ok := SetupNatOn(tun, a.subnet, e);
      if !ok {
        TeardownForwardOn(tun);
        TeardownTProxyOn(id, tun);
        StopXray(id);
        TeardownReturnRouteOn(id);
        DestroyDevice(id);
        return;
      }
      if !e.save {
        StopInternal(id, tun, Some(a.subnet));
        return Unsaved;
      }
      end := Up;
    }

    method StartTunnel(id: nat, e: StartEnv) returns (ok: bool)
      modifies this, running
      ensures var s := Start(old(W()), id, e); W() == s.world && ok == s.ok
    {
      hide StartWg, TunName;
      if running.Contains(id) { return true; }
      if id !in rows || !e.ready || rows[id].address.None? { return false; }
      var row := rows[id];
      var end := BringUp(id, row.address.value, row.mssClamp, e);
      match end {
        case Up =>
          rows := rows[id := UpRow(row, id, e)];
          running.Mark(id);
          ok := true;
        case Unsaved =>
          assert running.m == old(running.m);
          ok := false;
        case RolledBack =>
          if e.saveStatus { rows := rows[id := FailedRow(row, e)]; }
          ok := false;
      }
    }

    method TeardownRuntimeOf(id: nat)
      requires id in rows
      modifies this`rules, this`chains, this`res, running
      ensures W() == TeardownRuntime(old(W()), id)
    {
      hide TearDown, TunName;
      StopInternal(id, TunOrDefault(rows[id], id), SubnetOf(rows[id]));
    }

    method StopTunnel(id: nat, found: bool, saved: Saved)
      modifies this, running
      ensures W() == Stop(old(W()), id, found, saved)
    {
      hide TeardownRuntime;
      if !found || id !in rows { return; }
      ghost var before := W();
      TeardownRuntimeOf(id);
      assert W().rows == before.rows by { Isolation.TeardownKeepsRows(before, id); }
      if saved.row { rows := rows[id := rows[id].(status := Stopped, error := "", upSince := None)]; }
      if saved.status { rows := rows[id := rows[id].(status := Stopped, error := "")]; }
      assert W().rows == before.rows[id := StoppedRow(before.rows[id], saved)];
    }

    /** The PUT handler: the lifecycle fields of the stored row win, whatever the body says. */
    method PutTunnel(id: nat, row: Row) returns (found: bool)
      modifies this`rows
      ensures W() == Put(old(W()), id, row)
      ensures found <==> id in old(rows)
      ensures rows.Keys == old(rows).Keys && forall i :: i in rows && i != id ==> rows[i] == old(rows)[i]
      ensures found ==>
        && rows[id].status == old(rows)[id].status && rows[id].error == old(rows)[id].error
        && rows[id].upSince == old(rows)[id].upSince
        && rows[id].tunName == row.tunName && rows[id].address == row.address && rows[id].mssClamp == row.mssClamp
    {
      found := id in rows;
      if found {
        var stored := rows[id];
        var incoming := row.(status := stored.status);
        incoming := incoming.(error := stored.error);
        rows := rows[id := incoming.(upSince := stored.upSince)];
      }
    }

    /** Tears every drained tunnel down; the rows keep saying running. */
    method Shutdown() returns (ghost drained: seq<nat>)
      requires running.m <= rows.Keys
      modifies this`rules, this`chains, this`res, running
      ensures forall id :: id in drained <==> id in old(running.m)
      ensures W() == ShutdownAll(old(W()).(running := {}), drained)
      ensures rows == old(rows)
    {
      hide TeardownRuntime;
      var ids := running.Drain();
      drained := ids;
      ghost var start := W();
      assert start == old(W()).(running := {});
      for i := 0 to |ids|
        invariant ShutdownAll(start, ids) == ShutdownAll(W(), ids[i..])
        invariant rows == start.rows
      {
        assert ids[i..][1..] == ids[i + 1..];
        if ids[i] in rows {
          ghost var now := W();
          TeardownRuntimeOf(ids[i]);
          Isolation.TeardownKeepsRows(now, ids[i]);
        }
      }
    }

    /** Starts every tunnel persisted as running, in the order the database lists them. */
    method Restore(ids: seq<nat>, e: nat -> StartEnv)
      modifies this, running
      ensures W() == RestoreRunning(old(W()), ids, e)
    {
      hide Start;
      for i := 0 to |ids|
        invariant RestoreRunning(old(W()), ids, e) == RestoreRunning(W(), ids[i..], e)
      {
        assert ids[i..][1..] == ids[i + 1..];
        var _ := StartTunnel(ids[i], e(ids[i]));
      }
    }
  }

  /** A run of appends either reached position `end`, or stopped where the next append fails. */
  predicate Reached(appends: nat, end: nat, ok: bool, k: nat) {
    if ok then k == end <= appends else k == appends < end
  }

  /** Where each rule of the chain stands. */
  lemma ChainLayout(cfg: ChainCfg)
    ensures var all, g := BuildChain(cfg), Trim(cfg.gateway);
      var dns := if g == "" then 0 else 2;
      var udp := dns + if DropQuicVision(cfg.flow) then 4 else 3;
      && |all| == udp + 2
      && (g != "" ==> all[0] == To(Some(g), Some(Udp), Some(53), RETURN))
      && (g != "" ==> all[1] == To(Some(g), Some(Tcp), Some(53), RETURN))
      && all[dns] == To(None, Some(Icmp), None, RETURN)
      && all[dns + 1] == MangleRule(Criteria(None, Some(Tcp), None, true),
                                    TCPMSS(if cfg.mssClamp <= 0 then DEFAULT_MSS_CLAMP else cfg.mssClamp))
      && all[dns + 2] == To(None, Some(Tcp), None, TPROXY(cfg.port, cfg.mark))
      && (DropQuicVision(cfg.flow) ==> all[dns + 3] == To(None, Some(Udp), Some(443), DROP))
      && all[udp] == To(None, Some(Udp), None, TPROXY(cfg.port, cfg.mark))
      && all[udp + 1] == To(None, None, None, RETURN)
  {
    hide Trim, DropQuicVision, BuildChain;
    BuiltOfParts(cfg);
  }

  lemma DeleteOnlyRules(h: Host, chains: map<string, seq<MangleRule>>, t: Table, r: Rule)
    ensures Delete(h.(chains := chains), t, r) == Delete(h, t, r).(chains := chains)
    ensures Delete(h, t, r).chains == h.chains
  {
  }
}
