/** Every operation on a tunnel acts on that tunnel's share of the host as it would on the share
    alone, and is invisible in everybody else's. */
module Isolation {
  import opened Text
  import opened Naming
  import opened Tproxy
  import opened Host
  import opened Lifecycle

  lemma DeleteOwn(h: Host, t: Table, r: Rule, id: nat, s: Sel)
    requires RuleOf(id, r) && !r.LegacyIcmp?
    ensures Keep(Delete(h, t, r), s) == if Takes(s, id) then Delete(Keep(h, s), t, r) else Keep(h, s)
    ensures Keep(InsertHead(h, t, r), s) == if Takes(s, id) then InsertHead(Keep(h, s), t, r) else Keep(h, s)
    ensures Keep(Append(h, t, r), s) == if Takes(s, id) then Append(Keep(h, s), t, r) else Keep(h, s)
  {
    Selects(s, id);
    hide Keep, Delete, InsertHead, Append, SelRule, RuleOf;
    DeleteKeep(h, t, r, s);
    InsertHeadKeep(h, t, r, s);
    AppendKeep(h, t, r, s);
  }

  /** No share ever holds a rule of an older build, so deleting one is invisible in all of them. */
  lemma DeleteLegacy(h: Host, t: Table, sub: string, s: Sel)
    ensures Keep(Delete(h, t, LegacyIcmp(sub)), s) == Keep(h, s)
    ensures Delete(Keep(h, s), t, LegacyIcmp(sub)) == Keep(h, s)
  {
    DeleteKeep(h, t, LegacyIcmp(sub), s);
    if t in h.rules {
      var l := Filter(h.rules[t], RuleFn(s));
      assert LegacyIcmp(sub) !in l;
      DeleteAbsent(l, LegacyIcmp(sub));
      UpdateKeep(h, t, h.rules[t], s);
      hide Keep, Filter, SelRule, DeleteFirst;
      assert Keep(h, s).rules[t := l] == Keep(h, s).rules;
    }
  }

  lemma ReturnRouteKeep(h: Host, id: nat, e: StartEnv, s: Sel)
    ensures var a, b := SetupReturnRoute(h, id, e), SetupReturnRoute(Keep(h, s), id, e);
      a.ok == b.ok && Keep(a.host, s) == if Takes(s, id) then b.host else Keep(h, s)
    ensures Keep(TeardownReturnRoute(h, id), s)
         == if Takes(s, id) then TeardownReturnRoute(Keep(h, s), id) else Keep(h, s)
  {
    Selects(s, id);
    AddKeep(h, OwnRule(id), s);
    RoutesKeep(h, id, s);
    RoutesKeep(Add(h, OwnRule(id)), id, s);
    RoutesKeep(Drop(h, OwnRule(id)), id, s);
    hide Keep, Add, Drop, ReplaceDefault, FlushTable, SelRes;
  }

  lemma SetupTProxyKeep(h: Host, id: nat, cfg: ChainCfg, e: StartEnv, s: Sel)
    ensures var a, b := SetupTProxy(h, id, cfg, e), SetupTProxy(Keep(h, s), id, cfg, e);
      Keep(a.host, s) == (if Takes(s, id) then b.host else Keep(h, s)) && (Takes(s, id) ==> a.ok == b.ok)
  {
    var chain := ChainName(id);
    var jump := Jump(TunName(id), chain);
    assert SelChain(s, chain) <==> Takes(s, id) by { Selects(s, id); }
    assert RuleOf(id, jump) by { JumpIsOwn(id); }
    ChainInShare(h, chain, s);
    hide Keep, Delete, SetChain, Append, Appended, SelRule, SelRes, SelChain, BuildChain, TunName, ChainName, RuleOf;
    DeleteOwn(h, Prerouting, jump, id, s);
    var unlinked := Delete(h, Prerouting, jump);
    var got := Appended(BuildChain(cfg), e.appends);
    ChainKeep(unlinked, chain, got, s);
    DeleteOwn(SetChain(unlinked, chain, got), Prerouting, jump, id, s);
  }

  lemma JumpIsOwn(id: nat)
    ensures RuleOf(id, Jump(TunName(id), ChainName(id)))
  {
  }

  lemma ChainInShare(h: Host, name: string, s: Sel)
    ensures SelChain(s, name) ==> (name in Keep(h, s).chains <==> name in h.chains)
  {
  }

  lemma TeardownTProxyKeep(h: Host, id: nat, s: Sel)
    ensures Keep(TeardownTProxy(h, id, TunName(id)), s)
         == if Takes(s, id) then TeardownTProxy(Keep(h, s), id, TunName(id)) else Keep(h, s)
  {
    Selects(s, id);
    var jump := Jump(TunName(id), ChainName(id));
    hide Keep, Delete, DropChain, SelRule, SelChain, TunName, ChainName;
    DeleteOwn(h, Prerouting, jump, id, s);
    ChainKeep(Delete(h, Prerouting, jump), ChainName(id), [], s);
  }

  lemma TeardownForwardKeep(h: Host, id: nat, s: Sel)
    ensures Keep(TeardownForward(h, TunName(id)), s)
         == if Takes(s, id) then TeardownForward(Keep(h, s), TunName(id)) else Keep(h, s)
  {
    var i, o := AcceptIn(TunName(id)), AcceptOut(TunName(id));
    hide Keep, Delete, TunName;
    DeleteOwn(h, Forward, o, id, s);
    var a := Delete(h, Forward, o);
    DeleteOwn(a, Forward, i, id, s);
    var b := Delete(a, Forward, i);
    DeleteOwn(b, DockerUser, o, id, s);
    DeleteOwn(Delete(b, DockerUser, o), DockerUser, i, id, s);
  }

  lemma SameTables(h: Host, t: Table, s: Sel)
    ensures t in Keep(h, s).rules <==> t in h.rules
  {
  }

  lemma InsertDockerKeep(h: Host, id: nat, e: StartEnv, s: Sel)
    ensures var a, b := InsertDocker(h, TunName(id), e), InsertDocker(Keep(h, s), TunName(id), e);
      a.ok == b.ok && Keep(a.host, s) == if Takes(s, id) then b.host else Keep(h, s)
  {
    var i, o := AcceptIn(TunName(id)), AcceptOut(TunName(id));
    SameTables(h, DockerUser, s);
    hide Keep, Delete, TunName, InsertHead, RuleOf;
    assert RuleOf(id, i) && RuleOf(id, o) by { AcceptsAreOwn(id); }
    DeleteOwn(h, DockerUser, o, id, s);
    var a := if e.dockerOut then InsertHead(h, DockerUser, o) else h;
    DeleteOwn(a, DockerUser, i, id, s);
    var b := if e.dockerIn then InsertHead(a, DockerUser, i) else a;
    if !(e.dockerOut && e.dockerIn) {
      DeleteOwn(b, DockerUser, o, id, s);
      DeleteOwn(Delete(b, DockerUser, o), DockerUser, i, id, s);
    }
  }

  lemma AcceptsAreOwn(id: nat)
    ensures RuleOf(id, AcceptIn(TunName(id))) && RuleOf(id, AcceptOut(TunName(id)))
  {
  }

  lemma InsertForwardKeep(h: Host, id: nat, e: StartEnv, s: Sel)
    ensures var a, b := InsertForward(h, TunName(id), e), InsertForward(Keep(h, s), TunName(id), e);
      a.ok == b.ok && Keep(a.host, s) == if Takes(s, id) then b.host else Keep(h, s)
  {
    var i, o := AcceptIn(TunName(id)), AcceptOut(TunName(id));
    hide Keep, Delete, TunName, InsertHead;
    DeleteOwn(h, Forward, i, id, s);
    var a := InsertHead(h, Forward, i);
    DeleteOwn(a, Forward, i, id, s);
    DeleteOwn(a, Forward, o, id, s);
  }

  lemma ForwardKeep(h: Host, id: nat, e: StartEnv, s: Sel)
    ensures var a, b := SetupForward(h, TunName(id), e), SetupForward(Keep(h, s), TunName(id), e);
      Keep(a.host, s) == (if Takes(s, id) then b.host else Keep(h, s)) && (Takes(s, id) ==> a.ok == b.ok)
  {
    var tun := TunName(id);
    TeardownForwardKeep(h, id, s);
    InsertDockerKeep(TeardownForward(h, tun), id, e, s);
    InsertForwardKeep(InsertDocker(TeardownForward(h, tun), tun, e).host, id, e, s);
    hide Keep, TeardownForward, InsertDocker, InsertForward, TunName;
  }

  lemma TeardownNatKeep(h: Host, id: nat, sub: string, s: Sel)
    ensures Keep(TeardownNat(h, TunName(id), sub), s)
         == if Takes(s, id) then TeardownNat(Keep(h, s), TunName(id), sub) else Keep(h, s)
  {
    var m := Masquerade(TunName(id), sub);
    hide Keep, Delete, TunName;
    DeleteOwn(h, Postrouting, m, id, s);
    DeleteLegacy(Delete(h, Postrouting, m), Postrouting, sub, s);
  }

  lemma NatKeep(h: Host, id: nat, sub: string, e: StartEnv, s: Sel)
    ensures var a, b := SetupNat(h, TunName(id), sub, e), SetupNat(Keep(h, s), TunName(id), sub, e);
      Keep(a.host, s) == (if Takes(s, id) then b.host else Keep(h, s)) && a.ok == b.ok
  {
    var m := Masquerade(TunName(id), sub);
    TeardownNatKeep(h, id, sub, s);
    hide Keep, TunName, InsertHead, TeardownNat;
    DeleteOwn(TeardownNat(h, TunName(id), sub), Postrouting, m, id, s);
  }

  lemma OwnResKeep(h: Host, id: nat, s: Sel)
    ensures Keep(Add(h, OwnDevice(id)), s) == if Takes(s, id) then Add(Keep(h, s), OwnDevice(id)) else Keep(h, s)
    ensures Keep(Add(h, Xray(id)), s) == if Takes(s, id) then Add(Keep(h, s), Xray(id)) else Keep(h, s)
    ensures Keep(Drop(h, OwnDevice(id)), s) == if Takes(s, id) then Drop(Keep(h, s), OwnDevice(id)) else Keep(h, s)
    ensures Keep(Drop(h, Xray(id)), s) == if Takes(s, id) then Drop(Keep(h, s), Xray(id)) else Keep(h, s)
  {
  }

  lemma TearDownKeep(h: Host, id: nat, sub: Option<string>, s: Sel)
    ensures Keep(TearDown(h, id, TunName(id), sub), s)
         == if Takes(s, id) then TearDown(Keep(h, s), id, TunName(id), sub) else Keep(h, s)
  {
    var tun := TunName(id);
    hide Keep, TeardownForward, TeardownNat, TeardownTProxy, TeardownReturnRoute, SetupTProxy, SetupReturnRoute,
      TunName, Drop;
    var e: StartEnv := *;
    TeardownForwardKeep(h, id, s);
    var f := TeardownForward(h, tun);
    if sub.Some? { TeardownNatKeep(f, id, sub.value, s); }
    var n := if sub.Some? then TeardownNat(f, tun, sub.value) else f;
    TeardownTProxyKeep(n, id, s);
    var t := TeardownTProxy(n, id, tun);
    ReturnRouteKeep(t, id, e, s);
    var r := TeardownReturnRoute(t, id);
    OwnResKeep(r, id, s);
    OwnResKeep(Drop(r, OwnDevice(id)), id, s);
  }

  lemma UndoKeep(h: Host, id: nat, s: Sel)
    ensures Keep(UndoWg(h, id).host, s) == if Takes(s, id) then UndoWg(Keep(h, s), id).host else Keep(h, s)
    ensures Keep(UndoRoute(h, id).host, s) == if Takes(s, id) then UndoRoute(Keep(h, s), id).host else Keep(h, s)
    ensures Keep(UndoXray(h, id).host, s) == if Takes(s, id) then UndoXray(Keep(h, s), id).host else Keep(h, s)
  {
  }

  lemma UndoMoreKeep(h: Host, id: nat, s: Sel)
    ensures Keep(UndoTProxy(h, id).host, s) == if Takes(s, id) then UndoTProxy(Keep(h, s), id).host else Keep(h, s)
    ensures Keep(UndoForward(h, id).host, s) == if Takes(s, id) then UndoForward(Keep(h, s), id).host else Keep(h, s)
  {
    hide Keep, TeardownTProxy, SetupTProxy, TeardownForward, UndoXray, TunName;
    TeardownTProxyKeep(h, id, s);
    UndoKeep(TeardownTProxy(h, id, TunName(id)), id, s);
    TeardownForwardKeep(h, id, s);
    var f := TeardownForward(h, TunName(id));
    TeardownTProxyKeep(f, id, s);
    UndoKeep(TeardownTProxy(f, id, TunName(id)), id, s);
  }

  /** `after` is what a pipeline makes of a host, `alone` what it makes of the share. */
  predicate Confined(h: Host, id: nat, s: Sel, after: Brought, alone: Brought) {
    if Takes(s, id) then Brought(Keep(after.host, s), after.end) == alone else Keep(after.host, s) == Keep(h, s)
  }

  lemma StartNatKeep(h: Host, id: nat, a: WgAddr, e: StartEnv, s: Sel)
    ensures Confined(h, id, s, StartNat(h, id, a, e), StartNat(Keep(h, s), id, a, e))
  {
    var n := SetupNat(h, TunName(id), a.subnet, e);
    NatKeep(h, id, a.subnet, e, s);
    UndoMoreKeep(n.host, id, s);
    TearDownKeep(n.host, id, Some(a.subnet), s);
    assert UndoForward(n.host, id).end == RolledBack && UndoForward(Keep(n.host, s), id).end == RolledBack;
    hide Keep, SetupNat, UndoForward, TearDown, TunName;
  }

  lemma StartForwardKeep(h: Host, id: nat, a: WgAddr, e: StartEnv, s: Sel)
    ensures Confined(h, id, s, StartForward(h, id, a, e), StartForward(Keep(h, s), id, a, e))
  {
    var f := SetupForward(h, TunName(id), e);
    ForwardKeep(h, id, e, s);
    UndoMoreKeep(f.host, id, s);
    StartNatKeep(f.host, id, a, e, s);
    assert UndoTProxy(f.host, id).end == RolledBack && UndoTProxy(Keep(f.host, s), id).end == RolledBack;
    hide Keep, SetupForward, UndoTProxy, StartNat, TunName;
  }

  lemma StartTProxyKeep(h: Host, id: nat, a: WgAddr, mss: int, e: StartEnv, s: Sel)
    ensures Confined(h, id, s, StartTProxy(h, id, a, mss, e), StartTProxy(Keep(h, s), id, a, mss, e))
  {
    var t := SetupTProxy(h, id, ChainCfg(a.gateway, e.flow, mss, XrayPort(id), Fwmark(id)), e);
    SetupTProxyKeep(h, id, ChainCfg(a.gateway, e.flow, mss, XrayPort(id), Fwmark(id)), e, s);
    UndoKeep(t.host, id, s);
    StartForwardKeep(t.host, id, a, e, s);
    assert UndoXray(t.host, id).end == RolledBack && UndoXray(Keep(t.host, s), id).end == RolledBack;
    hide Keep, SetupTProxy, UndoXray, StartForward, TunName;
  }

  lemma StartRouteKeep(h: Host, id: nat, a: WgAddr, mss: int, e: StartEnv, s: Sel)
    ensures Confined(h, id, s, StartRoute(h, id, a, mss, e), StartRoute(Keep(h, s), id, a, mss, e))
  {
    var r := SetupReturnRoute(h, id, e);
    ReturnRouteKeep(h, id, e, s);
    UndoKeep(r.host, id, s);
    OwnResKeep(r.host, id, s);
    StartTProxyKeep(Add(r.host, Xray(id)), id, a, mss, e, s);
    assert forall g: Host :: UndoWg(g, id).end == RolledBack;
    assert forall g: Host :: UndoRoute(g, id).end == RolledBack;
    hide Keep, SetupReturnRoute, UndoWg, UndoRoute, StartTProxy, Add, TunName;
  }

  /** The host side of Start is confined to its tunnel's share. */
  lemma StartWgKeep(h: Host, id: nat, a: WgAddr, mss: int, e: StartEnv, s: Sel)
    ensures Confined(h, id, s, StartWg(h, id, a, mss, e), StartWg(Keep(h, s), id, a, mss, e))
  {
    var created := Add(h, OwnDevice(id));
    OwnResKeep(h, id, s);
    UndoKeep(created, id, s);
    StartRouteKeep(created, id, a, mss, e, s);
    assert forall g: Host :: UndoWg(g, id).end == RolledBack;
    hide Keep, UndoWg, StartRoute, Add, TunName;
  }

  // ----- whole worlds -----

  /** A tunnel's share of the world, or the world without it. */
  function KeepWorld(w: World, s: Sel): World {
    World(Keep(w.host, s), set i | i in w.running && Takes(s, i), map i | i in w.rows && Takes(s, i) :: w.rows[i])
  }

  predicate OwnNames(w: World) {
    forall i :: i in w.rows ==> OwnName(w.rows[i], i)
  }

  lemma StartKeep(w: World, id: nat, e: StartEnv, s: Sel)
    ensures KeepWorld(Start(w, id, e).world, s)
         == if Takes(s, id) then Start(KeepWorld(w, s), id, e).world else KeepWorld(w, s)
  {
    hide Keep, StartWg, TunName, SetupsWork, Grew, UpRow, FailedRow;
    if id !in w.running && id in w.rows && e.ready && w.rows[id].address.Some? {
      var row := w.rows[id];
      StartWgKeep(w.host, id, row.address.value, row.mssClamp, e, s);
      var b := StartWg(w.host, id, row.address.value, row.mssClamp, e);
      MarkKeep(w, id, b.host, UpRow(row, id, e), s);
      MarkKeep(w, id, b.host, FailedRow(row, e), s);
      if Takes(s, id) { assert id in KeepWorld(w, s).rows && KeepWorld(w, s).rows[id] == row; }
      hide KeepWorld;
    }
  }

  lemma MarkKeep(w: World, id: nat, h: Host, row: Row, s: Sel)
    ensures KeepWorld(World(h, w.running + {id}, w.rows[id := row]), s)
         == (if Takes(s, id) then World(Keep(h, s), KeepWorld(w, s).running + {id}, KeepWorld(w, s).rows[id := row])
             else KeepWorld(w.(host := h), s))
    ensures KeepWorld(w.(host := h, rows := w.rows[id := row]), s)
         == (if Takes(s, id) then World(Keep(h, s), KeepWorld(w, s).running, KeepWorld(w, s).rows[id := row])
             else KeepWorld(w.(host := h), s))
    ensures KeepWorld(w.(host := h), s) == KeepWorld(w, s).(host := Keep(h, s))
    ensures id in KeepWorld(w, s).running <==> id in w.running && Takes(s, id)
  {
  }

  lemma TeardownRuntimeKeep(w: World, id: nat, s: Sel)
    requires OwnNames(w) && id in w.rows
    ensures KeepWorld(TeardownRuntime(w, id), s)
         == if Takes(s, id) then TeardownRuntime(KeepWorld(w, s), id) else KeepWorld(w, s)
  {
    hide Keep, TearDown, TunName;
    assert TunOrDefault(w.rows[id], id) == TunName(id);
    TearDownKeep(w.host, id, SubnetOf(w.rows[id]), s);
  }

  /** Non-interference of one operation: inside the share it runs as on the share alone, outside it
      changes nothing. */
  lemma DoKeep(w: World, op: Op, s: Sel)
    requires OwnNames(w)
    ensures KeepWorld(Do(w, op), s) == if Takes(s, op.id) then Do(KeepWorld(w, s), op) else KeepWorld(w, s)
  {
    hide Keep, TearDown, TunName, Start;
    match op {
      case StartOp(id, e) => StartKeep(w, id, e, s);
      case StopOp(id, found, saved) =>
        if id in w.rows {
          TeardownRuntimeKeep(w, id, s);
          hide TeardownRuntime;
          TeardownKeepsRows(w, id);
          if Takes(s, id) { TeardownKeepsRows(KeepWorld(w, s), id); }
        }
      case PutOp(id, row) =>
    }
  }

  lemma TeardownKeepsRows(w: World, id: nat)
    requires id in w.rows
    ensures TeardownRuntime(w, id).rows == w.rows
  {
  }
}
