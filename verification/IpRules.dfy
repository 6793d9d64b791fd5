/** The policy-routing rule, which a Start may go without. */
module IpRules {
  import opened Text
  import opened Tproxy
  import opened OwnShare
  import opened Recovery
  import opened ReachableChains
  import opened Naming
  import opened Host
  import opened Lifecycle
  import opened Isolation
  import opened StartGuard
  import opened LifecycleProofs
  import opened LifecycleTheorems

  predicate HasRule(h: Host, id: nat) {
    OwnRule(id) in h.res
  }

  /** The ip rule of a tunnel that comes up: there if it was added now, or left by an earlier try. */
  lemma UpRule(h: Host, id: nat, a: WgAddr, mss: int, e: StartEnv)
    requires StartWg(h, id, a, mss, e).end.Up?
    ensures HasRule(StartWg(h, id, a, mss, e).host, id) <==> e.ruleAdd || HasRule(h, id)
  {
  }

  /** Every running tunnel has its ip rule. */
  predicate AllRuled(w: World) {
    forall id :: id in w.running ==> HasRule(w.host, id)
  }

  /** The one way to come up without the rule: RuleAdd is refused, none is there yet, and everything
      a Start depends on works. */
  predicate Unruled(w: World, op: Op) {
    && op.StartOp? && op.id !in w.running && CanStart(w, op.id, op.env)
    && !op.env.ruleAdd && !HasRule(w.host, op.id)
  }

  lemma OthersRule(w: World, op: Op, j: nat)
    requires OwnNames(w) && j != op.id
    ensures HasRule(Do(w, op).host, j) <==> HasRule(w.host, j)
    ensures j in Do(w, op).running <==> j in w.running
  {
    DoKeep(w, op, Mine(j));
    assert KeepWorld(Do(w, op), Mine(j)).host == KeepWorld(w, Mine(j)).host;
    ItemsInShare(w.host, j);
    ItemsInShare(Do(w, op).host, j);
    assert j in KeepWorld(Do(w, op), Mine(j)).running <==> j in Do(w, op).running;
    hide Do, Keep;
  }

  lemma RunningHasRow(w: World)
    requires Rec(w)
    ensures OwnNames(w) && w.running <= w.rows.Keys
  {
    hide GoodAt, OwnNames;
  }

  lemma OwnRuleUnlessRefused(w: World, op: Op)
    requires w.running <= w.rows.Keys && AllRuled(w)
    ensures (op.id in Do(w, op).running ==> HasRule(Do(w, op).host, op.id)) <==> !Unruled(w, op)
  {
    hide StartWg, TearDown, HasRule, CanStart, TunName;
    if op.StartOp? {
      StartsIff(w, op.id, op.env);
      if op.id !in w.running && Start(w, op.id, op.env).ok {
        var row := w.rows[op.id];
        UpRule(w.host, op.id, row.address.value, row.mssClamp, op.env);
      }
    }
  }

  /** "Running means the ip rule is installed" survives an operation if and only if that operation
      is not a Start whose RuleAdd was refused with no rule in place. */
  lemma RuledUnlessRefused(w: World, op: Op)
    requires Rec(w) && AllRuled(w)
    ensures AllRuled(Do(w, op)) <==> !Unruled(w, op)
  {
    hide Do, HasRule, Rec, Unruled, OwnNames;
    RunningHasRow(w);
    OwnRuleUnlessRefused(w, op);
    forall j | j in Do(w, op).running && j != op.id
      ensures HasRule(Do(w, op).host, j)
    {
      OthersRule(w, op, j);
    }
  }

  predicate NeverRefused(w: World, ops: seq<Op>)
    decreases |ops|
  {
    ops == [] || (!Unruled(w, ops[0]) && NeverRefused(Do(w, ops[0]), ops[1..]))
  }

  /** Every running tunnel has its ip rule, at every moment of the run. */
  predicate AlwaysRuled(w: World, ops: seq<Op>)
    decreases |ops|
  {
    AllRuled(w) && (ops == [] || AlwaysRuled(Do(w, ops[0]), ops[1..]))
  }

  /** Over a whole run every running tunnel always has its ip rule if and only if no Start of the run
      had its RuleAdd refused with no rule in place. */
  lemma {:induction false} AlwaysRuledIff(w: World, ops: seq<Op>)
    requires Rec(w) && AllAllowed(w, ops) && AllRuled(w)
    ensures AlwaysRuled(w, ops) <==> NeverRefused(w, ops)
    ensures AlwaysRuled(w, ops) ==> AllRuled(Run(w, ops))
    decreases |ops|
  {
    hide Rec, Allowed, AllRuled, Unruled, Do;
    if ops != [] {
      RecStep(w, ops[0]);
      RuledUnlessRefused(w, ops[0]);
      if AllRuled(Do(w, ops[0])) {
        AlwaysRuledIff(Do(w, ops[0]), ops[1..]);
      } else {
        NotAlways(Do(w, ops[0]), ops[1..]);
      }
    }
  }

  lemma RecStep(w: World, op: Op)
    requires Rec(w) && Allowed(w, op)
    ensures Rec(Do(w, op))
  {
    hide Holds, Allowed, Do;
    DoHolds(w, op, false);
  }

  lemma NotAlways(w: World, ops: seq<Op>)
    requires !AllRuled(w)
    ensures !AlwaysRuled(w, ops)
  {
    hide AllRuled;
  }

  /** Every call may succeed but RuleAdd: the tunnel is up, and its marked packets have no rule. */
  lemma RefusedRuleStillStarts(w: World, id: nat, e: StartEnv)
    requires id !in w.running && CanStart(w, id, e) && !e.ruleAdd && !HasRule(w.host, id)
    ensures Start(w, id, e).ok && id in Start(w, id, e).world.running && !HasRule(Start(w, id, e).world.host, id)
  {
    hide StartWg, HasRule, SetupsWork, TunName;
    StartsIff(w, id, e);
    UpRule(w.host, id, w.rows[id].address.value, w.rows[id].mssClamp, e);
  }

  lemma KeptRes(h: Host, s: Sel, r: Res)
    ensures r in Keep(h, s).res <==> r in h.res && SelRes(s, r)
  {
    hide Filter, SelRule, SelChain, SelRes;
  }

  /** A packet the chain of a running tunnel proxies goes to that tunnel's xray, and its mark is one
      that the tunnel's ip rule, if it has one, sends to a table with the local default route. */
  lemma ProxiedIsRouted(w: World, s: Record, evs: seq<Event>, id: nat, p: Packet)
    requires Rec(w) && AllowedEvents(w, evs) && AsStarted(w, s) && Current(w, s)
    requires id in Live(w, evs).running && HasRule(Live(w, evs).host, id)
    ensures var h := Live(w, evs).host;
      && ChainName(id) in h.chains
      && var verdict := Eval(h.chains[ChainName(id)], p, None);
      verdict.action.Proxied? ==>
        && verdict.action.port == 13000 + id && Xray(id) in h.res
        && IpRule(verdict.action.mark % 0x1_0000_0000, 100 + id) in h.res
        && Route(100 + id, "0.0.0.0/0", true) in h.res
  {
    hide Rec, Live, LastStarts, AllowedEvents, AsStarted, Current, Eval, ChainName, TunName, Keep;
    RunningChainDecides(w, s, evs, id);
    var v := Live(w, evs);
    var u := LastStarts(s, w, evs)[id];
    assert Eval(v.host.chains[ChainName(id)], p, None)
      == Decide(ChainCfg(u.gateway, u.flow, u.mssClamp, 13000 + id, 0x1000 + id), p);
    LiveRec(w, evs);
    RunningRes(v, id);
    hide VisionWithoutUdp443, IsGatewayDns;
  }

  lemma RunningRes(w: World, id: nat)
    requires Rec(w) && id in w.running
    ensures Xray(id) in w.host.res && OwnRoute(id) in w.host.res && OwnDevice(id) in w.host.res
  {
    hide Keep, TunName, ChainBuilt, Placed, SelRes;
    assert GoodAt(w, id, false);
    var m := Keep(w.host, Mine(id));
    var p :| Complete(id, p, w.rows[id].address.value) && Share(m, id, p);
    assert forall r :: r in p.res ==> r in m.res;
    KeptRes(w.host, Mine(id), Xray(id));
    KeptRes(w.host, Mine(id), OwnRoute(id));
    KeptRes(w.host, Mine(id), OwnDevice(id));
  }
}
