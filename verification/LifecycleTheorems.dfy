/** What the lifecycle guarantees over whole runs. */
module LifecycleTheorems {
  import opened Text
  import opened Naming
  import opened Host
  import opened Lifecycle
  import opened Isolation
  import opened OwnShare
  import opened LifecycleProofs

  lemma XrayTells(m: Host, id: nat, a: WgAddr)
    ensures Installed(m, id, a) ==> Xray(id) in m.res
    ensures Absent(m, id) ==> Xray(id) !in m.res
  {
    hide TunName, ChainName, ChainBuilt;
    if Absent(m, id) {
      assert forall r :: r in m.res ==> r == OwnRule(id) || r in m.res - {OwnRule(id)};
    }
    if Installed(m, id, a) {
      assert Xray(id) in m.res - {OwnRule(id)};
    }
  }

  /** In the RunSet exactly when device, route, xray, reachable chain, forward and NAT rules are all
      in place; otherwise none of them is. */
  lemma RunningIffInstalled(w: World, id: nat)
    requires Inv(w) && id in w.rows
    ensures var m := Keep(w.host, Mine(id));
      && (id in w.running <==> w.rows[id].address.Some? && Installed(m, id, w.rows[id].address.value))
      && (id !in w.running <==> Absent(m, id))
      && (id in w.running ==> w.rows[id].status == Running)
  {
    assert GoodAt(w, id, true);
    hide Installed, Absent, Keep, OwnNames;
    var m := Keep(w.host, Mine(id));
    if w.rows[id].address.Some? { XrayTells(m, id, w.rows[id].address.value); }
  }

  /** The same after every sequential run of Start, Stop and PUT, whatever setup calls failed. */
  lemma RunKeepsRunningIffInstalled(w: World, ops: seq<Op>, id: nat)
    requires Inv(w) && AllAllowed(w, ops) && id in Run(w, ops).rows
    ensures var v := Run(w, ops); var m := Keep(v.host, Mine(id));
      && (id in v.running <==> v.rows[id].address.Some? && Installed(m, id, v.rows[id].address.value))
      && (id !in v.running <==> Absent(m, id))
      && (id in v.running ==> v.rows[id].status == Running)
  {
    RunInv(w, ops);
    hide Inv, Run, AllAllowed, Installed, Absent, Keep;
    RunningIffInstalled(Run(w, ops), id);
  }

  /** A Start that fails at any stage leaves nothing of the tunnel but possibly an unreachable chain
      and an ip rule, and everything else as it was. */
  lemma FailedStart(w: World, id: nat, e: StartEnv)
    requires Inv(w) && id in w.rows && !Start(w, id, e).ok
    ensures var v := Start(w, id, e).world;
      && id !in v.running && Absent(Keep(v.host, Mine(id)), id)
      && KeepWorld(v, NotMine(id)) == KeepWorld(w, NotMine(id))
  {
    var op := StartOp(id, e);
    FailedStartUnmarks(w, id, e);
    DoKeep(w, op, NotMine(id));
    DoInv(w, op);
    assert Do(w, op) == Start(w, id, e).world;
    hide Inv, Start, Keep, Absent, Installed, KeepWorld, Do;
    RunningIffInstalled(Do(w, op), id);
  }

  lemma FailedStartUnmarks(w: World, id: nat, e: StartEnv)
    requires Inv(w) && id in w.rows && !Start(w, id, e).ok
    ensures id !in Start(w, id, e).world.running && id in Start(w, id, e).world.rows
    ensures OwnNames(w)
  {
    hide StartWg, GoodAt;
  }

  lemma ItemsInShare(h: Host, id: nat)
    ensures OwnRule(id) in Keep(h, Mine(id)).res <==> OwnRule(id) in h.res
    ensures ChainName(id) in Keep(h, Mine(id)).chains <==> ChainName(id) in h.chains
  {
  }

  /** Stop removes all of the tunnel, residues of failed starts and of dead processes included, and
      nothing else. */
  lemma StopClears(w: World, id: nat, saved: Saved)
    requires Rec(w) && id in w.rows
    ensures var v := Stop(w, id, true, saved);
      && id !in v.running && Absent(Keep(v.host, Mine(id)), id)
      && OwnRule(id) !in v.host.res && ChainName(id) !in v.host.chains
      && KeepWorld(v, NotMine(id)) == KeepWorld(w, NotMine(id))
  {
    var op := StopOp(id, true, saved);
    DoKeep(w, op, NotMine(id));
    DoKeep(w, op, Mine(id));
    var v := KeepWorld(w, Mine(id));
    assert GoodAt(w, id, false) && v.rows[id] == w.rows[id] && OwnName(w.rows[id], id);
    hide Rec, TearDown, Keep, Absent, Installed, Leftover, KeepWorld, Stop, TunName, ChainName;
    StopOnShare(v.host, id, v.rows[id].address);
    ItemsInShare(Do(w, op).host, id);
    StopHost(w, id, saved);
    StopHost(v, id, saved);
    KeptHost(Do(w, op), Mine(id));
  }

  lemma KeptHost(w: World, s: Sel)
    ensures KeepWorld(w, s).host == Keep(w.host, s)
  {
  }

  lemma StopHost(w: World, id: nat, saved: Saved)
    requires id in w.rows && OwnName(w.rows[id], id)
    ensures Stop(w, id, true, saved).host == TearDown(w.host, id, TunName(id),
      if w.rows[id].address.Some? then Some(w.rows[id].address.value.subnet) else None)
    ensures id !in Stop(w, id, true, saved).running
  {
  }

  // ----- non-interference of runs -----

  function OthersOnly(ops: seq<Op>, i: nat): seq<Op> {
    if ops == [] then []
    else if ops[0].id == i then OthersOnly(ops[1..], i)
    else [ops[0]] + OthersOnly(ops[1..], i)
  }

  /** Take one tunnel out of the initial world and out of the run: what is left of the world at the
      end is the same. */
  lemma {:induction false} RunWithout(w: World, ops: seq<Op>, i: nat)
    requires Inv(w) && AllAllowed(w, ops)
    ensures KeepWorld(Run(w, ops), NotMine(i)) == Run(KeepWorld(w, NotMine(i)), OthersOnly(ops, i))
    decreases |ops|
  {
    if ops != [] {
      DoInv(w, ops[0]);
      DoKeep(w, ops[0], NotMine(i));
      RunWithout(Do(w, ops[0]), ops[1..], i);
      hide KeepWorld, Do, Inv, Allowed;
      if ops[0].id != i {
        assert OthersOnly(ops, i)[1..] == OthersOnly(ops[1..], i);
      }
    }
  }

  /** Once a tunnel is stopped, every rule list is what the run without that tunnel would have made
      it, however its starts and stops interleaved with those of others. */
  lemma StoppedLeavesNoTrace(w: World, ops: seq<Op>, i: nat, saved: Saved, t: Table)
    requires Inv(w) && AllAllowed(w, ops) && i in Run(w, ops).rows
    ensures var v := Stop(Run(w, ops), i, true, saved);
      var without := Run(KeepWorld(w, NotMine(i)), OthersOnly(ops, i));
      && KeepWorld(v, NotMine(i)) == without
      && (t in v.host.rules ==>
           t in without.host.rules && Filter(v.host.rules[t], (r: Rule) => !r.LegacyIcmp?) == without.host.rules[t])
      && (t in v.host.rules && (forall r :: r in v.host.rules[t] ==> !r.LegacyIcmp?) ==>
           t in without.host.rules && v.host.rules[t] == without.host.rules[t])
  {
    RunInv(w, ops);
    RunWithout(w, ops, i);
    InvIsRec(Run(w, ops));
    hide Run, Inv, Rec, AllAllowed;
    StopClears(Run(w, ops), i, saved);
    hide Stop;
    var v := Stop(Run(w, ops), i, true, saved);
    if t in v.host.rules {
      AbsentRules(v.host, i, t);
      NoLegacyIsRest(v.host, i, t);
      UpdateKeep(v.host, t, [], NotMine(i));
      KeptHost(v, NotMine(i));
    }
    if t in v.host.rules && (forall r :: r in v.host.rules[t] ==> !r.LegacyIcmp?) {
      AbsentRules(v.host, i, t);
      RulesAreRest(v.host, i, t);
      UpdateKeep(v.host, t, [], NotMine(i));
      assert KeepWorld(v, NotMine(i)).host == Keep(v.host, NotMine(i));
    }
    hide KeepWorld, Keep, Filter, RuleFn;
  }

  lemma NoLegacyIsRest(h: Host, id: nat, t: Table)
    requires t in h.rules && Filter(h.rules[t], RuleFn(Mine(id))) == []
    ensures Filter(h.rules[t], (r: Rule) => !r.LegacyIcmp?) == Filter(h.rules[t], RuleFn(NotMine(id)))
  {
    hide RuleOf;
    forall r | r in h.rules[t]
      ensures !r.LegacyIcmp? <==> RuleFn(NotMine(id))(r)
    {
      assert !RuleFn(Mine(id))(r);
    }
    FilterSame(h.rules[t], (r: Rule) => !r.LegacyIcmp?, RuleFn(NotMine(id)));
  }

  lemma AbsentRules(h: Host, id: nat, t: Table)
    requires Absent(Keep(h, Mine(id)), id) && t in h.rules
    ensures Filter(h.rules[t], RuleFn(Mine(id))) == []
  {
  }
}
