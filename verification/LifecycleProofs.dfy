/** The invariants of every sequential run, and what follows from them. */
module LifecycleProofs {
  import opened Text
  import opened Naming
  import opened Tproxy
  import opened Host
  import opened Lifecycle
  import opened Isolation
  import opened OwnShare

  /** What a dead process or a failed recovery leaves: no device, no xray, no item twice. */
  ghost predicate Leftover(m: Host, id: nat, sub: Option<string>) {
    exists p :: Legit(id, p, sub) && p.res <= {OwnRoute(id)} && Share(m, id, p)
  }

  // ----- one operation on its own share -----

  lemma AbsentIsLeftover(m: Host, id: nat, sub: Option<string>)
    requires Absent(m, id)
    ensures Leftover(m, id, sub)
  {
    assert Legit(id, NOTHING, sub);
  }

  lemma EndsUp(b: Brought, id: nat, a: WgAddr, flow: string, mss: int, p: Parts,
               chains: map<string, seq<MangleRule>>, r: bool)
    requires Ends(b, id, a, ChainCfg(a.gateway, flow, mss, XrayPort(id), Fwmark(id)), p, chains, r) && b.end.Up?
    ensures Installed(b.host, id, a)
  {
    hide ChainIs, Complete, Share;
  }

  lemma FallenIsLeftover(h: Host, id: nat, p: Parts, sub: Option<string>, chains: map<string, seq<MangleRule>>, r: bool)
    requires Fallen(h, id, p, chains, r) && Legit(id, p, sub) && p.res <= {OwnRoute(id)}
    ensures Leftover(h, id, sub)
    ensures p == NOTHING ==> Absent(h, id)
  {
    hide Share, TunName, ChainName, Placed;
    var q :| Less(q, p) && Share(h, id, q);
    assert Legit(id, q, sub) && q.res <= {OwnRoute(id)};
    assert p == NOTHING ==> q == NOTHING;
  }

  /** On a share where the tunnel is absent, Start either installs all of it or leaves it absent. */
  lemma StartOnAbsent(m: Host, id: nat, a: WgAddr, mss: int, e: StartEnv)
    requires Absent(m, id)
    ensures var b := StartWg(m, id, a, mss, e);
      if b.end.Up? then Installed(b.host, id, a) else Absent(b.host, id)
  {
    StartOnShare(m, id, a, mss, e, NOTHING);
    hide StartWg, TunName, Share, Ends, Installed;
    var b := StartWg(m, id, a, mss, e);
    EndsOr(b, id, a, e.flow, mss, NOTHING, m.chains, ReachesJump(m, id, e));
  }

  lemma EndsOr(b: Brought, id: nat, a: WgAddr, flow: string, mss: int, p: Parts,
               chains: map<string, seq<MangleRule>>, r: bool)
    requires Ends(b, id, a, ChainCfg(a.gateway, flow, mss, XrayPort(id), Fwmark(id)), p, chains, r)
    requires Legit(id, p, Some(a.subnet)) && p.res <= {OwnRoute(id)}
    ensures if b.end.Up? then Installed(b.host, id, a) else Leftover(b.host, id, Some(a.subnet))
    ensures !b.end.Up? && p == NOTHING ==> Absent(b.host, id)
  {
    hide Fallen, ChainIs, Installed, Absent, Leftover, Legit, TunName;
    if b.end.Up? { EndsUp(b, id, a, flow, mss, p, chains, r); }
    else { FallenIsLeftover(b.host, id, p, Some(a.subnet), chains, r); }
  }

  /** On what a dead process left, Start installs all of it again, or only takes away. */
  lemma StartOnLeftover(m: Host, id: nat, a: WgAddr, mss: int, e: StartEnv)
    requires Leftover(m, id, Some(a.subnet))
    ensures var b := StartWg(m, id, a, mss, e);
      if b.end.Up? then Installed(b.host, id, a) else Leftover(b.host, id, Some(a.subnet))
  {
    hide StartWg, TunName, Share, Ends, Installed, Legit;
    var p :| Legit(id, p, Some(a.subnet)) && p.res <= {OwnRoute(id)} && Share(m, id, p);
    StartOnShare(m, id, a, mss, e, p);
    EndsOr(StartWg(m, id, a, mss, e), id, a, e.flow, mss, p, m.chains, ReachesJump(m, id, e));
  }

  lemma InstalledIsLegit(m: Host, id: nat, a: WgAddr)
    requires Installed(m, id, a)
    ensures exists p :: Legit(id, p, Some(a.subnet)) && Share(m, id, p)
  {
    var p :| Complete(id, p, a) && Share(m, id, p);
    assert Legit(id, p, Some(a.subnet));
  }

  lemma StopOnShare(m: Host, id: nat, a: Option<WgAddr>)
    requires Leftover(m, id, if a.Some? then Some(a.value.subnet) else None) || (a.Some? && Installed(m, id, a.value))
    ensures var t := TearDown(m, id, TunName(id), if a.Some? then Some(a.value.subnet) else None);
      Absent(t, id) && OwnRule(id) !in t.res && ChainName(id) !in t.chains
  {
    hide TunName, ChainName, TearDown, Legit, Share, Absent;
    var sub := if a.Some? then Some(a.value.subnet) else None;
    if a.Some? && Installed(m, id, a.value) { InstalledIsLegit(m, id, a.value); }
    var p :| Legit(id, p, sub) && Share(m, id, p);
    TearDownClears(m, id, p, sub);
  }

  // ----- the invariants -----

  /** One tunnel's share of the world: up, persisted as running and fully installed; or absent, or,
      if processes may die, at most left over. */
  ghost predicate Good(v: World, id: nat, clean: bool)
    requires id in v.rows
  {
    var row := v.rows[id];
    if id in v.running then row.status == Running && row.address.Some? && Installed(v.host, id, row.address.value)
    else if clean then Absent(v.host, id)
    else Leftover(v.host, id, SubnetOf(row))
  }

  ghost predicate GoodAt(w: World, id: nat, clean: bool) {
    id in KeepWorld(w, Mine(id)).rows && Good(KeepWorld(w, Mine(id)), id, clean)
  }

  ghost predicate Holds(w: World, clean: bool) {
    && OwnNames(w)
    && w.running <= w.rows.Keys
    && forall id {:trigger GoodAt(w, id, clean)} :: id in w.rows ==> GoodAt(w, id, clean)
  }

  /** As long as every process shuts down in order. */
  ghost predicate Inv(w: World) { Holds(w, true) }

  /** Whenever processes die. */
  ghost predicate Rec(w: World) { Holds(w, false) }

  lemma InvIsRec(w: World)
    requires Inv(w)
    ensures Rec(w)
  {
    hide Absent, Installed, Leftover, Keep;
    forall id | id in w.rows
      ensures GoodAt(w, id, false)
    {
      assert GoodAt(w, id, true);
      if id !in w.running { AbsentIsLeftover(Keep(w.host, Mine(id)), id, SubnetOf(w.rows[id])); }
    }
  }

  lemma PutOnShare(v: World, id: nat, row: Row, clean: bool)
    requires id in v.rows && Good(v, id, clean) && Allowed(v, PutOp(id, row))
    ensures Good(Put(v, id, row), id, clean)
  {
    hide ChainBuilt, TunName;
    if id in v.running {
      var p :| Complete(id, p, v.rows[id].address.value) && Share(v.host, id, p);
      assert Masquerade(TunName(id), v.rows[id].address.value.subnet) in v.host.rules[Postrouting];
    } else if !clean {
      var p :| Legit(id, p, SubnetOf(v.rows[id])) && p.res <= {OwnRoute(id)} && Share(v.host, id, p);
      if p.post != [] {
        assert Masquerade(TunName(id), SubnetOf(v.rows[id]).value) in v.host.rules[Postrouting];
      }
      assert Legit(id, p, SubnetOf(row));
    }
  }

  /** On its own share every operation keeps the tunnel whole, absent or left over. */
  lemma DoGood(v: World, op: Op, clean: bool)
    requires op.id in v.rows && OwnName(v.rows[op.id], op.id) && Good(v, op.id, clean) && Allowed(v, op)
    ensures op.id in Do(v, op).rows && Good(Do(v, op), op.id, clean)
  {
    hide Installed, Absent, Leftover, StartWg, TearDown, TunName, Allowed;
    var id := op.id;
    match op {
      case StartOp(_, e) =>
        if id !in v.running && v.rows[id].address.Some? {
          var row := v.rows[id];
          if clean { StartOnAbsent(v.host, id, row.address.value, row.mssClamp, e); }
          else { StartOnLeftover(v.host, id, row.address.value, row.mssClamp, e); }
        }
      case StopOp(_, found, saved) =>
        if clean && id !in v.running { AbsentIsLeftover(v.host, id, SubnetOf(v.rows[id])); }
        StopOnShare(v.host, id, v.rows[id].address);
        if found { AbsentIsLeftover(Do(v, op).host, id, SubnetOf(v.rows[id])); }
      case PutOp(_, row) => PutOnShare(v, id, row, clean);
    }
  }

  lemma DoOwnNames(w: World, op: Op)
    requires OwnNames(w) && Allowed(w, op) && w.running <= w.rows.Keys
    ensures OwnNames(Do(w, op)) && Do(w, op).running <= Do(w, op).rows.Keys && Do(w, op).rows.Keys == w.rows.Keys
  {
    hide TunName, StartWg, TearDown, Masqueraded;
  }

  /** What is allowed in the world is allowed in the share. */
  lemma AllowedInShare(w: World, op: Op)
    requires Allowed(w, op)
    ensures Allowed(KeepWorld(w, Mine(op.id)), op)
  {
    hide OwnName, TunName;
    var v := KeepWorld(w, Mine(op.id));
    if op.PutOp? && Masqueraded(v.host, op.id) {
      assert Masqueraded(w.host, op.id);
      assert op.id in v.rows ==> v.rows[op.id] == w.rows[op.id];
    }
  }

  lemma DoGoodAt(w: World, op: Op, id: nat, clean: bool)
    requires OwnNames(w) && Allowed(w, op) && id in w.rows
    requires GoodAt(w, id, clean)
    ensures GoodAt(Do(w, op), id, clean)
  {
    DoKeep(w, op, Mine(id));
    var v := KeepWorld(w, Mine(id));
    if id == op.id {
      assert OwnName(v.rows[id], id);
      AllowedInShare(w, op);
      DoGood(v, op, clean);
    }
    hide KeepWorld, OwnNames, Good, Do, TunName, Keep, Allowed;
  }

  lemma DoHolds(w: World, op: Op, clean: bool)
    requires Holds(w, clean) && Allowed(w, op)
    ensures Holds(Do(w, op), clean)
  {
    DoOwnNames(w, op);
    hide GoodAt, Do, OwnNames, Allowed;
    forall id | id in Do(w, op).rows
      ensures GoodAt(Do(w, op), id, clean)
    {
      assert id in w.rows.Keys;
      DoGoodAt(w, op, id, clean);
    }
  }

  /** Every Start (whatever fails in it), Stop and PUT keeps the invariant. */
  lemma DoInv(w: World, op: Op)
    requires Inv(w) && Allowed(w, op)
    ensures Inv(Do(w, op))
  {
    hide Holds, Do, Allowed;
    DoHolds(w, op, true);
  }

  lemma {:induction false} RunInv(w: World, ops: seq<Op>)
    requires Inv(w) && AllAllowed(w, ops)
    ensures Inv(Run(w, ops))
    decreases |ops|
  {
    if ops != [] {
      DoInv(w, ops[0]);
      RunInv(Do(w, ops[0]), ops[1..]);
    }
    hide Inv, Do, Allowed;
  }
}
