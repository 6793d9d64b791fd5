/** Runs in which processes may die: what they leave, how a later Start recovers, and which chain a
    packet meets. */
module Recovery {
  import opened Text
  import opened Naming
  import opened Tproxy
  import opened Host
  import opened Lifecycle
  import opened Isolation
  import opened OwnShare
  import opened StartGuard
  import opened LifecycleProofs

  /** An operation, or the death of the process without ShutdownAll. */
  datatype Event = Act(op: Op) | Crash

  function Happen(w: World, ev: Event): World {
    match ev
    case Act(op) => Do(w, op)
    case Crash => NewProcess(w)
  }

  function Live(w: World, evs: seq<Event>): World
    decreases |evs|
  {
    if evs == [] then w else Live(Happen(w, evs[0]), evs[1..])
  }

  predicate AllowedEvent(w: World, ev: Event) {
    ev.Act? ==> Allowed(w, ev.op)
  }

  predicate AllowedEvents(w: World, evs: seq<Event>)
    decreases |evs|
  {
    evs == [] || (AllowedEvent(w, evs[0]) && AllowedEvents(Happen(w, evs[0]), evs[1..]))
  }

  // ----- a process dies -----

  function Orphaned(p: Parts, id: nat): Parts {
    p.(res := p.res - {OwnDevice(id), Xray(id)})
  }

  /** Everything stays but the device and the xray instance. */
  lemma CrashShare(w: World, id: nat, p: Parts)
    requires Share(Keep(w.host, Mine(id)), id, p) && p.res <= All(id)
    ensures Share(Keep(NewProcess(w).host, Mine(id)), id, Orphaned(p, id))
    ensures Keep(NewProcess(w).host, Mine(id)).chains == Keep(w.host, Mine(id)).chains
  {
    hide Filter, SelRule, SelChain, TunName;
    var m, v := Keep(w.host, Mine(id)), Keep(NewProcess(w).host, Mine(id));
    assert forall r :: r in p.res <==> r in m.res && r != OwnRule(id);
    assert v.res - {OwnRule(id)} == Orphaned(p, id).res;
  }

  lemma CrashGood(w: World, id: nat)
    requires id in w.rows && GoodAt(w, id, false)
    ensures GoodAt(NewProcess(w), id, false)
  {
    var sub, m := SubnetOf(w.rows[id]), Keep(w.host, Mine(id));
    GoodIsLegit(w, id);
    hide Keep, Share, TunName, Placed, OwnJump, Installed;
    var p :| Legit(id, p, sub) && Share(m, id, p);
    CrashShare(w, id, p);
    assert Legit(id, Orphaned(p, id), sub) && Orphaned(p, id).res <= {OwnRoute(id)};
    assert Leftover(Keep(NewProcess(w).host, Mine(id)), id, sub);
  }

  /** Up or not, a tunnel has each item at most once. */
  lemma GoodIsLegit(w: World, id: nat)
    requires id in w.rows && GoodAt(w, id, false)
    ensures exists p :: Legit(id, p, SubnetOf(w.rows[id])) && Share(Keep(w.host, Mine(id)), id, p)
  {
    hide Keep, Share, Legit, Installed;
    if id in w.running { InstalledIsLegit(Keep(w.host, Mine(id)), id, w.rows[id].address.value); }
  }

  lemma CrashRec(w: World)
    requires Rec(w)
    ensures Rec(NewProcess(w))
  {
    hide GoodAt;
    forall id | id in w.rows
      ensures GoodAt(NewProcess(w), id, false)
    {
      CrashGood(w, id);
    }
  }

  lemma HappenRec(w: World, ev: Event)
    requires Rec(w) && AllowedEvent(w, ev)
    ensures Rec(Happen(w, ev))
  {
    hide Holds, Allowed, Do, NewProcess;
    match ev {
      case Act(op) => DoHolds(w, op, false);
      case Crash => CrashRec(w);
    }
  }

  /** Through operations and crashes in any order, a tunnel is up and wholly installed, or has no
      device, no xray and nothing twice. */
  lemma {:induction false} LiveRec(w: World, evs: seq<Event>)
    requires Rec(w) && AllowedEvents(w, evs)
    ensures Rec(Live(w, evs))
    decreases |evs|
  {
    hide Rec, Happen, AllowedEvent;
    if evs != [] {
      HappenRec(w, evs[0]);
      LiveRec(Happen(w, evs[0]), evs[1..]);
    }
  }

  // ----- recovery -----

  lemma DeadFacts(w: World)
    ensures NewProcess(w).rows == w.rows && NewProcess(w).running == {}
  {
    hide Keep;
  }

  /** The share a dead process left of a running tunnel: all of it but the device and the xray instance. */
  ghost predicate Dead(m: Host, id: nat, a: WgAddr, p: Parts) {
    Complete(id, p, a) && Share(m, id, Orphaned(p, id)) && ChainName(id) in m.chains
  }

  lemma CrashLeaves(w: World, id: nat, a: WgAddr)
    requires Rec(w) && id in w.running && id in w.rows && w.rows[id].address == Some(a)
    ensures exists p :: Dead(Keep(NewProcess(w).host, Mine(id)), id, a, p)
  {
    assert GoodAt(w, id, false);
    hide Keep, Share, TunName, Placed, OwnJump, Rec, NewProcess, ChainName, BuildChain;
    var p :| Complete(id, p, a) && Share(Keep(w.host, Mine(id)), id, p);
    CrashShare(w, id, p);
    assert Dead(Keep(NewProcess(w).host, Mine(id)), id, a, p);
  }

  /** After the process of a running tunnel died, a Start succeeds exactly when its calls work, and
      then has everything installed again, each item once. */
  lemma StartRecovers(w: World, id: nat, e: StartEnv)
    requires Rec(w) && id in w.running && id in w.rows && w.rows[id].address.Some?
    ensures var dead := NewProcess(w); var s := Start(dead, id, e);
      && (s.ok <==> CanStart(dead, id, e)) && Rec(s.world)
      && (s.ok ==> Installed(Keep(s.world.host, Mine(id)), id, w.rows[id].address.value))
  {
    hide Rec, CanStart, Keep, Installed, Start, NewProcess;
    var dead := NewProcess(w);
    DeadFacts(w);
    CrashRec(w);
    StartsIff(dead, id, e);
    StartRec(dead, id, e);
    if CanStart(dead, id, e) { StartedIsGood(dead, id, e); }
  }

  lemma StartRec(w: World, id: nat, e: StartEnv)
    requires Rec(w)
    ensures Rec(Start(w, id, e).world)
  {
    hide Holds, Start;
    DoHolds(w, StartOp(id, e), false);
  }

  lemma StartedIsGood(w: World, id: nat, e: StartEnv)
    requires Rec(Start(w, id, e).world) && id in w.rows && w.rows[id].address.Some?
      && id in Start(w, id, e).world.running
    ensures Installed(Keep(Start(w, id, e).world.host, Mine(id)), id, w.rows[id].address.value)
  {
    hide Installed, StartWg, TunName, Keep;
    assert GoodAt(Start(w, id, e).world, id, false);
  }

  /** A recovery that fails leaves the old jump exactly when it fails before the chain is relinked:
      with the device, the address, the route, xray or iptables. */
  lemma FailedRecoveryLeavesJump(w: World, id: nat, e: StartEnv)
    requires Rec(w) && id in w.running && id in w.rows && w.rows[id].address.Some?
    requires !Start(NewProcess(w), id, e).ok
    ensures var m := Keep(Start(NewProcess(w), id, e).world.host, Mine(id)); JumpLeft(m, id, !GetsToJump(e))
  {
    hide Keep, TunName, ChainName, Rec, Start, NewProcess, Dead, JumpLeft, GetsToJump;
    var dead, a := NewProcess(w), w.rows[id].address.value;
    DeadFacts(w);
    CrashLeaves(w, id, a);
    var p :| Dead(Keep(dead.host, Mine(id)), id, a, p);
    FailedJump(dead, id, a, e, p);
  }

  /** The calls up to the one that unlinks the chain. */
  predicate GetsToJump(e: StartEnv) {
    e.ready && e.wg && e.assign && e.route && e.xray && e.mangleInit
  }

  /** No xray instance, and whether PREROUTING still jumps to the tunnel's chain. */
  ghost predicate JumpLeft(m: Host, id: nat, left: bool) {
    Prerouting in m.rules && Xray(id) !in m.res && (OwnJump(id) in m.rules[Prerouting] <==> left)
  }

  lemma FailedJump(w: World, id: nat, a: WgAddr, e: StartEnv, p: Parts)
    requires id in w.rows && w.rows[id].address == Some(a) && id !in w.running && !Start(w, id, e).ok
    requires Dead(Keep(w.host, Mine(id)), id, a, p)
    ensures JumpLeft(Keep(Start(w, id, e).world.host, Mine(id)), id, !GetsToJump(e))
  {
    hide Keep, StartWg, Dead, JumpLeft, TunName;
    var m, mss := Keep(w.host, Mine(id)), w.rows[id].mssClamp;
    StartWgKeep(w.host, id, a, mss, e, Mine(id));
    if e.ready {
      FailedOnDead(m, id, a, mss, e, p);
    } else {
      DeadJump(m, id, a, p);
    }
  }

  lemma DeadJump(m: Host, id: nat, a: WgAddr, p: Parts)
    requires Dead(m, id, a, p)
    ensures JumpLeft(m, id, true)
  {
    hide TunName, ChainName, Placed;
    assert Xray(id) in m.res ==> Xray(id) in Orphaned(p, id).res;
  }

  lemma FailedOnDead(m: Host, id: nat, a: WgAddr, mss: int, e: StartEnv, p: Parts)
    requires Dead(m, id, a, p) && !StartWg(m, id, a, mss, e).end.Up?
    ensures JumpLeft(StartWg(m, id, a, mss, e).host, id, !ReachesJump(m, id, e))
    ensures ReachesJump(m, id, e) <==> e.wg && e.assign && e.route && e.xray && e.mangleInit
  {
    hide StartWg, TunName, ChainName, Placed, ChainIs;
    var o := Orphaned(p, id);
    assert Legit(id, o, Some(a.subnet)) && o.res <= {OwnRoute(id)};
    StartOnShare(m, id, a, mss, e, o);
    var h := StartWg(m, id, a, mss, e).host;
    var q :| Less(q, o) && Share(h, id, q) && q.pre == if ReachesJump(m, id, e) then [] else o.pre;
    assert Xray(id) in h.res ==> Xray(id) in q.res;
  }
}
