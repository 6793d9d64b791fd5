/** Which chain a packet of a tunnel meets, over runs of operations and crashes. */
module ReachableChains {
  import opened Text
  import opened Naming
  import opened Tproxy
  import opened Host
  import opened Lifecycle
  import opened Isolation
  import opened OwnShare
  import opened StartGuard
  import opened LifecycleProofs
  import opened Recovery

  /** For every tunnel, the gateway, flow and clamp of its last successful Start. */
  datatype Setup = Setup(gateway: string, flow: string, mssClamp: int)
  type Record = map<nat, Setup>

  function Noted(s: Record, w: World, ev: Event): Record {
    if ev.Act? && ev.op.StartOp? && ev.op.id !in w.running && CanStart(w, ev.op.id, ev.op.env)
    then
      var id := ev.op.id;
      s[id := Setup(w.rows[id].address.value.gateway, ev.op.env.flow, w.rows[id].mssClamp)]
    else s
  }

  function LastStarts(s: Record, w: World, evs: seq<Event>): Record
    decreases |evs|
  {
    if evs == [] then s else LastStarts(Noted(s, w, evs[0]), Happen(w, evs[0]), evs[1..])
  }

  ghost predicate Jumps(m: Host, id: nat) {
    Prerouting in m.rules && OwnJump(id) in m.rules[Prerouting]
  }

  /** Where PREROUTING jumps to is the chain its last successful Start built. */
  ghost predicate AsStartedAt(m: Host, s: Record, id: nat) {
    Jumps(m, id) ==>
      id in s && ChainIs(m, id, ChainCfg(s[id].gateway, s[id].flow, s[id].mssClamp, XrayPort(id), Fwmark(id)))
  }

  ghost predicate AsStarted(w: World, s: Record) {
    forall id :: id in w.rows ==> AsStartedAt(Keep(w.host, Mine(id)), s, id)
  }

  // ----- one operation on its own share -----

  lemma StartAsStarted(m: Host, s: Record, id: nat, a: WgAddr, mss: int, e: StartEnv)
    requires AsStartedAt(m, s, id) && Leftover(m, id, Some(a.subnet))
    ensures var b := StartWg(m, id, a, mss, e);
      AsStartedAt(b.host, if b.end.Up? then s[id := Setup(a.gateway, e.flow, mss)] else s, id)
  {
    hide StartWg, TunName, ChainName, BuildChain, Placed;
    var p :| Legit(id, p, Some(a.subnet)) && p.res <= {OwnRoute(id)} && Share(m, id, p);
    StartOnShare(m, id, a, mss, e, p);
    var b := StartWg(m, id, a, mss, e);
    if !b.end.Up? {
      var q :| Less(q, p) && Share(b.host, id, q) && q.pre == (if ReachesJump(m, id, e) then [] else p.pre)
        && (!ReachesJump(m, id, e) ==> b.host.chains == m.chains);
    }
  }

  lemma AbsentAsStarted(m: Host, s: Record, id: nat)
    requires Absent(m, id)
    ensures AsStartedAt(m, s, id)
  {
    hide TunName, ChainName;
  }

  lemma OwnAsStarted(v: World, s: Record, op: Op)
    requires op.id in v.rows && OwnName(v.rows[op.id], op.id) && Good(v, op.id, false) && AsStartedAt(v.host, s, op.id)
    ensures AsStartedAt(Do(v, op).host, Noted(s, v, Act(op)), op.id)
  {
    hide StartWg, TearDown, TunName, AsStartedAt, SetupsWork, Installed, Leftover, Absent;
    var id := op.id;
    match op {
      case StartOp(_, e) =>
        if id !in v.running && e.ready && v.rows[id].address.Some? {
          var row := v.rows[id];
          StartAsStarted(v.host, s, id, row.address.value, row.mssClamp, e);
        }
      case StopOp(_, found, saved) =>
        if found {
          StopOnShare(v.host, id, v.rows[id].address);
          AbsentAsStarted(Do(v, op).host, s, id);
        }
      case PutOp(_, row) =>
    }
  }

  // ----- every event -----

  lemma NotedInShare(w: World, s: Record, op: Op)
    ensures Noted(s, KeepWorld(w, Mine(op.id)), Act(op)) == Noted(s, w, Act(op))
  {
    hide Keep, CanStart;
    if op.StartOp? {
      CanStartInShare(w, op.id, op.env);
      CanStartHasRow(w, op.id, op.env);
    }
    assert op.id in w.rows ==> KeepWorld(w, Mine(op.id)).rows[op.id] == w.rows[op.id];
  }

  lemma CanStartHasRow(w: World, id: nat, e: StartEnv)
    ensures CanStart(w, id, e) ==> id in w.rows && w.rows[id].address.Some?
  {
    hide SetupsWork;
  }

  lemma NotedOthers(w: World, s: Record, ev: Event, m: Host, id: nat)
    requires AsStartedAt(m, s, id) && (ev.Act? ==> ev.op.id != id)
    ensures AsStartedAt(m, Noted(s, w, ev), id)
  {
    hide CanStart, Jumps, ChainIs;
    if ev.Act? && ev.op.StartOp? { CanStartHasRow(w, ev.op.id, ev.op.env); }
  }

  lemma ActAsStarted(w: World, s: Record, op: Op, id: nat)
    requires OwnNames(w) && id in w.rows && GoodAt(w, id, false) && AsStartedAt(Keep(w.host, Mine(id)), s, id)
    ensures AsStartedAt(Keep(Do(w, op).host, Mine(id)), Noted(s, w, Act(op)), id)
  {
    hide Keep, AsStartedAt, Noted, Do, Good;
    var v := KeepWorld(w, Mine(id));
    DoKeep(w, op, Mine(id));
    assert KeepWorld(Do(w, op), Mine(id)).host == Keep(Do(w, op).host, Mine(id));
    if id == op.id {
      assert OwnName(v.rows[id], id);
      OwnAsStarted(v, s, op);
      NotedInShare(w, s, op);
    } else {
      NotedOthers(w, s, Act(op), v.host, id);
    }
  }

  lemma CrashAsStarted(w: World, s: Record, id: nat)
    requires AsStartedAt(Keep(w.host, Mine(id)), s, id)
    ensures AsStartedAt(Keep(NewProcess(w).host, Mine(id)), s, id)
  {
    hide Filter, SelRule, SelChain, SelRes, TunName, BuildChain;
    assert Keep(NewProcess(w).host, Mine(id)).rules == Keep(w.host, Mine(id)).rules;
    assert Keep(NewProcess(w).host, Mine(id)).chains == Keep(w.host, Mine(id)).chains;
  }

  lemma SameTunnels(w: World, ev: Event)
    requires Rec(w) && AllowedEvent(w, ev)
    ensures Happen(w, ev).rows.Keys == w.rows.Keys
  {
    hide Do, Allowed, GoodAt, OwnNames;
    if ev.Act? { DoOwnNames(w, ev.op); }
  }

  lemma HappenAsStarted(w: World, s: Record, ev: Event)
    requires Rec(w) && AllowedEvent(w, ev) && AsStarted(w, s)
    ensures AsStarted(Happen(w, ev), Noted(s, w, ev))
  {
    hide AsStartedAt, Do, Noted, OwnNames, GoodAt, NewProcess, Keep;
    SameTunnels(w, ev);
    forall id | id in Happen(w, ev).rows
      ensures AsStartedAt(Keep(Happen(w, ev).host, Mine(id)), Noted(s, w, ev), id)
    {
      assert id in w.rows.Keys;
      if ev.Act? {
        ActAsStarted(w, s, ev.op, id);
      } else {
        CrashAsStarted(w, s, id);
        NotedOthers(w, s, ev, Keep(NewProcess(w).host, Mine(id)), id);
      }
    }
  }

  lemma {:induction false} LiveAsStarted(w: World, s: Record, evs: seq<Event>)
    requires Rec(w) && AllowedEvents(w, evs) && AsStarted(w, s)
    ensures Rec(Live(w, evs)) && AsStarted(Live(w, evs), LastStarts(s, w, evs))
    decreases |evs|
  {
    hide Rec, Happen, AllowedEvent, AsStarted, Noted;
    if evs != [] {
      HappenRec(w, evs[0]);
      HappenAsStarted(w, s, evs[0]);
      LiveAsStarted(Happen(w, evs[0]), Noted(s, w, evs[0]), evs[1..]);
    }
  }

  /** A world with nothing running needs no record to start from. */
  lemma NothingStarted(w: World)
    requires Inv(w) && w.running == {}
    ensures Rec(w) && AsStarted(w, map[]) && Current(w, map[])
  {
    InvIsRec(w);
    hide Rec, Absent, Installed, Keep, AsStartedAt;
    forall id | id in w.rows
      ensures AsStartedAt(Keep(w.host, Mine(id)), map[], id)
    {
      assert GoodAt(w, id, true);
      AbsentAsStarted(Keep(w.host, Mine(id)), map[], id);
    }
  }

  // ----- what packets meet -----

  lemma JumpInShare(h: Host, id: nat)
    requires Prerouting in h.rules && OwnJump(id) in h.rules[Prerouting]
    ensures Jumps(Keep(h, Mine(id)), id)
  {
    KeptRule(h, Mine(id), Prerouting, OwnJump(id));
    hide Keep;
  }

  lemma ChainInHost(h: Host, id: nat, cfg: ChainCfg)
    requires ChainIs(Keep(h, Mine(id)), id, cfg)
    ensures ChainIs(h, id, cfg)
  {
    hide Filter, SelRule, SelRes, BuildChain, ChainName;
  }

  /** After any run of operations and crashes, a chain PREROUTING jumps to is completely built and
      treats every packet as the decision table says for the gateway, flow and clamp of the
      tunnel's last successful Start: a chain whose construction failed is never reachable. */
  lemma ReachableChainDecides(w: World, s: Record, evs: seq<Event>, id: nat)
    requires Rec(w) && AllowedEvents(w, evs) && AsStarted(w, s)
    requires var v := Live(w, evs);
      id in v.rows && Prerouting in v.host.rules && OwnJump(id) in v.host.rules[Prerouting]
    ensures var v, t := Live(w, evs), LastStarts(s, w, evs);
      && id in t && ChainName(id) in v.host.chains
      && forall p :: Eval(v.host.chains[ChainName(id)], p, None)
           == Decide(ChainCfg(t[id].gateway, t[id].flow, t[id].mssClamp, 13000 + id, 0x1000 + id), p)
  {
    hide Rec, Live, LastStarts, AllowedEvents, Jumps, Keep, BuildChain, Eval, Decide;
    LiveAsStarted(w, s, evs);
    var v, t := Live(w, evs), LastStarts(s, w, evs);
    JumpInShare(v.host, id);
    assert AsStartedAt(Keep(v.host, Mine(id)), t, id);
    var c := ChainCfg(t[id].gateway, t[id].flow, t[id].mssClamp, 13000 + id, 0x1000 + id);
    ChainInHost(v.host, id, c);
    forall p
      ensures Eval(v.host.chains[ChainName(id)], p, None) == Decide(c, p)
    {
      ChainDecides(c, p);
    }
  }

  // ----- running tunnels -----

  /** The record of a running tunnel carries the gateway its row still has. */
  predicate Current(w: World, s: Record) {
    forall id :: id in w.running ==>
      && id in w.rows && w.rows[id].address.Some? && id in s
      && s[id].gateway == w.rows[id].address.value.gateway
  }

  lemma RunningRules(w: World, id: nat)
    requires Rec(w) && id in w.running
    ensures Masqueraded(w.host, id)
    ensures Prerouting in w.host.rules && OwnJump(id) in w.host.rules[Prerouting]
  {
    hide Keep, SelRule, TunName, ChainName, ChainBuilt, Placed, All;
    assert GoodAt(w, id, false);
    var m := Keep(w.host, Mine(id));
    var a := w.rows[id].address.value;
    var p :| Complete(id, p, a) && Share(m, id, p);
    KeptRule(w.host, Mine(id), Postrouting, Masquerade(TunName(id), a.subnet));
    KeptRule(w.host, Mine(id), Prerouting, OwnJump(id));
  }

  lemma StartCurrent(w: World, s: Record, id: nat, e: StartEnv)
    requires Current(w, s)
    ensures Current(Start(w, id, e).world, Noted(s, w, Act(StartOp(id, e))))
  {
    hide StartWg, SetupsWork, TunName;
    StartsIff(w, id, e);
  }

  lemma StopCurrent(w: World, s: Record, id: nat, found: bool, saved: Saved)
    requires Current(w, s)
    ensures Current(Stop(w, id, found, saved), s)
  {
    hide TearDown, TunName;
  }

  lemma HappenCurrent(w: World, s: Record, ev: Event)
    requires Rec(w) && AllowedEvent(w, ev) && Current(w, s)
    ensures Current(Happen(w, ev), Noted(s, w, ev))
  {
    hide Rec, Start, Stop, Masqueraded, TunName, CanStart;
    match ev {
      case Act(StartOp(id, e)) => StartCurrent(w, s, id, e);
      case Act(StopOp(id, found, saved)) => StopCurrent(w, s, id, found, saved);
      case Act(PutOp(id, _)) => if id in w.running { RunningRules(w, id); }
      case Crash =>
    }
  }

  lemma {:induction false} LiveCurrent(w: World, s: Record, evs: seq<Event>)
    requires Rec(w) && AllowedEvents(w, evs) && Current(w, s)
    ensures Rec(Live(w, evs)) && Current(Live(w, evs), LastStarts(s, w, evs))
    decreases |evs|
  {
    hide Rec, Happen, AllowedEvent, Current, Noted;
    if evs != [] {
      HappenRec(w, evs[0]);
      HappenCurrent(w, s, evs[0]);
      LiveCurrent(Happen(w, evs[0]), Noted(s, w, evs[0]), evs[1..]);
    }
  }

  /** After any run of operations and crashes, the packets of a running tunnel are treated as the
      decision table says for its own gateway and the flow and clamp it was last started with. */
  lemma RunningChainDecides(w: World, s: Record, evs: seq<Event>, id: nat)
    requires Rec(w) && AllowedEvents(w, evs) && AsStarted(w, s) && Current(w, s)
    requires id in Live(w, evs).running
    ensures var v, t := Live(w, evs), LastStarts(s, w, evs);
      && id in v.rows && v.rows[id].address.Some? && id in t
      && t[id].gateway == v.rows[id].address.value.gateway
      && Prerouting in v.host.rules && OwnJump(id) in v.host.rules[Prerouting] && ChainName(id) in v.host.chains
      && forall p :: Eval(v.host.chains[ChainName(id)], p, None)
           == Decide(ChainCfg(t[id].gateway, t[id].flow, t[id].mssClamp, 13000 + id, 0x1000 + id), p)
  {
    hide Rec, Live, LastStarts, AllowedEvents, AsStarted, Eval, Decide, TunName, ChainName;
    LiveCurrent(w, s, evs);
    RunningRules(Live(w, evs), id);
    ReachableChainDecides(w, s, evs, id);
  }

  /** A Start that succeeds: from now on the chain treats every packet as the decision table says for
      the address in the row, the flow of the first node, and the clamp in the row. */
  lemma StartDecides(w: World, id: nat, e: StartEnv, p: Packet)
    requires Rec(w) && id !in w.running && CanStart(w, id, e)
    ensures var h := Start(w, id, e).world.host; var row := w.rows[id];
      && Prerouting in h.rules && OwnJump(id) in h.rules[Prerouting] && ChainName(id) in h.chains
      && Eval(h.chains[ChainName(id)], p, None)
           == Decide(ChainCfg(row.address.value.gateway, e.flow, row.mssClamp, 13000 + id, 0x1000 + id), p)
  {
    hide Rec, Start, CanStart, Keep, AsStartedAt, Eval, Decide, ChainIs, TunName, ChainName;
    CanStartHasRow(w, id, e);
    StartsIff(w, id, e);
    StartRec(w, id, e);
    var v := Start(w, id, e).world;
    RunningRules(v, id);
    OwnChain(w, id, e);
    var row := w.rows[id];
    ChainDecidesAt(v.host, id, ChainCfg(row.address.value.gateway, e.flow, row.mssClamp, 13000 + id, 0x1000 + id), p);
  }

  lemma ChainDecidesAt(h: Host, id: nat, c: ChainCfg, p: Packet)
    requires ChainIs(h, id, c)
    ensures ChainName(id) in h.chains && Eval(h.chains[ChainName(id)], p, None) == Decide(c, p)
  {
    hide Eval, Decide, BuildChain, ChainName;
    ChainDecides(c, p);
  }

  lemma OwnChain(w: World, id: nat, e: StartEnv)
    requires Rec(w) && id !in w.running && CanStart(w, id, e)
    ensures var row := w.rows[id];
      ChainIs(Start(w, id, e).world.host, id,
              ChainCfg(row.address.value.gateway, e.flow, row.mssClamp, 13000 + id, 0x1000 + id))
  {
    hide StartWg, SetupsWork, TunName, ChainName, Keep, ChainIs, Share;
    var row, a := w.rows[id], w.rows[id].address.value;
    var c := ChainCfg(a.gateway, e.flow, row.mssClamp, 13000 + id, 0x1000 + id);
    assert GoodAt(w, id, false);
    StartWgKeep(w.host, id, a, row.mssClamp, e, Mine(id));
    var m := Keep(w.host, Mine(id));
    var p :| Legit(id, p, Some(a.subnet)) && p.res <= {OwnRoute(id)} && Share(m, id, p);
    StartOnShare(m, id, a, row.mssClamp, e, p);
    ChainInHost(Start(w, id, e).world.host, id, c);
  }

  /** In particular UDP to port 443, the gateway's DNS aside, is dropped exactly for Vision flows
      without UDP/443, and otherwise handed to the tunnel's xray. */
  lemma QuicOfStarted(w: World, id: nat, e: StartEnv, p: Packet)
    requires Rec(w) && id !in w.running && CanStart(w, id, e) && p.proto == Udp && p.dport == 443
    ensures var h := Start(w, id, e).world.host;
      && ChainName(id) in h.chains
      && Eval(h.chains[ChainName(id)], p, None).action
           == if VisionWithoutUdp443(e.flow) then Dropped else Proxied(13000 + id, 0x1000 + id)
  {
    hide Rec, Start, CanStart, Eval, VisionWithoutUdp443, Trim, TunName, ChainName;
    StartDecides(w, id, e, p);
  }

  /** While processes shut down in order, only running tunnels are jumped to. */
  lemma OnlyRunningJump(w: World, id: nat)
    requires Inv(w) && id in w.rows
    ensures Prerouting in w.host.rules && OwnJump(id) in w.host.rules[Prerouting] <==> id in w.running
  {
    if id in w.running {
      InvIsRec(w);
      RunningRules(w, id);
    } else {
      assert GoodAt(w, id, true);
      if Prerouting in w.host.rules && OwnJump(id) in w.host.rules[Prerouting] { JumpInShare(w.host, id); }
    }
  }
}
