/** Starting and stopping tunnels: what each stage of the pipeline and each rollback does. */
module Lifecycle {
  import opened Text
  import opened Naming
  import opened Tproxy
  import opened Host

  datatype Status = Running | Stopped | Failed
  /** What net.ParseCIDR makes of a wg_address. */
  datatype WgAddr = WgAddr(gateway: string, subnet: string)
  datatype Row = Row(tunName: string, address: Option<WgAddr>, mssClamp: int,
                     status: Status, error: string, upSince: Option<int>)
  /** The host, the RunSet and the persisted interfaces. */
  datatype World = World(host: Host, running: set<nat>, rows: map<nat, Row>)

  /** Which calls of one Start succeed. `ready` covers reading the row, its nodes, key and peers;
      `appends` counts the chain appends that succeed, `now` and `failure` are what a row records. */
  datatype StartEnv = StartEnv(
    ready: bool, flow: string,
    wg: bool, assign: bool, ruleAdd: bool, route: bool, xray: bool,
    mangleInit: bool, newChain: bool, appends: nat, jump: bool,
    filterInit: bool, dockerOut: bool, dockerIn: bool, forwardIn: bool, forwardOut: bool,
    natInit: bool, masquerade: bool,
    save: bool, saveStatus: bool,
    now: int, failure: string)

  datatype Step = Step(host: Host, ok: bool)

  function OwnRule(id: nat): Res { IpRule(RuleMark(id), RouteTable(id)) }
  function OwnDevice(id: nat): Res { Device(id, TunName(id)) }
  function OwnRoute(id: nat): Res { Route(RouteTable(id), DEFAULT_DST, true) }

  // ----- netconf -----

  /** A refused RuleAdd is only logged. */
  function SetupReturnRoute(h: Host, id: nat, e: StartEnv): (s: Step)
    ensures s.ok <==> e.route
    ensures s.host.rules == h.rules && s.host.chains == h.chains
    ensures OwnRule(id) in s.host.res <==> e.ruleAdd || OwnRule(id) in h.res
  {
    var ruled := if e.ruleAdd then Add(h, OwnRule(id)) else h;
    if e.route then Step(ReplaceDefault(ruled, RouteTable(id)), true) else Step(ruled, false)
  }

  function TeardownReturnRoute(h: Host, id: nat): (g: Host)
    ensures g.rules == h.rules && g.chains == h.chains && OwnRule(id) !in g.res
  {
    FlushTable(Drop(h, OwnRule(id)), RouteTable(id))
  }

  /** The rules appended before the first failing append. */
  function Appended(rules: seq<MangleRule>, appends: nat): seq<MangleRule> {
    if appends < |rules| then rules[..appends] else rules
  }

  /** The tunnel's own chain is there or can be created. */
  predicate Relinks(h: Host, id: nat, e: StartEnv) {
    e.mangleInit && (ChainName(id) in h.chains || e.newChain)
  }

  /** No built-in chain came or went, and the tunnel's own chain only if it could be created. */
  predicate Grew(g: Host, h: Host, id: nat, e: StartEnv) {
    && (DockerUser in g.rules <==> DockerUser in h.rules)
    && (ChainName(id) in g.chains ==> ChainName(id) in h.chains || e.newChain)
  }

  /** The jump from PREROUTING is removed first and appended only after the last rule. */
  function SetupTProxy(h: Host, id: nat, cfg: ChainCfg, e: StartEnv): (s: Step)
    ensures s.ok <==> Relinks(h, id, e) && e.appends >= |BuildChain(cfg)| && e.jump
    ensures s.host.res == h.res && Grew(s.host, h, id, e)
  {
    var tun, chain := TunName(id), ChainName(id);
    if !e.mangleInit || (chain !in h.chains && !e.newChain) then Step(h, false)
    else
      var filled := SetChain(Delete(h, Prerouting, Jump(tun, chain)), chain, Appended(BuildChain(cfg), e.appends));
      if e.appends < |BuildChain(cfg)| || !e.jump then Step(filled, false)
      else Step(Append(filled, Prerouting, Jump(tun, chain)), true)
  }

  function TeardownTProxy(h: Host, id: nat, tun: string): (g: Host)
    ensures g.res == h.res && ChainName(id) !in g.chains && (DockerUser in g.rules <==> DockerUser in h.rules)
  {
    DropChain(Delete(h, Prerouting, Jump(tun, ChainName(id))), ChainName(id))
  }

  function TeardownForward(h: Host, tun: string): (g: Host)
    ensures SameBesideRules(g, h)
  {
    var f := Delete(Delete(h, Forward, AcceptOut(tun)), Forward, AcceptIn(tun));
    Delete(Delete(f, DockerUser, AcceptOut(tun)), DockerUser, AcceptIn(tun))
  }

  /** The two inserts into DOCKER-USER are both attempted; unless both succeed both are undone. */
  function InsertDocker(h: Host, tun: string, e: StartEnv): (s: Step)
    ensures SameBesideRules(s.host, h) && (s.ok <==> DockerUser in h.rules && e.dockerOut && e.dockerIn)
  {
    if DockerUser !in h.rules then Step(h, false)
    else
      var a := if e.dockerOut then InsertHead(h, DockerUser, AcceptOut(tun)) else h;
      var b := if e.dockerIn then InsertHead(a, DockerUser, AcceptIn(tun)) else a;
      if e.dockerOut && e.dockerIn then Step(b, true)
      else Step(Delete(Delete(b, DockerUser, AcceptOut(tun)), DockerUser, AcceptIn(tun)), false)
  }

  function InsertForward(h: Host, tun: string, e: StartEnv): (s: Step)
    ensures SameBesideRules(s.host, h) && (s.ok <==> e.forwardIn && e.forwardOut)
  {
    if !e.forwardIn then Step(h, false)
    else
      var a := InsertHead(h, Forward, AcceptIn(tun));
      if !e.forwardOut then Step(Delete(a, Forward, AcceptIn(tun)), false)
      else Step(InsertHead(a, Forward, AcceptOut(tun)), true)
  }

  /** One complete place for the ACCEPT pair suffices. */
  predicate ForwardWorks(h: Host, e: StartEnv) {
    e.filterInit && ((DockerUser in h.rules && e.dockerOut && e.dockerIn) || (e.forwardIn && e.forwardOut))
  }

  function SetupForward(h: Host, tun: string, e: StartEnv): (s: Step)
    ensures SameBesideRules(s.host, h) && (s.ok <==> ForwardWorks(h, e))
  {
    if !e.filterInit then Step(h, false)
    else
      var d := InsertDocker(TeardownForward(h, tun), tun, e);
      if d.ok then d else InsertForward(d.host, tun, e)
  }

  function TeardownNat(h: Host, tun: string, subnet: string): (g: Host)
    ensures SameBesideRules(g, h)
  {
    Delete(Delete(h, Postrouting, Masquerade(tun, subnet)), Postrouting, LegacyIcmp(subnet))
  }

  function SetupNat(h: Host, tun: string, subnet: string, e: StartEnv): (s: Step)
    ensures SameBesideRules(s.host, h) && (s.ok <==> e.natInit && e.masquerade)
  {
    if !e.natInit then Step(h, false)
    else
      var clean := TeardownNat(h, tun, subnet);
      if !e.masquerade then Step(clean, false)
      else Step(InsertHead(clean, Postrouting, Masquerade(tun, subnet)), true)
  }

  // ----- TunnelService -----

  /** stopInternal on the host; without a subnet the NAT rule is left alone. */
  function TearDown(h: Host, id: nat, tun: string, subnet: Option<string>): (g: Host)
    ensures OwnRule(id) !in g.res && ChainName(id) !in g.chains && (DockerUser in g.rules <==> DockerUser in h.rules)
  {
    var f := TeardownForward(h, tun);
    var n := if subnet.Some? then TeardownNat(f, tun, subnet.value) else f;
    var r := TeardownReturnRoute(TeardownTProxy(n, id, tun), id);
    Drop(Drop(r, OwnDevice(id)), Xray(id))
  }

  datatype Ending = Up | RolledBack | Unsaved
  datatype Brought = Brought(host: Host, end: Ending)

  /** A rollback restores neither lists nor chains. */
  predicate Undone(b: Brought, h: Host, id: nat) {
    && b.end == RolledBack
    && (DockerUser in b.host.rules <==> DockerUser in h.rules)
    && (ChainName(id) in b.host.chains ==> ChainName(id) in h.chains)
  }

  // the rollbacks, each undoing one stage more

  function UndoWg(h: Host, id: nat): (b: Brought)
    ensures Undone(b, h, id)
  {
    Brought(Drop(h, OwnDevice(id)), RolledBack)
  }

  function UndoRoute(h: Host, id: nat): (b: Brought)
    ensures Undone(b, h, id)
  {
    UndoWg(TeardownReturnRoute(h, id), id)
  }

  function UndoXray(h: Host, id: nat): (b: Brought)
    ensures Undone(b, h, id)
  {
    UndoRoute(Drop(h, Xray(id)), id)
  }

  function UndoTProxy(h: Host, id: nat): (b: Brought)
    ensures Undone(b, h, id)
  {
    UndoXray(TeardownTProxy(h, id, TunName(id)), id)
  }

  function UndoForward(h: Host, id: nat): (b: Brought)
    ensures Undone(b, h, id)
  {
    UndoTProxy(TeardownForward(h, TunName(id)), id)
  }

  /** The calls a Start needs: a chain that is there need not be created, and the ip rule may be refused. */
  predicate CallsWork(h: Host, id: nat, a: WgAddr, mss: int, e: StartEnv) {
    SetupsWork(h, id, a, mss, e) && e.save
  }

  predicate SetupsWork(h: Host, id: nat, a: WgAddr, mss: int, e: StartEnv) {
    e.wg && e.assign && e.route && e.xray && LaterSetupsWork(h, id, a, mss, e)
  }

  predicate LaterSetupsWork(h: Host, id: nat, a: WgAddr, mss: int, e: StartEnv) {
    && Relinks(h, id, e) && e.jump
    && e.appends >= |BuildChain(ChainCfg(a.gateway, e.flow, mss, XrayPort(id), Fwmark(id)))|
    && ForwardWorks(h, e) && e.natInit && e.masquerade
  }

  // the stages of Start from wg_create on, one function per suffix of the pipeline

  function StartWg(h: Host, id: nat, a: WgAddr, mss: int, e: StartEnv): (b: Brought)
    ensures b.end.Up? <==> SetupsWork(h, id, a, mss, e) && e.save
    ensures b.end.Unsaved? <==> SetupsWork(h, id, a, mss, e) && !e.save
    ensures Grew(b.host, h, id, e)
    ensures b.end.Up? ==> (OwnRule(id) in b.host.res <==> e.ruleAdd || OwnRule(id) in h.res)
  {
    hide UndoWg, StartRoute, RuleMark, RouteTable, BuildChain, ChainName, TunName, XrayPort, Fwmark;
    if !e.wg then Brought(h, RolledBack)
    else
      var created := Add(h, OwnDevice(id));
      assert created.rules == h.rules && created.chains == h.chains;
      if !e.assign then UndoWg(created, id) else StartRoute(created, id, a, mss, e)
  }

  function StartRoute(h: Host, id: nat, a: WgAddr, mss: int, e: StartEnv): (b: Brought)
    ensures b.end.Up? <==> e.route && e.xray && LaterSetupsWork(h, id, a, mss, e) && e.save
    ensures b.end.Unsaved? <==> e.route && e.xray && LaterSetupsWork(h, id, a, mss, e) && !e.save
    ensures Grew(b.host, h, id, e)
    ensures b.end.Up? ==> (OwnRule(id) in b.host.res <==> e.ruleAdd || OwnRule(id) in h.res)
  {
    hide UndoWg, UndoRoute, StartTProxy, SetupReturnRoute, RuleMark, RouteTable, BuildChain, ChainName;
    var r := SetupReturnRoute(h, id, e);
    if !r.ok then UndoWg(r.host, id)
    else if !e.xray then UndoRoute(r.host, id)
    else
      var next := Add(r.host, Xray(id));
      assert next.rules == h.rules && next.chains == h.chains;
      StartTProxy(next, id, a, mss, e)
  }

  function StartTProxy(h: Host, id: nat, a: WgAddr, mss: int, e: StartEnv): (b: Brought)
    ensures b.end.Up? <==> LaterSetupsWork(h, id, a, mss, e) && e.save
    ensures b.end.Unsaved? <==> LaterSetupsWork(h, id, a, mss, e) && !e.save
    ensures Grew(b.host, h, id, e)
    ensures b.end.Up? ==> b.host.res == h.res
  {
    var t := SetupTProxy(h, id, ChainCfg(a.gateway, e.flow, mss, XrayPort(id), Fwmark(id)), e);
    if !t.ok then UndoXray(t.host, id) else StartForward(t.host, id, a, e)
  }

  function StartForward(h: Host, id: nat, a: WgAddr, e: StartEnv): (b: Brought)
    ensures b.end.Up? <==> ForwardWorks(h, e) && e.natInit && e.masquerade && e.save
    ensures b.end.Unsaved? <==> ForwardWorks(h, e) && e.natInit && e.masquerade && !e.save
    ensures Grew(b.host, h, id, e)
    ensures b.end.Up? ==> b.host.res == h.res
  {
    var f := SetupForward(h, TunName(id), e);
    if !f.ok then UndoTProxy(f.host, id) else StartNat(f.host, id, a, e)
  }

  function StartNat(h: Host, id: nat, a: WgAddr, e: StartEnv): (b: Brought)
    ensures b.end.Up? <==> e.natInit && e.masquerade && e.save
    ensures b.end.Unsaved? <==> e.natInit && e.masquerade && !e.save
    ensures Grew(b.host, h, id, e)
    ensures b.end.Up? ==> b.host.res == h.res
  {
    var n := SetupNat(h, TunName(id), a.subnet, e);
    if !n.ok then UndoForward(n.host, id)
    else if !e.save then Brought(TearDown(n.host, id, TunName(id), Some(a.subnet)), Unsaved)
    else Brought(n.host, Up)
  }

  function UpRow(row: Row, id: nat, e: StartEnv): Row {
    row.(status := Running, error := "", upSince := Some(e.now), tunName := TunName(id))
  }

  function FailedRow(row: Row, e: StartEnv): Row {
    row.(status := Failed, error := e.failure)
  }

  datatype Started = Started(world: World, ok: bool)

  function Start(w: World, id: nat, e: StartEnv): Started {
    if id in w.running then Started(w, true)
    else if id !in w.rows || !e.ready || w.rows[id].address.None? then Started(w, false)
    else
      var row := w.rows[id];
      var b := StartWg(w.host, id, row.address.value, row.mssClamp, e);
      match b.end
      case Up => Started(World(b.host, w.running + {id}, w.rows[id := UpRow(row, id, e)]), true)
      case Unsaved => Started(w.(host := b.host), false)
      case RolledBack =>
        Started(w.(host := b.host, rows := if e.saveStatus then w.rows[id := FailedRow(row, e)] else w.rows), false)
  }

  function TunOrDefault(row: Row, id: nat): string {
    if row.tunName == "" then TunName(id) else row.tunName
  }

  function SubnetOf(row: Row): Option<string> {
    if row.address.Some? then Some(row.address.value.subnet) else None
  }

  /** teardownRuntime. */
  function TeardownRuntime(w: World, id: nat): World
    requires id in w.rows
  {
    w.(host := TearDown(w.host, id, TunOrDefault(w.rows[id], id), SubnetOf(w.rows[id])), running := w.running - {id})
  }

  /** Which of Stop's two writes succeed: of the row, and of the status alone. */
  datatype Saved = Saved(row: bool, status: bool)

  function StoppedRow(row: Row, saved: Saved): Row {
    if saved.row then row.(status := Stopped, error := "", upSince := None)
    else if saved.status then row.(status := Stopped, error := "")
    else row
  }

  /** `found`: the row was read. */
  function Stop(w: World, id: nat, found: bool, saved: Saved): World {
    if !found || id !in w.rows then w
    else
      var down := TeardownRuntime(w, id);
      down.(rows := down.rows[id := StoppedRow(down.rows[id], saved)])
  }

  /** PUT /tunnels/:id: the lifecycle fields are kept from the stored row. */
  function Put(w: World, id: nat, row: Row): World {
    if id in w.rows then w.(rows := w.rows[id := Merged(w.rows[id], row)]) else w
  }

  function Merged(stored: Row, incoming: Row): Row {
    incoming.(status := stored.status, error := stored.error, upSince := stored.upSince)
  }

  datatype Op =
    | StartOp(id: nat, env: StartEnv)
    | StopOp(id: nat, found: bool, saved: Saved)
    | PutOp(id: nat, row: Row)

  function Do(w: World, op: Op): World {
    match op
    case StartOp(id, e) => Start(w, id, e).world
    case StopOp(id, found, saved) => Stop(w, id, found, saved)
    case PutOp(id, row) => Put(w, id, row)
  }

  predicate OwnName(row: Row, id: nat) {
    row.tunName == "" || row.tunName == TunName(id)
  }

  predicate Masqueraded(h: Host, id: nat) {
    Postrouting in h.rules && exists r :: r in h.rules[Postrouting] && r.Masquerade? && r.tun == TunName(id)
  }

  /** PUTs do not rename the device, nor move the address while a NAT rule of the tunnel is in place. */
  predicate Allowed(w: World, op: Op) {
    op.PutOp? ==>
      && OwnName(op.row, op.id)
      && (Masqueraded(w.host, op.id) && op.id in w.rows ==> op.row.address == w.rows[op.id].address)
  }

  function Run(w: World, ops: seq<Op>): World
    decreases |ops|
  {
    if ops == [] then w else Run(Do(w, ops[0]), ops[1..])
  }

  predicate AllAllowed(w: World, ops: seq<Op>)
    decreases |ops|
  {
    ops == [] || (Allowed(w, ops[0]) && AllAllowed(Do(w, ops[0]), ops[1..]))
  }

  // ----- process restarts -----

  /** ShutdownAll over the drained ids; statuses stay as they are. */
  function ShutdownAll(w: World, ids: seq<nat>): World
    decreases |ids|
  {
    if ids == [] then w
    else if ids[0] in w.rows then ShutdownAll(TeardownRuntime(w, ids[0]), ids[1..])
    else ShutdownAll(w, ids[1..])
  }

  /** A new process has an empty RunSet; devices and xray instances died with the old one. */
  function NewProcess(w: World): World {
    w.(running := {}, host := w.host.(res := set r | r in w.host.res && !r.Device? && !r.Xray?))
  }

  /** RestoreRunning over the ids persisted as running. */
  function RestoreRunning(w: World, ids: seq<nat>, e: nat -> StartEnv): World
    decreases |ids|
  {
    if ids == [] then w else RestoreRunning(Start(w, ids[0], e(ids[0])).world, ids[1..], e)
  }
}
