/** The tables a subscription refresh touches, and what each committed step does to them. */
module RefreshSpec {
  import opened Text

  /** A vless_nodes row as the refresh sees it: its subscription and its trimmed share link. */
  datatype Node = Node(sub: nat, link: string)
  datatype Iface = Iface(sub: Option<nat>, active: Option<nat>)
  /** Where a tunnel_nodes row stands: which tunnel, at which position. */
  datatype Slot = Slot(iface: nat, pos: nat)
  /** `rows` maps a slot to its node id. SQL would accept two rows in one slot, so every insert
      of the Store class is proved to hit a free one. */
  datatype Db = Db(nodes: map<nat, Node>, ifaces: map<nat, Iface>, rows: map<Slot, nat>, nextNode: nat)

  // ----- the invariant of every committed state -----

  ghost predicate NoDangling(db: Db) {
    && (forall i :: i in db.ifaces && db.ifaces[i].active.Some? ==> db.ifaces[i].active.value in db.nodes)
    && (forall k :: k in db.rows ==> k.iface in db.ifaces && db.rows[k] in db.nodes)
  }

  /** Autoincrement: every stored id is below the next one, and 0 is never handed out. */
  ghost predicate IdsBelowNext(db: Db) {
    0 < db.nextNode && forall n :: n in db.nodes ==> 0 < n < db.nextNode
  }

  ghost predicate Valid(db: Db) {
    NoDangling(db) && IdsBelowNext(db)
  }

  // ----- the steps of a refresh -----

  predicate OfSub(db: Db, n: nat, sub: nat) {
    n in db.nodes && db.nodes[n].sub == sub
  }

  /** DeleteNodes. */
  function Wipe(db: Db, sub: nat): Db {
    Db(map n | n in db.nodes && db.nodes[n].sub != sub :: db.nodes[n],
       map i | i in db.ifaces ::
         if db.ifaces[i].active.Some? && OfSub(db, db.ifaces[i].active.value, sub)
         then db.ifaces[i].(active := None) else db.ifaces[i],
       map k | k in db.rows && !OfSub(db, db.rows[k], sub) :: db.rows[k],
       db.nextNode)
  }

  function NewNode(sub: nat, links: seq<string>, base: nat, n: nat): Node
    requires base <= n < base + |links|
  {
    Node(sub, links[n - base])
  }

  /** InsertNodes: one fresh id per link. */
  function Insert(db: Db, sub: nat, links: seq<string>): Db {
    db.(nodes := db.nodes + map n | db.nextNode <= n < db.nextNode + |links| :: NewNode(sub, links, db.nextNode, n),
        nextNode := db.nextNode + |links|)
  }

  /** The firstByURI table of both restore steps, for links inserted from id `base` on. */
  function FirstByLink(links: seq<string>, base: nat): map<string, nat> {
    if links == [] then map[]
    else
      var m, last := FirstByLink(links[..|links| - 1], base), links[|links| - 1];
      if last == "" || last in m then m else m[last := base + |links| - 1]
  }

  /** SnapshotActiveNodesForSubscription: interface id to the link of its active node. */
  function ActiveBindings(db: Db, sub: nat): map<nat, string> {
    map i | i in db.ifaces && db.ifaces[i].sub == Some(sub)
            && db.ifaces[i].active.Some? && db.ifaces[i].active.value in db.nodes
      :: db.nodes[db.ifaces[i].active.value].link
  }

  /** SnapshotTunnelNodesForSubscription: slot to link. */
  function TunnelBindings(db: Db, sub: nat): map<Slot, string> {
    map k | k in db.rows && OfSub(db, db.rows[k], sub) :: db.nodes[db.rows[k]].link
  }

  /** RemapActiveNodesAfterRefresh; each interface update commits on its own. */
  function Remap(db: Db, sub: nat, bindings: map<nat, string>, first: map<string, nat>): Db {
    db.(ifaces := map i | i in db.ifaces ::
      if i in bindings && bindings[i] in first && db.ifaces[i].sub == Some(sub)
      then db.ifaces[i].(active := Some(first[bindings[i]])) else db.ifaces[i])
  }

  /** RestoreTunnelNodesAfterRefresh. */
  function Restore(db: Db, bindings: map<Slot, string>, first: map<string, nat>): Db {
    db.(rows := db.rows + map k | k in bindings && bindings[k] in first :: first[bindings[k]])
  }

  function Among(m: map<nat, string>, done: set<nat>): map<nat, string> {
    map i | i in m && i in done :: m[i]
  }

  /** How far a refresh got: every committed intermediate state is one of these. */
  datatype Stage = Untouched | Wiped | Inserted | Remapping(done: set<nat>) | Restored

  function At(db: Db, sub: nat, links: seq<string>, stage: Stage): Db {
    var inserted := Insert(Wipe(db, sub), sub, links);
    var first := FirstByLink(links, db.nextNode);
    match stage
    case Untouched => db
    case Wiped => Wipe(db, sub)
    case Inserted => inserted
    case Remapping(done) => Remap(inserted, sub, Among(ActiveBindings(db, sub), done), first)
    case Restored => Restore(Remap(inserted, sub, ActiveBindings(db, sub), first), TunnelBindings(db, sub), first)
  }

  // ----- other writers -----

  function RowsOfOthers(db: Db, t: nat): map<Slot, nat> {
    map k | k in db.rows && k.iface != t :: db.rows[k]
  }

  function Assigned(t: nat, ids: seq<nat>): (rows: map<Slot, nat>)
    ensures forall k :: k in rows <==> k.iface == t && 0 <= k.pos < |ids|
    ensures forall k :: k in rows ==> rows[k] == ids[k.pos]
  {
    if ids == [] then map[]
    else Assigned(t, ids[..|ids| - 1])[Slot(t, |ids| - 1) := ids[|ids| - 1]]
  }

  /** TunnelNodeRepo.SetNodes; the foreign keys roll it back when a reference is missing. */
  function SetNodes(db: Db, t: nat, ids: seq<nat>): Db {
    if ids == [] || (t in db.ifaces && forall n :: n in ids ==> n in db.nodes)
    then db.(rows := RowsOfOthers(db, t) + Assigned(t, ids))
    else db
  }

  /** TunnelRepo.Delete, restricted to these tables. */
  function DeleteTunnel(db: Db, t: nat): Db {
    db.(rows := RowsOfOthers(db, t), ifaces := db.ifaces - {t})
  }

  // ----- what a tunnel lists -----

  /** TunnelNodeRepo.ListNodes read up to position `bound`: the nodes of the rows of tunnel `t` at
      positions below it, in increasing position. */
  function Listing(db: Db, t: nat, bound: nat): seq<Node> {
    if bound == 0 then []
    else
      Listing(db, t, bound - 1) + Cell(db, Slot(t, bound - 1))
  }

  function Cell(db: Db, k: Slot): seq<Node> {
    if k in db.rows && db.rows[k] in db.nodes then [db.nodes[db.rows[k]]] else []
  }

  /** The nodes a refresh of `sub` to `links` keeps (with new ids). */
  predicate Kept(n: Node, sub: nat, links: seq<string>) {
    n.sub != sub || (n.link != "" && n.link in links)
  }
}

/** The refresh refines "filter each tunnel's ordered list". */
module RefreshProofs {
  import opened Text
  import opened RefreshSpec

  /** firstByURI holds exactly the fetched non-blank links, each at its first occurrence. */
  lemma {:induction false} FirstByLinkAt(links: seq<string>, base: nat, l: string)
    ensures var m := FirstByLink(links, base);
      && (l in m <==> l != "" && l in links)
      && (l in m ==> base <= m[l] < base + |links| && links[m[l] - base] == l && l !in links[..m[l] - base])
  {
    if links != [] {
      var init, last := links[..|links| - 1], links[|links| - 1];
      FirstByLinkAt(init, base, l);
      assert links == init + [last];
      var m := FirstByLink(init, base);
      if l in m {
        assert links[..m[l] - base] == init[..m[l] - base];
      } else if l == last {
        assert links[..|init|] == init;
      }
    }
  }

  lemma FirstByLinkIsFirst(links: seq<string>, base: nat)
    ensures var m := FirstByLink(links, base);
      && (forall l :: l in m <==> l != "" && l in links)
      && (forall l :: l in m ==> base <= m[l] < base + |links| && links[m[l] - base] == l)
  {
  }

  lemma WipeValid(db: Db, sub: nat)
    requires Valid(db)
    ensures Valid(Wipe(db, sub))
  {
  }

  lemma RemapValid(db: Db, sub: nat, bindings: map<nat, string>, first: map<string, nat>)
    requires Valid(db) && forall l :: l in first ==> first[l] in db.nodes
    ensures Valid(Remap(db, sub, bindings, first))
  {
  }

  lemma RestoreValid(db: Db, bindings: map<Slot, string>, first: map<string, nat>)
    requires Valid(db) && forall l :: l in first ==> first[l] in db.nodes
    requires forall k :: k in bindings ==> k.iface in db.ifaces.Keys
    ensures Valid(Restore(db, bindings, first))
  {
  }

  /** The fetched nodes are in the table under fresh ids. */
  lemma FirstNodes(db: Db, sub: nat, links: seq<string>)
    ensures var nodes := Insert(Wipe(db, sub), sub, links).nodes; var first := FirstByLink(links, db.nextNode);
      forall l :: l in first ==> first[l] in nodes && nodes[first[l]] == Node(sub, l)
  {
    hide FirstByLink, Wipe;
    var nodes, first := Insert(Wipe(db, sub), sub, links).nodes, FirstByLink(links, db.nextNode);
    assert Wipe(db, sub).nextNode == db.nextNode by { WipeKeepsCounter(db, sub); }
    forall l | l in first
      ensures first[l] in nodes && nodes[first[l]] == Node(sub, l)
    {
      FirstByLinkAt(links, db.nextNode, l);
      assert NewNode(sub, links, db.nextNode, first[l]) == Node(sub, l);
    }
  }

  lemma WipeKeepsCounter(db: Db, sub: nat)
    ensures Wipe(db, sub).nextNode == db.nextNode
  {
  }

  /** The nodes of other subscriptions are the ones before, under the same ids. */
  lemma OtherNodes(db: Db, sub: nat, links: seq<string>)
    requires Valid(db)
    ensures var nodes := Insert(Wipe(db, sub), sub, links).nodes;
      && (forall n :: n in db.nodes && db.nodes[n].sub != sub ==> n in nodes && nodes[n] == db.nodes[n])
      && (forall n :: n in nodes && nodes[n].sub != sub ==> n in db.nodes && nodes[n] == db.nodes[n])
  {
  }

  lemma InsertedValid(db: Db, sub: nat, links: seq<string>)
    requires Valid(db)
    ensures var inserted := Insert(Wipe(db, sub), sub, links);
      && Valid(inserted)
      && forall l :: l in FirstByLink(links, db.nextNode) ==> FirstByLink(links, db.nextNode)[l] in inserted.nodes
  {
  }

  lemma RemappedValid(db: Db, sub: nat, links: seq<string>, bindings: map<nat, string>)
    requires Valid(db)
    ensures var remapped := Remap(Insert(Wipe(db, sub), sub, links), sub, bindings, FirstByLink(links, db.nextNode));
      && Valid(remapped)
      && remapped.ifaces.Keys == db.ifaces.Keys
      && forall l :: l in FirstByLink(links, db.nextNode) ==> FirstByLink(links, db.nextNode)[l] in remapped.nodes
  {
    InsertedValid(db, sub, links);
    RemapValid(Insert(Wipe(db, sub), sub, links), sub, bindings, FirstByLink(links, db.nextNode));
  }

  lemma TunnelBindingsOfTunnels(db: Db, sub: nat)
    requires Valid(db)
    ensures forall k :: k in TunnelBindings(db, sub) ==> k.iface in db.ifaces.Keys
  {
  }

  lemma RestoredValid(db: Db, sub: nat, links: seq<string>)
    requires Valid(db)
    ensures Valid(At(db, sub, links, Restored))
  {
    hide Wipe, Insert, Remap, Restore, TunnelBindings, ActiveBindings, FirstByLink, Valid;
    RemappedValid(db, sub, links, ActiveBindings(db, sub));
    TunnelBindingsOfTunnels(db, sub);
    var inserted, first := Insert(Wipe(db, sub), sub, links), FirstByLink(links, db.nextNode);
    RestoreValid(Remap(inserted, sub, ActiveBindings(db, sub), first), TunnelBindings(db, sub), first);
  }

  /** Every committed state of a refresh is free of dangling references. */
  lemma StageValid(db: Db, sub: nat, links: seq<string>, stage: Stage)
    requires Valid(db)
    ensures Valid(At(db, sub, links, stage))
  {
    match stage {
      case Untouched =>
      case Wiped => WipeValid(db, sub);
      case Inserted => InsertedValid(db, sub, links);
      case Remapping(done) =>
        RemappedValid(db, sub, links, Among(ActiveBindings(db, sub), done));
      case Restored => RestoredValid(db, sub, links);
    }
  }

  /** Which nodes a tunnel still shows once the refresh has committed up to `stage`. */
  predicate Shown(n: Node, sub: nat, links: seq<string>, stage: Stage) {
    match stage
    case Untouched => true
    case Restored => Kept(n, sub, links)
    case _ => n.sub != sub
  }

  function Showing(sub: nat, links: seq<string>, stage: Stage): Node -> bool {
    n => Shown(n, sub, links, stage)
  }

  /** The junction after any committed stage: a slot is occupied exactly when it was and its node is
      still shown, and it shows the same node (subscription and link). */
  lemma StageSlot(db: Db, sub: nat, links: seq<string>, stage: Stage, k: Slot)
    requires Valid(db)
    ensures var after := At(db, sub, links, stage);
      && (k in after.rows <==> k in db.rows && Shown(db.nodes[db.rows[k]], sub, links, stage))
      && (k in after.rows ==> after.rows[k] in after.nodes && after.nodes[after.rows[k]] == db.nodes[db.rows[k]])
  {
    OtherNodes(db, sub, links);
    FirstNodes(db, sub, links);
    FirstByLinkIsFirst(links, db.nextNode);
    match stage {
      case Untouched =>
      case Wiped =>
      case Inserted =>
      case Remapping(done) =>
      case Restored =>
    }
  }

  // ----- ordered listings -----

  lemma StageCell(db: Db, sub: nat, links: seq<string>, stage: Stage, k: Slot)
    requires Valid(db)
    ensures Cell(At(db, sub, links, stage), k) == Filter(Cell(db, k), Showing(sub, links, stage))
  {
    StageSlot(db, sub, links, stage, k);
  }

  /** One refresh, stopped at any stage, filters every tunnel's ordered list and keeps its order. */
  lemma {:induction false} RefreshFiltersListing(db: Db, sub: nat, links: seq<string>, stage: Stage, t: nat, bound: nat)
    requires Valid(db)
    ensures Listing(At(db, sub, links, stage), t, bound)
         == Filter(Listing(db, t, bound), Showing(sub, links, stage))
  {
    hide At, Shown, Cell, Showing, Valid;
    if bound != 0 {
      RefreshFiltersListing(db, sub, links, stage, t, bound - 1);
      var k := Slot(t, bound - 1);
      StageCell(db, sub, links, stage, k);
      FilterConcat(Listing(db, t, bound - 1), Cell(db, k), Showing(sub, links, stage));
    }
  }

  datatype Fetch = Fetch(sub: nat, links: seq<string>)

  function Refreshes(db: Db, fetches: seq<Fetch>): Db
    decreases |fetches|
  {
    if fetches == [] then db
    else Refreshes(At(db, fetches[0].sub, fetches[0].links, Restored), fetches[1..])
  }

  predicate KeptByAll(n: Node, fetches: seq<Fetch>) {
    forall f :: f in fetches ==> Kept(n, f.sub, f.links)
  }

  /** Over any sequence of refreshes, of any subscriptions, each tunnel lists exactly its original
      nodes of other subscriptions and those present in every fetched list, in the old order. */
  lemma {:induction false} RefreshesFilterListing(db: Db, fetches: seq<Fetch>, t: nat, bound: nat)
    requires Valid(db)
    ensures Listing(Refreshes(db, fetches), t, bound) == Filter(Listing(db, t, bound), n => KeptByAll(n, fetches))
    decreases |fetches|
  {
    if fetches == [] {
      FilterAll(Listing(db, t, bound), n => KeptByAll(n, fetches));
    } else {
      var f, rest := fetches[0], fetches[1..];
      StageValid(db, f.sub, f.links, Restored);
      RefreshFiltersListing(db, f.sub, f.links, Restored, t, bound);
      RefreshesFilterListing(At(db, f.sub, f.links, Restored), rest, t, bound);
      assert fetches == [f] + rest;
      FilterFilter(Listing(db, t, bound), Showing(f.sub, f.links, Restored),
                   n => KeptByAll(n, rest), n => KeptByAll(n, fetches));
    }
  }

  // ----- the active binding -----

  /** Where the active binding of interface `i` ends up, in terms of the state before the refresh. */
  ghost predicate ActiveRule(db: Db, sub: nat, links: seq<string>, i: nat, after: Db)
    requires Valid(db) && i in db.ifaces
  {
    var was := db.ifaces[i];
    i in after.ifaces && after.ifaces[i].sub == was.sub &&
    var active := after.ifaces[i].active;
    match was.active
    case None => active == None
    case Some(n) =>
      var node := db.nodes[n];
      if was.sub == Some(sub) && node.link != "" && node.link in links then
        // the same link, now a node of the refreshed subscription under a fresh id
        && active.Some? && db.nextNode <= active.value && active.value in after.nodes
        && after.nodes[active.value] == Node(sub, node.link)
      else if node.sub == sub then active == None
      else active == Some(n) && n in after.nodes && after.nodes[n] == node
  }

  /** Remapped, cleared or untouched: exactly one of the three, decided by the state before. */
  lemma RefreshMovesActive(db: Db, sub: nat, links: seq<string>, i: nat)
    requires Valid(db) && i in db.ifaces
    ensures ActiveRule(db, sub, links, i, At(db, sub, links, Restored))
  {
    OtherNodes(db, sub, links);
    FirstNodes(db, sub, links);
    FirstByLinkIsFirst(links, db.nextNode);
  }

  // ----- all writers, all runs -----

  datatype Op =
    | RefreshOp(sub: nat, links: seq<string>, stage: Stage)
    | SetNodesOp(t: nat, ids: seq<nat>)
    | DeleteOp(t: nat)

  function Step(db: Db, op: Op): Db {
    match op
    case RefreshOp(sub, links, stage) => At(db, sub, links, stage)
    case SetNodesOp(t, ids) => SetNodes(db, t, ids)
    case DeleteOp(t) => DeleteTunnel(db, t)
  }

  lemma StepValid(db: Db, op: Op)
    requires Valid(db)
    ensures Valid(Step(db, op))
  {
    match op {
      case RefreshOp(sub, links, stage) => StageValid(db, sub, links, stage);
      case SetNodesOp(t, ids) =>
      case DeleteOp(t) =>
    }
  }

  function Run(db: Db, ops: seq<Op>): Db
    decreases |ops|
  {
    if ops == [] then db else Run(Step(db, ops[0]), ops[1..])
  }

  /** No run of refreshes (each possibly cut short between transactions), node assignments and
      tunnel deletions ever commits a dangling reference. */
  lemma {:induction false} RunValid(db: Db, ops: seq<Op>)
    requires Valid(db)
    ensures Valid(Run(db, ops))
    decreases |ops|
  {
    if ops != [] {
      StepValid(db, ops[0]);
      RunValid(Step(db, ops[0]), ops[1..]);
    }
  }

  /** A refresh neither adds, drops nor edits a node of another subscription, at any stage. */
  lemma RefreshKeepsOtherNodes(db: Db, sub: nat, links: seq<string>, stage: Stage)
    requires Valid(db)
    ensures var after := At(db, sub, links, stage);
      && (forall n :: n in db.nodes && db.nodes[n].sub != sub ==> n in after.nodes && after.nodes[n] == db.nodes[n])
      && (forall n :: n in after.nodes && after.nodes[n].sub != sub ==> n in db.nodes && after.nodes[n] == db.nodes[n])
      && after.ifaces.Keys == db.ifaces.Keys
  {
    OtherNodes(db, sub, links);
  }

  lemma SetNodesCell(db: Db, t: nat, ids: seq<nat>, k: Slot)
    ensures k.iface != t ==> Cell(SetNodes(db, t, ids), k) == Cell(db, k)
    ensures t in db.ifaces && (forall n :: n in ids ==> n in db.nodes) && k.iface == t ==>
      Cell(SetNodes(db, t, ids), k) == if k.pos < |ids| then [db.nodes[ids[k.pos]]] else []
  {
  }

  /** ListNodes reads back exactly what SetNodes assigned, in order, duplicates included. */
  lemma {:induction false} SetNodesThenList(db: Db, t: nat, ids: seq<nat>, bound: nat)
    requires Valid(db) && t in db.ifaces && forall n :: n in ids ==> n in db.nodes
    ensures var got := Listing(SetNodes(db, t, ids), t, bound);
      && |got| == (if bound < |ids| then bound else |ids|)
      && forall i :: 0 <= i < |got| ==> got[i] == db.nodes[ids[i]]
  {
    hide SetNodes, Cell, Valid;
    if bound != 0 {
      SetNodesThenList(db, t, ids, bound - 1);
      SetNodesCell(db, t, ids, Slot(t, bound - 1));
    }
  }

  /** Assigning nodes to one tunnel leaves what every other tunnel lists. */
  lemma {:induction false} SetNodesKeepsOthers(db: Db, t: nat, ids: seq<nat>, u: nat, bound: nat)
    requires u != t
    ensures Listing(SetNodes(db, t, ids), u, bound) == Listing(db, u, bound)
  {
    hide Cell, SetNodes;
    if bound != 0 {
      SetNodesKeepsOthers(db, t, ids, u, bound - 1);
      SetNodesCell(db, t, ids, Slot(u, bound - 1));
    }
  }

  /** An assignment changes junction rows only, and one that names a missing node changes nothing. */
  lemma SetNodesOnlyRows(db: Db, t: nat, ids: seq<nat>)
    ensures var after := SetNodes(db, t, ids);
      && after.nodes == db.nodes && after.ifaces == db.ifaces && after.nextNode == db.nextNode
      && (ids != [] && (t !in db.ifaces || exists n :: n in ids && n !in db.nodes) ==> after == db)
  {
  }

  // ----- deleting a tunnel -----

  /** The tunnel and its rows are gone; every other tunnel and every node is as before. */
  lemma DeleteTunnelOnlyIt(db: Db, t: nat)
    ensures var after := DeleteTunnel(db, t);
      && t !in after.ifaces && (forall k :: k in after.rows ==> k.iface != t)
      && (forall u :: u != t ==> (u in after.ifaces <==> u in db.ifaces))
      && (forall u :: u != t && u in db.ifaces ==> after.ifaces[u] == db.ifaces[u])
      && (forall k: Slot :: k.iface != t ==> (k in after.rows <==> k in db.rows))
      && (forall k: Slot :: k.iface != t && k in db.rows ==> after.rows[k] == db.rows[k])
      && after.nodes == db.nodes && after.nextNode == db.nextNode
  {
  }

  /** What the other tunnels list is as before. */
  lemma {:induction false} DeleteTunnelKeepsOthers(db: Db, t: nat, u: nat, bound: nat)
    requires u != t
    ensures Listing(DeleteTunnel(db, t), u, bound) == Listing(db, u, bound)
  {
    hide DeleteTunnel;
    if bound != 0 {
      DeleteTunnelKeepsOthers(db, t, u, bound - 1);
      DeleteTunnelOnlyIt(db, t);
    }
  }

  // ----- what a refresh stores -----

  /** After a refresh the subscription has exactly one node per fetched link, in order, under fresh ids. */
  lemma RefreshStoresLinks(db: Db, sub: nat, links: seq<string>, n: nat)
    requires Valid(db)
    ensures var after := At(db, sub, links, Restored);
      && after.nextNode == db.nextNode + |links|
      && (n in after.nodes && after.nodes[n].sub == sub <==> db.nextNode <= n < db.nextNode + |links|)
      && (db.nextNode <= n < db.nextNode + |links| ==>
            n in after.nodes && after.nodes[n] == Node(sub, links[n - db.nextNode]))
  {
    hide Insert, FirstByLink, Remap, Restore;
    AtStores(db, sub, links);
    InsertedAt(Wipe(db, sub), sub, links, n);
    hide At;
  }

  lemma AtStores(db: Db, sub: nat, links: seq<string>)
    ensures var after, inserted := At(db, sub, links, Restored), Insert(Wipe(db, sub), sub, links);
      after.nodes == inserted.nodes && after.nextNode == inserted.nextNode
  {
    hide Wipe, Insert, ActiveBindings, TunnelBindings, FirstByLink;
  }

  lemma InsertedAt(db: Db, sub: nat, links: seq<string>, n: nat)
    ensures var after := Insert(db, sub, links); var fetched := db.nextNode <= n < db.nextNode + |links|;
      && after.nextNode == db.nextNode + |links|
      && (fetched ==> n in after.nodes && after.nodes[n] == Node(sub, links[n - db.nextNode]))
      && (!fetched ==> (n in after.nodes <==> n in db.nodes) && (n in db.nodes ==> after.nodes[n] == db.nodes[n]))
  {
    if db.nextNode <= n < db.nextNode + |links| {
      assert NewNode(sub, links, db.nextNode, n) == Node(sub, links[n - db.nextNode]);
    }
  }
}
