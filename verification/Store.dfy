/** The SQL-backed repositories of the refresh, table by table, proved against RefreshSpec. */
module Store {
  import opened Text
  import opened RefreshSpec
  import RefreshProofs

  const MANUAL := "__manual__"

  datatype SubStatus = Inactive | Active | Error
  datatype Sub = Sub(name: string, url: string, nodeCount: nat, status: SubStatus, errorMessage: string,
                     lastFetchedAt: Option<int>)
  datatype NodeRow = NodeRow(sub: nat, rawUri: string)
  datatype ActiveBinding = ActiveBinding(iface: nat, link: string)
  datatype TunnelBinding = TunnelBinding(slot: Slot, link: string)
  /** A parsed node with the id InsertNodes wrote back into it. */
  datatype Stored = Stored(id: nat, rawUri: string)

  /** What came back from the subscription URL. */
  datatype Fetched =
    | NoResponse(msg: string)
    | BodyCut
    | NoVlessLines(msg: string)
    | Nodes(rawUris: seq<string>)

  /** Which database call of FetchAndUpdate fails, if any. */
  datatype Fault =
    | NoFault | ReadSub | SnapshotActive | SnapshotTunnels | Delete | InsertRow
    | RemapRow(k: nat) | RestoreRow | SaveSub

  /** A stats_snapshots row: of a tunnel, of a peer, or of neither. */
  datatype Snapshot = Snapshot(iface: Option<nat>, peer: Option<nat>)

  /** The snapshot is of tunnel t or of one of its peers. */
  predicate Counts(s: Snapshot, peers: map<nat, nat>, t: nat) {
    s.iface == Some(t) || (s.peer.Some? && s.peer.value in peers && peers[s.peer.value] == t)
  }

  datatype Outcome = Done | NotFound | Invalid | FetchFailed | DbFailed

  function Links(rawUris: seq<string>): (links: seq<string>)
    ensures |links| == |rawUris|
    ensures forall i :: 0 <= i < |links| ==> links[i] == Trim(rawUris[i])
  {
    seq(|rawUris|, i requires 0 <= i < |rawUris| => Trim(rawUris[i]))
  }

  function Failed(sub: Sub, msg: string): Sub {
    sub.(errorMessage := msg, status := if sub.nodeCount == 0 then Error else sub.status)
  }

  function Refreshed(sub: Sub, count: nat, now: int): Sub {
    sub.(nodeCount := count, status := Active, errorMessage := "", lastFetchedAt := Some(now))
  }

  ghost predicate ListsActive(out: seq<ActiveBinding>, m: map<nat, string>) {
    && (forall b :: b in out ==> b.iface in m && m[b.iface] == b.link)
    && (forall i :: i in m ==> ActiveBinding(i, m[i]) in out)
  }

  ghost predicate ListsTunnels(out: seq<TunnelBinding>, m: map<Slot, string>) {
    && (forall b :: b in out ==> b.slot in m && m[b.slot] == b.link)
    && (forall k :: k in m ==> TunnelBinding(k, m[k]) in out)
    && (forall i, j :: 0 <= i < j < |out| ==> out[i].slot != out[j].slot)
  }

  ghost predicate StoredFrom(stored: seq<Stored>, base: nat, rawUris: seq<string>) {
    |stored| == |rawUris| && forall i :: 0 <= i < |stored| ==> stored[i] == Stored(base + i, rawUris[i])
  }

  function NodeOf(row: NodeRow): (n: Node)
    ensures n.sub == row.sub
  {
    Node(row.sub, Trim(row.rawUri))
  }

  predicate IsManual(subs: map<nat, Sub>, id: nat) {
    id in subs && subs[id].name == MANUAL
  }

  /** The outcome of a refresh in which no database call fails. */
  function Verdict(subs: map<nat, Sub>, id: nat, fetched: Fetched): Outcome {
    if id !in subs then NotFound
    else if subs[id].name == MANUAL then Done
    else if Trim(subs[id].url) == "" then Invalid
    else if fetched.Nodes? then Done
    else FetchFailed
  }

  /** The subscription rows after a refresh that ended in `out`. */
  function SubsAfter(subs: map<nat, Sub>, id: nat, fetched: Fetched, fault: Fault, out: Outcome, now: int)
    : map<nat, Sub>
  {
    if id !in subs || subs[id].name == MANUAL then subs
    else if out == Done && fetched.Nodes? then subs[id := Refreshed(subs[id], |fetched.rawUris|, now)]
    else if out == FetchFailed && fault != SaveSub && (fetched.NoResponse? || fetched.NoVlessLines?)
    then subs[id := Failed(subs[id], fetched.msg)]
    else subs
  }

  /** A refresh succeeds exactly for a known subscription that is the manual one, or has a URL and
      got nodes; it never touches the manual subscription or another one. */
  lemma Verdicts(subs: map<nat, Sub>, id: nat, fetched: Fetched)
    ensures var v := Verdict(subs, id, fetched);
      && (v == NotFound <==> id !in subs)
      && (v == Done <==>
           id in subs && (subs[id].name == "__manual__" || (Trim(subs[id].url) != "" && fetched.Nodes?)))
      && (v == Invalid <==> id in subs && subs[id].name != "__manual__" && Trim(subs[id].url) == "")
      && v != DbFailed
  {
    hide Trim;
  }

  /** A success records the count and the time and clears the error; a failed download or body records
      its message, and an error status only for a subscription that never had nodes. */
  lemma RecordedOutcome(subs: map<nat, Sub>, id: nat, fetched: Fetched, fault: Fault, out: Outcome, now: int)
    requires id in subs && subs[id].name != "__manual__"
    ensures var was, after := subs[id], SubsAfter(subs, id, fetched, fault, out, now);
      && after.Keys == subs.Keys && (forall i :: i in subs && i != id ==> after[i] == subs[i])
      && (out == Done && fetched.Nodes? ==>
            after[id] == Sub(was.name, was.url, |fetched.rawUris|, Active, "", Some(now)))
      && (out == FetchFailed && fault != SaveSub && (fetched.NoResponse? || fetched.NoVlessLines?) ==>
            after[id] == Sub(was.name, was.url, was.nodeCount, if was.nodeCount == 0 then Error else was.status,
                             fetched.msg, was.lastFetchedAt))
      && (fetched.BodyCut? || out == DbFailed || out == Invalid ==> after == subs)
  {
  }

  lemma InsertNone(db: Db, sub: nat)
    ensures Insert(db, sub, Links([])) == db
  {
  }

  /** Inserting one more node is one more row under the next id. */
  lemma InsertOneMore(db: Db, sub: nat, links: seq<string>, link: string)
    ensures var part := Insert(db, sub, links);
      Insert(db, sub, links + [link])
        == part.(nodes := part.nodes[part.nextNode := Node(sub, link)], nextNode := part.nextNode + 1)
  {
  }

  /** Remapping one more interface is one more row update. */
  lemma RemapOneMore(db: Db, sub: nat, m: map<nat, string>, done: set<nat>, i: nat, first: map<string, nat>)
    requires i in m
    ensures var part := Remap(db, sub, Among(m, done), first);
      Remap(db, sub, Among(m, done + {i}), first)
        == if m[i] in first && i in part.ifaces && part.ifaces[i].sub == Some(sub)
           then part.(ifaces := part.ifaces[i := part.ifaces[i].(active := Some(first[m[i]]))]) else part
  {
  }

  lemma AmongAll(m: map<nat, string>, done: set<nat>)
    ensures done == m.Keys ==> Among(m, done) == m
  {
  }

  /** The slots the snapshot took are free once the wipe has committed. */
  lemma WipedSlotsAreFree(db: Db, sub: nat, links: seq<string>, done: set<nat>)
    ensures forall k :: k in TunnelBindings(db, sub) ==> k !in At(db, sub, links, Remapping(done)).rows
  {
  }

  /** The rows restored once the bindings of `done` have been inserted. */
  function Resolved(m: map<Slot, string>, done: set<Slot>, first: map<string, nat>): map<Slot, nat> {
    map k | k in m && k in done && m[k] in first :: first[m[k]]
  }

  lemma ResolvedOf(m: map<Slot, string>, done: set<Slot>, first: map<string, nat>, k: Slot)
    ensures k in Resolved(m, done, first) ==> k in done
  {
  }

  lemma ResolvedOneMore(rows: map<Slot, nat>, m: map<Slot, string>, done: set<Slot>, first: map<string, nat>, k: Slot)
    requires k in m
    ensures var part := rows + Resolved(m, done, first);
      rows + Resolved(m, done + {k}, first) == if m[k] in first then part[k := first[m[k]]] else part
  {
  }

  lemma AllDone(bindings: seq<TunnelBinding>, m: map<Slot, string>, done: set<Slot>)
    requires ListsTunnels(bindings, m)
    requires forall k :: k in done <==> exists j :: 0 <= j < |bindings| && bindings[j].slot == k
    ensures done == m.Keys
  {
  }

  /** With no parsable node the wipe is already the whole refresh. */
  lemma NothingToRestore(db: Db, sub: nat)
    ensures At(db, sub, Links([]), Restored) == Wipe(db, sub)
  {
    var wiped := Wipe(db, sub);
    hide Wipe, ActiveBindings, TunnelBindings;
    InsertNone(wiped, sub);
    hide Insert;
    RestoreNothing(wiped, sub, ActiveBindings(db, sub), TunnelBindings(db, sub));
  }

  lemma RestoreNothing(db: Db, sub: nat, active: map<nat, string>, tunnels: map<Slot, string>)
    ensures Restore(Remap(db, sub, active, map[]), tunnels, map[]) == db
  {
  }

  class Repo {
    var subs: map<nat, Sub>
    var nodes: map<nat, NodeRow>
    var ifaces: map<nat, Iface>
    var rows: map<Slot, nat>
    var nextNode: nat
    /** Of a peer, its tunnel. */
    var peers: map<nat, nat>
    var stats: map<nat, Snapshot>

    ghost function Tables(): Db
      reads this
    {
      Db(map n | n in nodes :: NodeOf(nodes[n]), ifaces, rows, nextNode)
    }

    method ClearActiveOf(sub: nat)
      modifies this`ifaces
      ensures ifaces == Wipe(old(Tables()), sub).ifaces
    {
      hide NodeOf;
      var of := set n | n in nodes && nodes[n].sub == sub;
      ifaces := map i | i in ifaces ::
        if ifaces[i].active.Some? && ifaces[i].active.value in of then ifaces[i].(active := None) else ifaces[i];
    }

    method DeleteJunctionRowsOf(sub: nat)
      modifies this`rows
      ensures rows == Wipe(old(Tables()), sub).rows
    {
      hide NodeOf;
      var of := set n | n in nodes && nodes[n].sub == sub;
      rows := map k | k in rows && rows[k] !in of :: rows[k];
    }

    /** One transaction: unbind, clear the junction, delete the nodes. */
    method DeleteNodes(sub: nat)
      modifies this`nodes, this`ifaces, this`rows
      ensures Tables() == Wipe(old(Tables()), sub)
    {
      hide NodeOf;
      ghost var before := Tables();
      ClearActiveOf(sub);
      DeleteJunctionRowsOf(sub);
      assert rows == Wipe(before, sub).rows;
      nodes := map n | n in nodes && nodes[n].sub != sub :: nodes[n];
      assert Tables().nodes == Wipe(before, sub).nodes;
    }

    method SnapshotActiveNodes(sub: nat) returns (out: seq<ActiveBinding>)
      ensures ListsActive(out, ActiveBindings(Tables(), sub))
    {
      hide Trim;
      out := [];
      var left := set i | i in ifaces && ifaces[i].sub == Some(sub) && ifaces[i].active.Some?
        && ifaces[i].active.value in nodes;
      ghost var m := ActiveBindings(Tables(), sub);
      assert left == m.Keys;
      while left != {}
        invariant left <= m.Keys
        invariant forall b :: b in out ==> b.iface in m && m[b.iface] == b.link
        invariant forall i :: i in m && i !in left ==> ActiveBinding(i, m[i]) in out
        decreases left
      {
        var i :| i in left;
        out := out + [ActiveBinding(i, Trim(nodes[ifaces[i].active.value].rawUri))];
        left := left - {i};
      }
    }

    method SnapshotTunnelNodes(sub: nat) returns (out: seq<TunnelBinding>)
      ensures ListsTunnels(out, TunnelBindings(Tables(), sub))
    {
      hide Trim;
      out := [];
      var left := set k | k in rows && rows[k] in nodes && nodes[rows[k]].sub == sub;
      ghost var m := TunnelBindings(Tables(), sub);
      assert left == m.Keys;
      while left != {}
        invariant left <= m.Keys
        invariant forall b :: b in out ==> b.slot in m && b.slot !in left && m[b.slot] == b.link
        invariant forall k :: k in m && k !in left ==> TunnelBinding(k, m[k]) in out
        invariant forall i, j :: 0 <= i < j < |out| ==> out[i].slot != out[j].slot
        decreases left
      {
        var k :| k in left;
        out := out + [TunnelBinding(k, Trim(nodes[rows[k]].rawUri))];
        left := left - {k};
      }
    }

    method CreateNodeRow(sub: nat, rawUri: string) returns (id: nat)
      modifies this`nodes, this`nextNode
      ensures id == old(nextNode)
      ensures Tables()
        == old(Tables()).(nodes := old(Tables()).nodes[id := Node(sub, Trim(rawUri))], nextNode := id + 1)
    {
      hide Trim;
      ghost var before := Tables();
      id := nextNode;
      nodes := nodes[id := NodeRow(sub, rawUri)];
      nextNode := id + 1;
      assert Tables().nodes == before.nodes[id := Node(sub, Trim(rawUri))];
    }

    method InsertNodes(sub: nat, rawUris: seq<string>) returns (stored: seq<Stored>)
      modifies this`nodes, this`nextNode
      ensures StoredFrom(stored, old(nextNode), rawUris)
      ensures Tables() == Insert(old(Tables()), sub, Links(rawUris))
    {
      hide Trim;
      stored := [];
      ghost var before := Tables();
      InsertNone(before, sub);
      for i := 0 to |rawUris|
        invariant StoredFrom(stored, before.nextNode, rawUris[..i])
        invariant nextNode == before.nextNode + i
        invariant Tables() == Insert(before, sub, Links(rawUris[..i]))
      {
        hide Insert, Tables;
        InsertOneMore(before, sub, Links(rawUris[..i]), Trim(rawUris[i]));
        assert Links(rawUris[..i + 1]) == Links(rawUris[..i]) + [Trim(rawUris[i])];
        var id := CreateNodeRow(sub, rawUris[i]);
        stored := stored + [Stored(id, rawUris[i])];
      }
      assert rawUris[..|rawUris|] == rawUris;
    }

    /** The loop both restore steps start with. */
    method FirstByUri(stored: seq<Stored>, ghost base: nat, ghost rawUris: seq<string>)
      returns (first: map<string, nat>)
      requires base > 0 && StoredFrom(stored, base, rawUris)
      ensures first == FirstByLink(Links(rawUris), base)
    {
      hide Trim;
      first := map[];
      for i := 0 to |stored|
        invariant first == FirstByLink(Links(rawUris)[..i], base)
      {
        var key := Trim(stored[i].rawUri);
        ghost var next := Links(rawUris)[..i + 1];
        assert next[..i] == Links(rawUris)[..i] && next[i] == key;
        if stored[i].id != 0 && key != "" && key !in first {
          first := first[key := stored[i].id];
        }
      }
      assert Links(rawUris)[..|stored|] == Links(rawUris);
    }

    /** `upTo` rows are updated before the database fails (all of them when it does not). */
    method RemapActiveNodes(sub: nat, bindings: seq<ActiveBinding>, first: map<string, nat>, upTo: nat,
                            ghost m: map<nat, string>) returns (ok: bool, ghost done: set<nat>)
      requires ListsActive(bindings, m)
      modifies this`ifaces
      ensures Tables() == Remap(old(Tables()), sub, Among(m, done), first)
      ensures ok ==> done == m.Keys
      ensures upTo >= |bindings| ==> ok
    {
      hide Trim;
      done := {};
      ghost var before := Tables();
      assert Remap(before, sub, Among(m, done), first) == before;
      for i := 0 to |bindings|
        invariant done <= m.Keys
        invariant forall j :: 0 <= j < i ==> bindings[j].iface in done
        invariant Tables() == Remap(before, sub, Among(m, done), first)
      {
        hide Remap;
        if i >= upTo {
          return false, done;
        }
        var b := bindings[i];
        RemapOneMore(before, sub, m, done, b.iface, first);
        if b.link in first && b.iface in ifaces && ifaces[b.iface].sub == Some(sub) {
          ifaces := ifaces[b.iface := ifaces[b.iface].(active := Some(first[b.link]))];
        }
        done := done + {b.iface};
      }
      assert forall i :: i in m ==> i in done by {
        forall i | i in m ensures i in done { assert ActiveBinding(i, m[i]) in bindings; }
      }
      ok := true;
    }

    /** The inserts of the restore on the transaction's copy; `upTo` of them succeed. */
    method RestoreRows(bindings: seq<TunnelBinding>, first: map<string, nat>, upTo: nat, before: map<Slot, nat>,
                       ghost m: map<Slot, string>) returns (ok: bool, tx: map<Slot, nat>)
      requires ListsTunnels(bindings, m)
      requires forall k :: k in m ==> k !in before
      ensures ok ==> tx == before + Resolved(m, m.Keys, first)
      ensures upTo >= |bindings| ==> ok
    {
      tx := before;
      ok := true;
      ghost var done: set<Slot> := {};
      for i := 0 to |bindings|
        invariant tx == before + Resolved(m, done, first)
        invariant forall k :: k in done <==> exists j :: 0 <= j < i && bindings[j].slot == k
      {
        if i >= upTo {
          return false, tx;
        }
        var b := bindings[i];
        ResolvedOneMore(before, m, done, first, b.slot);
        ResolvedOf(m, done, first, b.slot);
        hide Resolved;
        if b.link in first {
          assert b.slot !in tx; // no second row in one slot
          tx := tx[b.slot := first[b.link]];
        }
        done := done + {b.slot};
      }
      AllDone(bindings, m, done);
    }

    /** One transaction: a failing insert rolls all of them back. */
    method RestoreTunnelNodes(bindings: seq<TunnelBinding>, first: map<string, nat>, upTo: nat,
                              ghost m: map<Slot, string>) returns (ok: bool)
      requires ListsTunnels(bindings, m)
      requires forall k :: k in m ==> k !in rows
      modifies this`rows
      ensures Tables() == if ok then Restore(old(Tables()), m, first) else old(Tables())
      ensures upTo >= |bindings| ==> ok
    {
      hide NodeOf;
      var tx;
      ok, tx := RestoreRows(bindings, first, upTo, rows, m);
      if ok {
        assert tx == Restore(Tables(), m, first).rows;
        rows := tx;
      }
    }

    /** The transactions of a refresh, in order; `stage` names the last one that committed. */
    method ReplaceNodes(id: nat, rawUris: seq<string>, fault: Fault) returns (ok: bool, ghost stage: Stage)
      requires nextNode > 0
      modifies this`nodes, this`ifaces, this`rows, this`nextNode
      ensures Tables() == At(old(Tables()), id, Links(rawUris), stage)
      ensures ok ==> stage == Restored
      ensures fault == NoFault || fault == ReadSub || fault == SaveSub ==> ok
      ensures fault == SnapshotActive || fault == SnapshotTunnels || fault == Delete ==> stage == Untouched
      ensures fault == InsertRow && rawUris != [] ==> stage == Wiped
      ensures fault == RestoreRow && !ok ==> stage.Remapping? && stage.done == ActiveBindings(old(Tables()), id).Keys
    {
      hide Trim, Wipe, Insert, Remap, Restore, ActiveBindings, TunnelBindings, Among, FirstByLink, Links;
      stage := Untouched;
      ok := false;
      ghost var before, links := Tables(), Links(rawUris);
      hide Tables;
      if fault == SnapshotActive { return; }
      var active := SnapshotActiveNodes(id);
      if fault == SnapshotTunnels { return; }
      var tunnels := SnapshotTunnelNodes(id);
      if fault == Delete { return; }
      DeleteNodes(id);
      stage := Wiped;
      if rawUris != [] {
        if fault == InsertRow { return; }
        ghost var base := nextNode;
        CounterOf(before, id);
        var stored := InsertNodes(id, rawUris);
        stage := Inserted;
        var first := FirstByUri(stored, base, rawUris);
        ghost var done;
        var remaps := if fault.RemapRow? then fault.k else |active|;
        ok, done := RemapActiveNodes(id, active, first, remaps, ActiveBindings(before, id));
        stage := Remapping(done);
        if !ok { return; }
        AmongAll(ActiveBindings(before, id), done);
        FreeSlots(before, id, links, done);
        var inserts := if fault == RestoreRow then 0 else |tunnels|;
        ok := RestoreTunnelNodes(tunnels, first, inserts, TunnelBindings(before, id));
        if !ok { return; }
      } else {
        NothingToRestore(before, id);
      }
      stage := Restored;
      ok := true;
    }

    ghost method CounterOf(before: Db, id: nat)
      requires Tables() == Wipe(before, id)
      ensures nextNode == before.nextNode
    {
    }

    ghost method FreeSlots(before: Db, id: nat, links: seq<string>, done: set<nat>)
      requires Tables() == At(before, id, links, Remapping(done))
      ensures forall k :: k in TunnelBindings(before, id) ==> k !in rows
    {
      WipedSlotsAreFree(before, id, links, done);
    }

    /** SubscriptionService.FetchAndUpdate after the download. */
    method FetchAndUpdate(id: nat, fetched: Fetched, fault: Fault, now: int) returns (out: Outcome, ghost stage: Stage)
      requires Valid(Tables())
      modifies this`subs, this`nodes, this`ifaces, this`rows, this`nextNode
      ensures Valid(Tables())
      ensures Tables() == At(old(Tables()), id, if fetched.Nodes? then Links(fetched.rawUris) else [], stage)
      ensures subs == SubsAfter(old(subs), id, fetched, fault, out, now)
      ensures out == Done && fetched.Nodes? && !IsManual(old(subs), id) ==> stage == Restored
      ensures out == Done || out == DbFailed || stage == Untouched
      ensures IsManual(old(subs), id) ==> stage == Untouched
      ensures fault == NoFault ==> out == Verdict(old(subs), id, fetched)
    {
      hide Trim, Valid, At, Links;
      ghost var before := Tables();
      ghost var links := if fetched.Nodes? then Links(fetched.rawUris) else [];
      AtUntouched(before, id, links);
      stage := Untouched;
      if fault == ReadSub { return DbFailed, stage; }
      if id !in subs { return NotFound, stage; }
      var sub := subs[id];
      if sub.name == MANUAL { return Done, stage; }
      if Trim(sub.url) == "" { return Invalid, stage; }
      match fetched {
        case BodyCut => out := FetchFailed;
        case NoResponse(msg) =>
          if fault != SaveSub { subs := subs[id := Failed(sub, msg)]; }
          out := FetchFailed;
        case NoVlessLines(msg) =>
          if fault != SaveSub { subs := subs[id := Failed(sub, msg)]; }
          out := FetchFailed;
        case Nodes(rawUris) =>
          CounterPositive();
          var ok;
          ok, stage := ReplaceNodes(id, rawUris, fault);
          RefreshProofs.StageValid(before, id, Links(rawUris), stage);
          if !ok || fault == SaveSub { return DbFailed, stage; }
          subs := subs[id := Refreshed(sub, |rawUris|, now)];
          out := Done;
      }
    }

    ghost method CounterPositive()
      requires Valid(Tables())
      ensures nextNode > 0
    {
    }

    /** The inserts of SetNodes on the transaction's copy; a missing reference is a foreign-key error. */
    method AssignRows(t: nat, ids: seq<nat>, others: map<Slot, nat>) returns (ok: bool, tx: map<Slot, nat>)
      requires forall k :: k in others ==> k.iface != t
      ensures ok <==> ids == [] || (t in ifaces && forall n :: n in ids ==> n in nodes)
      ensures ok ==> tx == others + Assigned(t, ids)
    {
      hide Assigned;
      tx := others;
      ok := true;
      NothingAssigned(others, t);
      for i := 0 to |ids|
        invariant tx == others + Assigned(t, ids[..i])
        invariant forall j :: 0 <= j < i ==> ids[j] in nodes
        invariant i > 0 ==> t in ifaces
      {
        if t !in ifaces || ids[i] !in nodes {
          assert ids[i] in ids;
          return false, tx;
        }
        assert Slot(t, i) !in tx; // no second row in one slot
        AssignOneMore(others, t, ids[..i], ids[i]);
        assert ids[..i + 1] == ids[..i] + [ids[i]];
        tx := tx[Slot(t, i) := ids[i]];
      }
      assert ids[..|ids|] == ids;
    }

    /** TunnelNodeRepo.SetNodes. */
    method AssignNodes(t: nat, ids: seq<nat>) returns (ok: bool)
      modifies this`rows
      ensures Tables() == SetNodes(old(Tables()), t, ids)
      ensures ok <==> ids == [] || (t in ifaces && forall n :: n in ids ==> n in nodes)
      ensures !ok ==> rows == old(rows)
      ensures ok ==> forall k: Slot :: k in rows <==>
        if k.iface == t then k.pos < |ids| else k in old(rows)
      ensures ok ==> forall k :: k in rows ==> rows[k] == if k.iface == t then ids[k.pos] else old(rows)[k]
    {
      hide NodeOf, Assigned;
      var others := map k | k in rows && k.iface != t :: rows[k];
      assert others == RowsOfOthers(Tables(), t);
      var tx;
      ok, tx := AssignRows(t, ids, others);
      if ok { rows := tx; }
    }

    /** TunnelNodeRepo.ListNodes: every row of `t`, in increasing position. */
    method ListNodes(t: nat) returns (out: seq<NodeRow>)
      ensures forall bound :: RowsBelow(Tables(), t, bound) ==> Shape(out) == Listing(Tables(), t, bound)
    {
      hide NodeOf;
      var last: nat := 0;
      var left := set k | k in rows && k.iface == t;
      while left != {}
        invariant forall k :: k in rows && k.iface == t && k !in left ==> k.pos < last
        invariant forall k :: k in left ==> k in rows && k.iface == t
        invariant last > 0 ==> Slot(t, last - 1) in rows
        decreases left
      {
        var k :| k in left;
        if k.pos >= last { last := k.pos + 1; }
        left := left - {k};
      }
      out := [];
      for p := 0 to last
        invariant Shape(out) == Listing(Tables(), t, p)
      {
        var k := Slot(t, p);
        if k in rows && rows[k] in nodes {
          ShapeAppend(out, nodes[rows[k]]);
          out := out + [nodes[rows[k]]];
        }
      }
      forall bound | RowsBelow(Tables(), t, bound)
        ensures Listing(Tables(), t, bound) == Listing(Tables(), t, last)
      {
        assert last > 0 ==> Slot(t, last - 1) in Tables().rows;
        ListingPast(Tables(), t, last, bound);
      }
    }

    /** TunnelRepo.Delete: one transaction, rolled back when there is no such tunnel. */
    method DeleteIface(t: nat) returns (ok: bool)
      modifies this`rows, this`ifaces, this`peers, this`stats
      ensures ok <==> t in old(ifaces)
      ensures Tables() == if ok then DeleteTunnel(old(Tables()), t) else old(Tables())
      ensures !ok ==> peers == old(peers) && stats == old(stats)
      ensures ok ==> peers == map p | p in old(peers) && old(peers)[p] != t :: old(peers)[p]
      ensures ok ==> stats == map s | s in old(stats) && !Counts(old(stats)[s], old(peers), t) :: old(stats)[s]
      ensures ok ==> forall s :: s in stats ==> stats[s].iface != Some(t)
      ensures ok ==> forall s :: s in stats && stats[s].peer.Some? && stats[s].peer.value in old(peers) ==>
        old(peers)[stats[s].peer.value] != t
      ensures forall s :: s in old(stats) && old(stats)[s].iface != Some(t) && old(stats)[s].peer.None? ==> s in stats
    {
      if t !in ifaces { return false; }
      var gone := set p | p in peers && peers[p] == t;
      stats := map s | s in stats && (stats[s].peer.Some? ==> stats[s].peer.value !in gone) :: stats[s];
      stats := map s | s in stats && stats[s].iface != Some(t) :: stats[s];
      peers := map p | p in peers && peers[p] != t :: peers[p];
      rows := map k | k in rows && k.iface != t :: rows[k];
      ifaces := ifaces - {t};
      ok := true;
    }
  }

  lemma NothingAssigned(others: map<Slot, nat>, t: nat)
    ensures others + Assigned(t, []) == others
  {
  }

  lemma AssignOneMore(others: map<Slot, nat>, t: nat, ids: seq<nat>, id: nat)
    ensures others + Assigned(t, ids + [id]) == (others + Assigned(t, ids))[Slot(t, |ids|) := id]
  {
  }

  function Shape(rows: seq<NodeRow>): seq<Node> {
    seq(|rows|, i requires 0 <= i < |rows| => NodeOf(rows[i]))
  }

  /** No row of the tunnel stands at or past `bound`. */
  ghost predicate RowsBelow(db: Db, t: nat, bound: nat) {
    forall k :: k in db.rows && k.iface == t ==> k.pos < bound
  }

  /** Past the last row a listing no longer grows. */
  lemma {:induction false} ListingPast(db: Db, t: nat, last: nat, bound: nat)
    requires RowsBelow(db, t, last) && last <= bound
    ensures Listing(db, t, bound) == Listing(db, t, last)
  {
    if last < bound {
      ListingPast(db, t, last, bound - 1);
      assert Slot(t, bound - 1) !in db.rows;
    }
  }

  lemma ShapeAppend(rows: seq<NodeRow>, row: NodeRow)
    ensures Shape(rows + [row]) == Shape(rows) + [NodeOf(row)]
  {
    hide NodeOf;
  }

  lemma AtUntouched(db: Db, sub: nat, links: seq<string>)
    ensures At(db, sub, links, Untouched) == db
  {
  }
}
