/** Whose routes a tunnel touches. */
module KernelTables {
  import opened Naming
  import opened Host
  import opened Lifecycle
  import opened Isolation

  lemma RouteInShare(h: Host, id: nat, r: Res)
    requires r.Route? && r.table != RouteTable(id)
    ensures r in Keep(h, NotMine(id)).res <==> r in h.res
  {
  }

  /** No operation on a tunnel adds or deletes a route of another table. */
  lemma OtherTablesUntouched(w: World, op: Op, r: Res)
    requires OwnNames(w) && r.Route? && r.table != RouteTable(op.id)
    ensures r in Do(w, op).host.res <==> r in w.host.res
  {
    DoKeep(w, op, NotMine(op.id));
    RouteInShare(w.host, op.id, r);
    RouteInShare(Do(w, op).host, op.id, r);
    assert KeepWorld(Do(w, op), NotMine(op.id)).host == KeepWorld(w, NotMine(op.id)).host;
    hide Do, Keep;
  }

  /** Stop empties its whole route table, whoever put the routes there. */
  lemma StopEmptiesTable(w: World, id: nat, saved: Saved, r: Res)
    requires id in w.rows && InTable(r, RouteTable(id))
    ensures r !in Stop(w, id, true, saved).host.res
  {
  }

  /** The kernel's own tables are safe from a tunnel's teardown except for three ids. */
  lemma KernelRoutesSurviveStop(w: World, id: nat, saved: Saved, r: Res)
    requires OwnNames(w) && id in w.rows && r.Route? && r.table in KERNEL_TABLES && r in w.host.res
    ensures !(153 <= id <= 155) ==> r in Stop(w, id, true, saved).host.res
    ensures 153 <= id <= 155 && r.table == RouteTable(id) ==> r !in Stop(w, id, true, saved).host.res
  {
    KernelTableIds(id);
    if r.table == RouteTable(id) {
      StopEmptiesTable(w, id, saved, r);
    } else {
      OtherTablesUntouched(w, StopOp(id, true, saved), r);
    }
    hide Stop;
  }
}
