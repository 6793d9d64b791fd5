/** Exactly when a Start succeeds, in terms of its calls and of what the host has. */
module StartGuard {
  import opened Text
  import opened Naming
  import opened Tproxy
  import opened Host
  import opened Lifecycle
  import opened Isolation

  predicate CanStart(w: World, id: nat, e: StartEnv) {
    && id in w.rows && e.ready && w.rows[id].address.Some?
    && CallsWork(w.host, id, w.rows[id].address.value, w.rows[id].mssClamp, e)
  }

  /** Start succeeds exactly when the tunnel is already up or all these calls work, and then marks it. */
  lemma StartsIff(w: World, id: nat, e: StartEnv)
    ensures Start(w, id, e).ok <==> id in w.running || CanStart(w, id, e)
    ensures Start(w, id, e).world.running == if CanStart(w, id, e) then w.running + {id} else w.running
  {
    hide StartWg, SetupsWork, TunName;
    assert id in w.running ==> w.running + {id} == w.running;
  }

  /** What a Start leaves in the rows: the running state with its time, or the failure, unless the
      write that reports it fails too; a Start whose only failing call is the last write reports nothing. */
  lemma StartPersists(w: World, id: nat, e: StartEnv)
    requires id in w.rows && id !in w.running
    ensures var row, rows := w.rows[id], Start(w, id, e).world.rows;
      if CanStart(w, id, e) then
        rows == w.rows[id := Row("tun-wg" + Decimal(id), row.address, row.mssClamp, Running, "", Some(e.now))]
      else if e.saveStatus && e.ready && row.address.Some?
              && !SetupsWork(w.host, id, row.address.value, row.mssClamp, e) then
        rows == w.rows[id := Row(row.tunName, row.address, row.mssClamp, Failed, e.failure, row.upSince)]
      else rows == w.rows
  {
    hide StartWg, SetupsWork;
  }

  lemma CanStartInShare(w: World, id: nat, e: StartEnv)
    ensures CanStart(KeepWorld(w, Mine(id)), id, e) <==> CanStart(w, id, e)
  {
    hide BuildChain, ChainName, Filter, SelRes;
  }

  /** A Start makes no difference to whether another can succeed, nor does a failed one to itself. */
  lemma StartLeavesGuard(w: World, id: nat, e: StartEnv, j: nat, f: StartEnv)
    requires OwnNames(w) && (j == id ==> f == e && !CanStart(w, id, e))
    ensures CanStart(Start(w, id, e).world, j, f) <==> CanStart(w, j, f)
  {
    hide StartWg, TunName, ChainName, BuildChain, KeepWorld;
    if j != id {
      hide CanStart, Start;
      StartKeep(w, id, e, Mine(j));
      CanStartInShare(w, j, f);
      CanStartInShare(Start(w, id, e).world, j, f);
    }
  }
}
