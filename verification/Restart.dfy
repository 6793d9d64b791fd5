/** Shutting the process down and starting a new one. */
module Restart {
  import opened Text
  import opened Naming
  import opened Host
  import opened Lifecycle
  import opened Isolation
  import opened OwnShare
  import opened StartGuard
  import opened LifecycleProofs
  import opened Recovery

  lemma OneDown(w: World, i: nat)
    requires Inv(w) && i in w.rows
    ensures var v := TeardownRuntime(w, i);
      Inv(v) && v.rows == w.rows && forall j :: j in v.running <==> j in w.running && j != i
  {
    DoInv(w, StopOp(i, true, Saved(false, false)));
    StopIsTeardown(w, i);
    TeardownMarks(w, i);
    hide Inv, TeardownRuntime, Do;
  }

  lemma StopIsTeardown(w: World, i: nat)
    requires i in w.rows
    ensures Do(w, StopOp(i, true, Saved(false, false))) == TeardownRuntime(w, i)
  {
  }

  lemma {:induction false} ShutdownEnds(w: World, ids: seq<nat>, j: nat)
    requires Inv(w)
    ensures var v := ShutdownAll(w, ids);
      Inv(v) && v.rows == w.rows && (j in v.running <==> j in w.running && j !in ids)
    decreases |ids|
  {
    if ids != [] {
      var i := ids[0];
      assert i in w.running ==> i in w.rows;
      hide Inv, TeardownRuntime;
      if i in w.rows {
        OneDown(w, i);
        ShutdownEnds(TeardownRuntime(w, i), ids[1..], j);
      } else {
        ShutdownEnds(w, ids[1..], j);
      }
      assert ids == [i] + ids[1..];
    }
  }

  lemma TeardownMarks(w: World, i: nat)
    requires i in w.rows
    ensures TeardownRuntime(w, i).rows == w.rows
    ensures forall j :: j in TeardownRuntime(w, i).running <==> j in w.running && j != i
  {
  }

  /** With no tunnel up, losing the process's devices and instances loses nothing. */
  lemma NewProcessInv(w: World)
    requires Inv(w) && w.running == {}
    ensures Inv(NewProcess(w))
  {
    var v := NewProcess(w);
    forall id | id in v.rows
      ensures GoodAt(v, id, true)
    {
      assert GoodAt(w, id, true);
      assert Absent(Keep(w.host, Mine(id)), id);
      FewerRes(w.host, v.host, id);
      hide Absent, Keep, Installed;
    }
  }

  lemma FewerRes(h: Host, g: Host, id: nat)
    requires g.rules == h.rules && g.res <= h.res && g.chains == h.chains && Absent(Keep(h, Mine(id)), id)
    ensures Absent(Keep(g, Mine(id)), id)
  {
  }

  // ----- RestoreRunning -----

  lemma {:induction false} RestoreInv(w: World, ids: seq<nat>, e: nat -> StartEnv)
    ensures Rec(w) ==> Rec(RestoreRunning(w, ids, e))
    ensures Inv(w) ==> Inv(RestoreRunning(w, ids, e))
    decreases |ids|
  {
    hide Rec, Inv, Start;
    if ids != [] {
      if Rec(w) { StartRec(w, ids[0], e(ids[0])); }
      if Inv(w) { StartInv(w, ids[0], e(ids[0])); }
      RestoreInv(Start(w, ids[0], e(ids[0])).world, ids[1..], e);
    }
  }

  lemma StartInv(w: World, id: nat, e: StartEnv)
    requires Inv(w)
    ensures Inv(Start(w, id, e).world)
  {
    hide Inv, Start;
    DoInv(w, StartOp(id, e));
  }

  /** RestoreRunning brings up exactly the listed tunnels whose own Start can succeed, whatever
      becomes of the others. */
  lemma {:induction false} RestoreIff(w: World, ids: seq<nat>, e: nat -> StartEnv, id: nat)
    requires Rec(w)
    ensures id in RestoreRunning(w, ids, e).running <==> id in w.running || (id in ids && CanStart(w, id, e(id)))
    decreases |ids|
  {
    hide Rec, Start, CanStart;
    if ids != [] {
      var i, rest := ids[0], ids[1..];
      var next := Start(w, i, e(i)).world;
      StartRec(w, i, e(i));
      StartsIff(w, i, e(i));
      RestoreIff(next, rest, e, id);
      RecNames(w);
      if id != i || !CanStart(w, i, e(i)) { StartLeavesGuard(w, i, e(i), id, e(id)); }
      assert ids == [i] + rest;
    }
  }

  lemma RecNames(w: World)
    requires Rec(w)
    ensures OwnNames(w)
  {
    hide OwnNames, GoodAt;
  }

  lemma RunningIsPersisted(w: World, id: nat)
    requires Rec(w) && id in w.running
    ensures id in w.rows && w.rows[id].status == Running
  {
    hide Installed, Keep;
    assert GoodAt(w, id, false);
  }

  /** ShutdownAll, a new process and RestoreRunning over the ids persisted as running bring back,
      fully installed, exactly the persisted tunnels whose own Start can succeed; every tunnel that
      was running is among the persisted. */
  lemma RestartRestores(w: World, drained: seq<nat>, persisted: seq<nat>, e: nat -> StartEnv, id: nat)
    requires Inv(w) && forall i :: i in drained <==> i in w.running
    requires forall i :: i in persisted <==> i in w.rows && w.rows[i].status == Running
    ensures var up := NewProcess(ShutdownAll(w.(running := {}), drained)); var v := RestoreRunning(up, persisted, e);
      && Inv(v) && up.rows == w.rows
      && (id in v.running <==> id in persisted && CanStart(up, id, e(id)))
      && (id in w.running ==> id in persisted)
  {
    hide Inv, Rec, ShutdownAll, RestoreRunning, CanStart, NewProcess;
    AllDown(w, drained);
    var down := ShutdownAll(w.(running := {}), drained);
    NewProcessInv(down);
    var up := NewProcess(down);
    DeadFacts(down);
    InvIsRec(up);
    InvIsRec(w);
    RestoreInv(up, persisted, e);
    RestoreIff(up, persisted, e, id);
    if id in w.running { RunningIsPersisted(w, id); }
  }

  /** The same after a process that died without ShutdownAll. */
  lemma CrashRestores(w: World, persisted: seq<nat>, e: nat -> StartEnv, id: nat)
    requires Rec(w)
    requires forall i :: i in persisted <==> i in w.rows && w.rows[i].status == Running
    ensures var up := NewProcess(w); var v := RestoreRunning(up, persisted, e);
      && Rec(v) && up.rows == w.rows
      && (id in v.running <==> id in persisted && CanStart(up, id, e(id)))
      && (id in w.running ==> id in persisted)
  {
    hide Rec, RestoreRunning, CanStart, NewProcess;
    CrashRec(w);
    DeadFacts(w);
    RestoreInv(NewProcess(w), persisted, e);
    RestoreIff(NewProcess(w), persisted, e, id);
    if id in w.running { RunningIsPersisted(w, id); }
  }

  /** Emptying the RunSet before the teardowns changes nothing the teardowns look at. */
  lemma {:induction false} DrainFirst(w: World, ids: seq<nat>)
    ensures ShutdownAll(w.(running := {}), ids) == ShutdownAll(w, ids).(running := {})
    decreases |ids|
  {
    hide TearDown, TunName;
    if ids != [] {
      if ids[0] in w.rows {
        assert TeardownRuntime(w.(running := {}), ids[0]) == TeardownRuntime(w, ids[0]).(running := {});
        DrainFirst(TeardownRuntime(w, ids[0]), ids[1..]);
      } else {
        DrainFirst(w, ids[1..]);
      }
    }
  }

  lemma AllDown(w: World, drained: seq<nat>)
    requires Inv(w) && forall i :: i in drained <==> i in w.running
    ensures var v := ShutdownAll(w.(running := {}), drained);
      Inv(v) && v.rows == w.rows && v.running == {}
  {
    hide Inv, ShutdownAll;
    DrainFirst(w, drained);
    ShutdownEnds(w, drained, 0);
    var v := ShutdownAll(w, drained);
    forall j: nat
      ensures j !in v.running
    {
      ShutdownEnds(w, drained, j);
    }
    assert v.running == {};
    assert v == v.(running := {});
  }

  /** The invariant holds of a host that has nothing of any tunnel yet. */
  lemma Boot(w: World)
    requires w.running == {} && OwnNames(w)
    requires Prerouting in w.host.rules && Forward in w.host.rules && Postrouting in w.host.rules
    requires forall t, r :: t in w.host.rules && r in w.host.rules[t] ==> r.Foreign?
    requires forall id, r :: id in w.rows && r in w.host.res ==> !ResOf(id, r)
    ensures Inv(w)
  {
    forall id | id in w.rows
      ensures GoodAt(w, id, true)
    {
      BootShare(w.host, id);
      hide Keep, Absent;
    }
  }

  lemma BootShare(h: Host, id: nat)
    requires Prerouting in h.rules && Forward in h.rules && Postrouting in h.rules
    requires forall t, r :: t in h.rules && r in h.rules[t] ==> r.Foreign?
    requires forall r :: r in h.res ==> !ResOf(id, r)
    ensures Absent(Keep(h, Mine(id)), id)
  {
    forall t | t in h.rules
      ensures Filter(h.rules[t], RuleFn(Mine(id))) == []
    {
      forall r | r in h.rules[t]
        ensures !RuleFn(Mine(id))(r)
      {
        assert r.Foreign? && TunOf(r) == None;
      }
      FilterNone(h.rules[t], RuleFn(Mine(id)));
    }
    assert Keep(h, Mine(id)).res - {OwnRule(id)} == {};
  }

  // ----- what the user stopped stays down -----

  predicate NoStart(evs: seq<Event>, id: nat) {
    forall ev :: ev in evs ==> !(ev.Act? && ev.op.StartOp? && ev.op.id == id)
  }

  predicate Down(w: World, id: nat) {
    id in w.rows && w.rows[id].status == Stopped && id !in w.running
  }

  /** What a Stop of which at least one write succeeds leaves in the row. */
  lemma StopPersists(w: World, id: nat, saved: Saved)
    requires id in w.rows && (saved.row || saved.status)
    ensures var v := Stop(w, id, true, saved);
      && Down(v, id) && v.rows[id].error == "" && (saved.row ==> v.rows[id].upSince == None)
      && v.rows[id].address == w.rows[id].address && v.rows[id].tunName == w.rows[id].tunName
      && v.rows[id].mssClamp == w.rows[id].mssClamp
      && forall j :: j != id ==> (j in v.rows <==> j in w.rows) && (j in v.rows ==> v.rows[j] == w.rows[j])
  {
    hide TearDown, TunName;
  }

  lemma StaysDown(w: World, ev: Event, id: nat)
    requires Down(w, id) && !(ev.Act? && ev.op.StartOp? && ev.op.id == id)
    ensures Down(Happen(w, ev), id)
  {
    hide StartWg, TearDown, TunName;
  }

  lemma {:induction false} LiveStaysDown(w: World, evs: seq<Event>, id: nat)
    requires Down(w, id) && NoStart(evs, id)
    ensures Down(Live(w, evs), id)
    decreases |evs|
  {
    hide Happen, Down;
    if evs != [] {
      assert evs[0] in evs && forall ev :: ev in evs[1..] ==> ev in evs;
      StaysDown(w, evs[0], id);
      LiveStaysDown(Happen(w, evs[0]), evs[1..], id);
    }
  }

  /** A tunnel that was stopped and not started since is persisted as stopped, and neither the death
      of the process nor an orderly restart brings it back. */
  lemma StoppedStaysDown(w: World, id: nat, saved: Saved, evs: seq<Event>,
                         persisted: seq<nat>, drained: seq<nat>, e: nat -> StartEnv)
    requires Rec(w) && id in w.rows && (saved.row || saved.status) && NoStart(evs, id)
    requires AllowedEvents(Stop(w, id, true, saved), evs)
    requires var v := Live(Stop(w, id, true, saved), evs);
      && (forall i :: i in persisted <==> i in v.rows && v.rows[i].status == Running)
      && (forall i :: i in drained <==> i in v.running)
    ensures var v := Live(Stop(w, id, true, saved), evs);
      && Down(v, id)
      && id !in RestoreRunning(NewProcess(v), persisted, e).running
      && (Inv(v) ==> id !in RestoreRunning(NewProcess(ShutdownAll(v.(running := {}), drained)), persisted, e).running)
  {
    hide Rec, Inv, Stop, Live, AllowedEvents, NewProcess, RestoreRunning, ShutdownAll, CanStart;
    StopPersists(w, id, saved);
    var stopped := Stop(w, id, true, saved);
    HappenRec(w, Act(StopOp(id, true, saved)));
    LiveRec(stopped, evs);
    LiveStaysDown(stopped, evs, id);
    var v := Live(stopped, evs);
    CrashRestores(v, persisted, e, id);
    if Inv(v) { RestartRestores(v, drained, persisted, e, id); }
  }
}
