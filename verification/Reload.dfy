/** Reloading the nodes of a running tunnel replaces its xray instance and leaves its chain. */
module Reload {
  import opened Text
  import opened Naming
  import opened Tproxy
  import opened Lifecycle
  import opened LifecycleProofs
  import opened Recovery
  import opened ReachableChains
  import SL = ShareLink
  import SLT = ShareLinkTheorems

  /** The flow that stands for all nodes: the first one's, as re-parsed. */
  function FlowOf(j: SL.Json, nodes: seq<SL.Node>): string {
    if nodes == [] then "" else SLT.Running(j, nodes[0]).flow
  }

  /** For a saved node that is the flow it was saved with. */
  lemma FlowOfSaved(j: SL.Json, input: SL.Input, n: SL.Node, t: SL.Transport, s: SL.Security,
                    ts: SL.TSpec, ss: SL.SSpec, rest: seq<SL.Node>)
    requires SLT.Built(j, input, n, t, s, ts, ss)
    ensures FlowOf(j, [n] + rest) == n.flow == Trim(input.flow)
  {
    hide SLT.Running, Trim, SL.BuildQuery, SL.TransportName, SL.SecurityName, SL.EncodeT, SL.EncodeS;
    SLT.RunningKeepsTheRest(j, input, n, t, s, ts, ss);
  }

  /** Two flows call for the same treatment of every packet exactly when both drop QUIC or neither does. */
  lemma SameTreatmentIff(c: ChainCfg, flow: string)
    ensures (forall p :: Decide(c, p) == Decide(c.(flow := flow), p))
      <==> DropQuicVision(c.flow) == DropQuicVision(flow)
  {
    hide Trim, Lower, Contains;
    VisionIsNotBlank(c.flow);
    VisionIsNotBlank(flow);
    hide DropQuicVision, VisionWithoutUdp443;
    var quic := Packet("", Udp, 443, false, false);
    if DropQuicVision(c.flow) != DropQuicVision(flow) {
      assert Decide(c, quic) != Decide(c.(flow := flow), quic);
    }
  }

  /** After a reload of a running tunnel its chain treats every packet as the nodes that now run call
      for if and only if they and the flow of the last Start agree on dropping QUIC. */
  lemma ReloadAgreesIff(w: World, s: Record, evs: seq<Event>, id: nat, j: SL.Json, nodes: seq<SL.Node>)
    requires Rec(w) && AllowedEvents(w, evs) && AsStarted(w, s) && Current(w, s)
    requires id in Live(w, evs).running
    ensures var v, t := Live(w, evs), LastStarts(s, w, evs);
      && id in t && ChainName(id) in v.host.chains
      && ((forall p :: Eval(v.host.chains[ChainName(id)], p, None)
             == Decide(ChainCfg(t[id].gateway, FlowOf(j, nodes), t[id].mssClamp, 13000 + id, 0x1000 + id), p))
          <==> DropQuicVision(t[id].flow) == DropQuicVision(FlowOf(j, nodes)))
  {
    hide Rec, Live, LastStarts, AllowedEvents, AsStarted, Current, Eval, Decide, TunName, ChainName, FlowOf,
      DropQuicVision;
    RunningChainDecides(w, s, evs, id);
    var u, chain := LastStarts(s, w, evs)[id], Live(w, evs).host.chains[ChainName(id)];
    var c := ChainCfg(u.gateway, u.flow, u.mssClamp, 13000 + id, 0x1000 + id);
    var d := ChainCfg(u.gateway, FlowOf(j, nodes), u.mssClamp, 13000 + id, 0x1000 + id);
    SameTreatmentIff(c, FlowOf(j, nodes));
    assert c.(flow := FlowOf(j, nodes)) == d;
    forall p
      ensures Eval(chain, p, None) == Decide(d, p) <==> Decide(c, p) == Decide(d, p)
    {
      assert Eval(chain, p, None) == Decide(c, p);
    }
    assert (forall p :: Eval(chain, p, None) == Decide(d, p)) <==> (forall p :: Decide(c, p) == Decide(d, p));
  }
}
