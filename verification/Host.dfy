/** The host a tunnel is set up on, the gateway's primitive actions on it, and the part of it that
    belongs to one tunnel. */
module Host {
  import opened Text
  import opened Naming
  import opened Tproxy

  datatype Table = Prerouting | Forward | DockerUser | Postrouting

  /** A rule of a built-in chain. */
  datatype Rule =
    | Jump(tun: string, chain: string)
    | AcceptIn(tun: string)
    | AcceptOut(tun: string)
    | Masquerade(tun: string, subnet: string)
    | LegacyIcmp(subnet: string)
    | Foreign(text: string)

  /** Everything else that is there or not there. */
  datatype Res =
    | Device(id: nat, tun: string)
    | Xray(id: nat)
    | IpRule(mark: nat, table: nat)
    | Route(table: nat, dst: string, local: bool)

  const DEFAULT_DST := "0.0.0.0/0"

  /** `rules` has a DockerUser entry exactly when Docker created that chain; `chains` are the
      user-defined mangle chains. */
  datatype Host = Host(rules: map<Table, seq<Rule>>, res: set<Res>, chains: map<string, seq<MangleRule>>)

  ghost predicate Tables(h: Host) {
    Prerouting in h.rules && Forward in h.rules && Postrouting in h.rules
  }

  // ----- primitives -----

  /** Of g and h only the contents of rule lists differ. */
  predicate SameBesideRules(g: Host, h: Host) {
    g.res == h.res && g.chains == h.chains && (DockerUser in g.rules <==> DockerUser in h.rules)
  }

  function InsertHead(h: Host, t: Table, r: Rule): (g: Host)
    ensures SameBesideRules(g, h)
  {
    if t in h.rules then h.(rules := h.rules[t := [r] + h.rules[t]]) else h
  }

  function Append(h: Host, t: Table, r: Rule): (g: Host)
    ensures SameBesideRules(g, h)
  {
    if t in h.rules then h.(rules := h.rules[t := h.rules[t] + [r]]) else h
  }

  /** iptables -D removes the first rule that matches, and fails harmlessly when none does. */
  function DeleteFirst(l: seq<Rule>, r: Rule): seq<Rule> {
    if l == [] then []
    else if l[0] == r then l[1..]
    else [l[0]] + DeleteFirst(l[1..], r)
  }

  function Delete(h: Host, t: Table, r: Rule): (g: Host)
    ensures SameBesideRules(g, h)
  {
    if t in h.rules then h.(rules := h.rules[t := DeleteFirst(h.rules[t], r)]) else h
  }

  function Add(h: Host, r: Res): Host {
    h.(res := h.res + {r})
  }

  function Drop(h: Host, r: Res): Host {
    h.(res := h.res - {r})
  }

  function InTable(r: Res, t: nat): bool {
    r.Route? && r.table == t
  }

  /** netlink.RouteReplace of the local default route. */
  function ReplaceDefault(h: Host, t: nat): Host {
    h.(res := (set r | r in h.res && !(InTable(r, t) && r.dst == DEFAULT_DST)) + {Route(t, DEFAULT_DST, true)})
  }

  /** Every route of a table, whoever put it there. */
  function FlushTable(h: Host, t: nat): Host {
    h.(res := set r | r in h.res && !InTable(r, t))
  }

  function SetChain(h: Host, name: string, rules: seq<MangleRule>): Host {
    h.(chains := h.chains[name := rules])
  }

  function DropChain(h: Host, name: string): Host {
    h.(chains := h.chains - {name})
  }

  // ----- whose is what -----

  /** A tunnel's share of the host, or everything but it. */
  datatype Sel = Mine(id: nat) | NotMine(id: nat)

  predicate Takes(s: Sel, id: nat) {
    if s.Mine? then s.id == id else s.id != id
  }

  function TunOf(r: Rule): Option<string> {
    match r
    case Jump(tun, _) => Some(tun)
    case AcceptIn(tun) => Some(tun)
    case AcceptOut(tun) => Some(tun)
    case Masquerade(tun, _) => Some(tun)
    case _ => None
  }

  predicate RuleOf(id: nat, r: Rule) {
    TunOf(r) == Some(TunName(id))
  }

  predicate ResOf(id: nat, r: Res) {
    match r
    case Device(i, _) => i == id
    case Xray(i) => i == id
    case IpRule(mark, table) => mark == RuleMark(id) && table == RouteTable(id)
    case Route(table, _, _) => table == RouteTable(id)
  }

  /** Rules left by builds that predate the current one belong to no share: tearing NAT down exists
      to delete them. */
  predicate SelRule(s: Sel, r: Rule) { !r.LegacyIcmp? && RuleOf(s.id, r) == s.Mine? }

  predicate SelRes(s: Sel, r: Res) { ResOf(s.id, r) == s.Mine? }

  predicate SelChain(s: Sel, name: string) { (name == ChainName(s.id)) == s.Mine? }

  function RuleFn(s: Sel): Rule -> bool {
    r => SelRule(s, r)
  }

  /** The selected share of the host. */
  function Keep(h: Host, s: Sel): Host {
    Host(map t | t in h.rules :: Filter(h.rules[t], RuleFn(s)),
         set r | r in h.res && SelRes(s, r),
         map c | c in h.chains && SelChain(s, c) :: h.chains[c])
  }

  lemma KeptRule(h: Host, s: Sel, t: Table, r: Rule)
    ensures t in Keep(h, s).rules && r in Keep(h, s).rules[t] <==> t in h.rules && r in h.rules[t] && SelRule(s, r)
  {
    hide SelRule, SelRes, SelChain;
    assert RuleFn(s)(r) == SelRule(s, r);
  }

  // ----- a primitive on a selected item acts on the share; on another item it is invisible there -----

  lemma {:induction false} FilterDelete(l: seq<Rule>, r: Rule, keep: Rule -> bool)
    ensures Filter(DeleteFirst(l, r), keep) == if keep(r) then DeleteFirst(Filter(l, keep), r) else Filter(l, keep)
  {
    if l != [] {
      FilterDelete(l[1..], r, keep);
      if l[0] == r {
        assert keep(r) ==> ([l[0]] + Filter(l[1..], keep))[1..] == Filter(l[1..], keep);
      } else {
        assert ([l[0]] + DeleteFirst(l[1..], r))[1..] == DeleteFirst(l[1..], r);
        if keep(l[0]) {
          assert ([l[0]] + Filter(l[1..], keep))[1..] == Filter(l[1..], keep);
        }
      }
    }
  }

  lemma {:induction false} DeleteAbsent(l: seq<Rule>, r: Rule)
    requires r !in l
    ensures DeleteFirst(l, r) == l
  {
    if l != [] { DeleteAbsent(l[1..], r); }
  }

  lemma {:induction false} DeleteAppended(l: seq<Rule>, r: Rule)
    requires r !in l
    ensures DeleteFirst(l + [r], r) == l
  {
    if l == [] {
      assert l + [r] == [r];
    } else {
      DeleteAppended(l[1..], r);
      assert (l + [r])[1..] == l[1..] + [r];
    }
  }

  lemma UpdateKeep(h: Host, t: Table, l: seq<Rule>, s: Sel)
    ensures Keep(h.(rules := h.rules[t := l]), s) == Keep(h, s).(rules := Keep(h, s).rules[t := Filter(l, RuleFn(s))])
    ensures t in h.rules ==> t in Keep(h, s).rules && Keep(h, s).rules[t] == Filter(h.rules[t], RuleFn(s))
    ensures t in Keep(h, s).rules ==> t in h.rules
  {
    hide RuleFn, Filter, SelRes, SelChain;
  }

  /** An update of one rule list that leaves its share alone is invisible in the share. */
  lemma SameUpdate(h: Host, t: Table, s: Sel)
    requires t in h.rules
    ensures Keep(h, s).(rules := Keep(h, s).rules[t := Filter(h.rules[t], RuleFn(s))]) == Keep(h, s)
  {
  }

  lemma InsertHeadKeep(h: Host, t: Table, r: Rule, s: Sel)
    ensures Keep(InsertHead(h, t, r), s) == if SelRule(s, r) then InsertHead(Keep(h, s), t, r) else Keep(h, s)
  {
  }

  lemma AppendKeep(h: Host, t: Table, r: Rule, s: Sel)
    ensures Keep(Append(h, t, r), s) == if SelRule(s, r) then Append(Keep(h, s), t, r) else Keep(h, s)
  {
    UpdateKeep(h, t, [], s);
    if t in h.rules {
      UpdateKeep(h, t, h.rules[t] + [r], s);
      SameUpdate(h, t, s);
      FilterConcat(h.rules[t], [r], RuleFn(s));
      assert RuleFn(s)(r) == SelRule(s, r);
      assert Filter([r], RuleFn(s)) == if SelRule(s, r) then [r] else [];
      hide Keep, SelRule, Filter;
      assert Filter(h.rules[t], RuleFn(s)) + [] == Filter(h.rules[t], RuleFn(s));
    }
  }

  lemma DeleteKeep(h: Host, t: Table, r: Rule, s: Sel)
    ensures Keep(Delete(h, t, r), s) == if SelRule(s, r) then Delete(Keep(h, s), t, r) else Keep(h, s)
  {
    UpdateKeep(h, t, [], s);
    if t in h.rules {
      UpdateKeep(h, t, DeleteFirst(h.rules[t], r), s);
      SameUpdate(h, t, s);
      FilterDelete(h.rules[t], r, RuleFn(s));
      assert RuleFn(s)(r) == SelRule(s, r);
      hide Keep, SelRule, Filter, DeleteFirst;
    }
  }

  lemma AddKeep(h: Host, r: Res, s: Sel)
    ensures Keep(Add(h, r), s) == if SelRes(s, r) then Add(Keep(h, s), r) else Keep(h, s)
    ensures Keep(Drop(h, r), s) == if SelRes(s, r) then Drop(Keep(h, s), r) else Keep(h, s)
  {
  }

  lemma RoutesKeep(h: Host, id: nat, s: Sel)
    ensures Keep(ReplaceDefault(h, RouteTable(id)), s)
         == if Takes(s, id) then ReplaceDefault(Keep(h, s), RouteTable(id)) else Keep(h, s)
    ensures Keep(FlushTable(h, RouteTable(id)), s)
         == if Takes(s, id) then FlushTable(Keep(h, s), RouteTable(id)) else Keep(h, s)
  {
  }

  lemma ChainKeep(h: Host, name: string, rules: seq<MangleRule>, s: Sel)
    ensures Keep(SetChain(h, name, rules), s)
         == if SelChain(s, name) then SetChain(Keep(h, s), name, rules) else Keep(h, s)
    ensures Keep(DropChain(h, name), s) == if SelChain(s, name) then DropChain(Keep(h, s), name) else Keep(h, s)
  {
    hide SelRule, SelRes, Filter, ChainName;
  }

  /** Every item a tunnel works with is in its own share and in nobody else's. */
  lemma Selects(s: Sel, id: nat)
    ensures forall r :: RuleOf(id, r) ==> (SelRule(s, r) <==> Takes(s, id))
    ensures forall sub :: !SelRule(s, LegacyIcmp(sub))
    ensures SelChain(s, ChainName(id)) <==> Takes(s, id)
    ensures forall tun :: SelRes(s, Device(id, tun)) <==> Takes(s, id)
    ensures SelRes(s, Xray(id)) <==> Takes(s, id)
    ensures SelRes(s, IpRule(RuleMark(id), RouteTable(id))) <==> Takes(s, id)
    ensures forall dst, local :: SelRes(s, Route(RouteTable(id), dst, local)) <==> Takes(s, id)
  {
    if s.id != id { NamesDiffer(s.id, id); }
    hide TunName, ChainName;
  }

  /** With an empty share of its own rules, and no legacy rule about, the rest is the whole list. */
  lemma RulesAreRest(h: Host, id: nat, t: Table)
    requires t in h.rules && Filter(h.rules[t], RuleFn(Mine(id))) == []
    requires forall r :: r in h.rules[t] ==> !r.LegacyIcmp?
    ensures Filter(h.rules[t], RuleFn(NotMine(id))) == h.rules[t]
  {
    hide RuleOf;
    forall r | r in h.rules[t]
      ensures RuleFn(NotMine(id))(r)
    {
      assert !RuleFn(Mine(id))(r);
    }
    FilterAll(h.rules[t], RuleFn(NotMine(id)));
  }
}
