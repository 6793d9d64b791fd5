/** The loops behind share links: filling url.Values and splitting an ALPN list. */
module ShareLinkBuilder {
  import opened Text
  import opened ShareLink

  /** `for k, vs := range share { q.Set(k, v) }`; Go visits a map in no particular order. */
  method CopyInto(q: Query, share: Query) returns (out: Query)
    ensures out == q + share
  {
    out := q;
    var left := share.Keys;
    while left != {}
      invariant left <= share.Keys
      invariant out.Keys == q.Keys + (share.Keys - left)
      invariant forall k :: k in out ==> out[k] == if k in share && k !in left then share[k] else q[k]
      decreases |left|
    {
      var k :| k in left;
      out := out[k := share[k]];
      left := left - {k};
    }
  }

  /** The query buildRawURI encodes. */
  method FillQuery(input: Input, t: Transport, tSpec: TSpec, s: Security, sSpec: SSpec) returns (q: Query)
    ensures q == BuildQuery(input, t, tSpec, s, sSpec)
  {
    hide Trim, ShareT, ShareS;
    q := map[KType := TransportName(t), KSecurity := SecurityName(s)];
    var encryption := OrElse(Trim(input.encryption), "none");
    if encryption != "" && encryption != "none" {
      q := q[KEncryption := encryption];
    }
    var pe, flow := Trim(input.packetEncoding), Trim(input.flow);
    if pe != "" {
      q := q[KPacketEncoding := pe];
    }
    if flow != "" {
      q := q[KFlow := flow];
    }
    assert q == CommonQuery(input, t, s);
    q := CopyInto(q, ShareT(tSpec));
    q := CopyInto(q, ShareS(sSpec));
  }

  lemma {:induction false} TrimAllSnoc(parts: seq<string>, last: string)
    ensures TrimAll(parts + [last]) == TrimAll(parts) + if Trim(last) == "" then [] else [Trim(last)]
  {
    hide Trim;
    if parts == [] {
      assert ([] + [last])[1..] == [];
    } else {
      TrimAllSnoc(parts[1..], last);
      assert (parts + [last])[1..] == parts[1..] + [last];
    }
  }

  method SplitAlpnList(raw: string) returns (out: seq<string>)
    ensures out == SplitAlpn(raw)
  {
    hide Trim, Split;
    if Trim(raw) == "" {
      return [];
    }
    var parts := Split(raw, ',');
    out := [];
    for i := 0 to |parts|
      invariant out == TrimAll(parts[..i])
    {
      var p := Trim(parts[i]);
      TrimAllSnoc(parts[..i], parts[i]);
      assert parts[..i + 1] == parts[..i] + [parts[i]];
      if p != "" {
        out := out + [p];
      }
    }
    assert parts[..|parts|] == parts;
  }
}
