/** Automatic client addresses: the least free host octet of the tunnel's network. */
module ClientIp {
  import opened Text

  type Octet = x: nat | x < 256
  /** What net.ParseCIDR makes of a stored address; Other is anything that is not an IPv4 prefix. */
  datatype Address = V4(a: Octet, b: Octet, c: Octet, d: Octet) | Other
  datatype Peer = Peer(iface: nat, address: Address)
  /** The first three octets of a wg_address after masking. */
  datatype Network = Network(a: Octet, b: Octet, c: Octet)

  /** A wg_address: the gateway's own octets and the length of its prefix. */
  datatype WgAddress = WgAddress(a: Octet, b: Octet, c: Octet, d: Octet, bits: nat)

  /** The size of the blocks that `bits` bits cut 256 octets into. */
  function Block(bits: int): (size: nat)
    ensures size > 0
  {
    if bits <= 0 then 256 else if bits == 1 then 128 else if bits == 2 then 64 else if bits == 3 then 32
    else if bits == 4 then 16 else if bits == 5 then 8 else if bits == 6 then 4 else if bits == 7 then 2 else 1
  }

  /** An octet of which only the first `bits` bits count. */
  function Mask(x: Octet, bits: int): Octet {
    x - x % Block(bits)
  }

  /** What NextClientIP takes from it: the first three octets of the masked address. */
  function NetworkOf(w: WgAddress): Network {
    Network(Mask(w.a, w.bits), Mask(w.b, w.bits - 8), Mask(w.c, w.bits - 16))
  }

  /** The address lies in the prefix of the wg_address. */
  predicate InPrefix(w: WgAddress, p: Address) {
    && p.V4?
    && Mask(p.a, w.bits) == Mask(w.a, w.bits) && Mask(p.b, w.bits - 8) == Mask(w.b, w.bits - 8)
    && Mask(p.c, w.bits - 16) == Mask(w.c, w.bits - 16) && Mask(p.d, w.bits - 24) == Mask(w.d, w.bits - 24)
  }

  datatype Result<T> = Ok(value: T) | BadNetwork | Conflict | NoTunnel

  predicate InNetwork(n: Network, p: Address) {
    p.V4? && p.a == n.a && p.b == n.b && p.c == n.c
  }

  predicate Uses(p: Peer, iface: nat, n: Network) {
    p.iface == iface && InNetwork(n, p.address)
  }

  predicate Taken(peers: map<nat, Peer>, iface: nat, n: Network, d: Octet) {
    exists i :: i in peers && Uses(peers[i], iface, n) && peers[i].address.d == d
  }

  class PeerService {
    var peers: map<nat, Peer>
    var nextId: nat
    /** Per tunnel, the network its wg_address parses to; None when it is no IPv4 prefix. */
    const networks: map<nat, Option<Network>>

    ghost predicate Valid()
      reads this
    {
      forall i :: i in peers ==> i < nextId
    }

    constructor (tunnels: map<nat, Option<Network>>)
      ensures Valid() && peers == map[] && networks == tunnels
    {
      peers, nextId, networks := map[], 0, tunnels;
    }

    method UsedOctets(iface: nat, n: Network) returns (used: set<nat>)
      ensures forall d: Octet :: d in used <==> Taken(peers, iface, n, d)
    {
      used := {};
      var left := peers.Keys;
      while left != {}
        invariant left <= peers.Keys
        invariant forall d: Octet :: d in used ==> Taken(peers, iface, n, d)
        invariant forall i :: i in peers && i !in left && Uses(peers[i], iface, n) ==> peers[i].address.d in used
        decreases |left|
      {
        var i :| i in left;
        var p := peers[i];
        if Uses(p, iface, n) {
          assert Taken(peers, iface, n, p.address.d);
          used := used + {p.address.d};
        }
        left := left - {i};
      }
    }

    /** The least octet of 2..254 that no peer of the tunnel has; Conflict exactly when all 253 are taken. */
    method NextClientIP(iface: nat, network: Option<Network>) returns (r: Result<Address>)
      ensures network.None? <==> r == BadNetwork
      ensures network.Some? ==> (r == Conflict <==> Full(peers, iface, network.value))
      ensures network.Some? && r != Conflict ==>
        && r.Ok? && InNetwork(network.value, r.value) && 2 <= r.value.d < 255
        && !Taken(peers, iface, network.value, r.value.d)
        && forall d: Octet :: 2 <= d < r.value.d ==> Taken(peers, iface, network.value, d)
    {
      if network.None? {
        return BadNetwork;
      }
      var n := network.value;
      var used := UsedOctets(iface, n);
      for b := 2 to 255
        invariant forall d: Octet :: 2 <= d < b ==> Taken(peers, iface, n, d)
      {
        if b !in used {
          return Ok(V4(n.a, n.b, n.c, b));
        }
      }
      return Conflict;
    }

    /** `given` is the address the caller chose, if any. */
    method Create(iface: nat, given: Option<Address>) returns (r: Result<nat>)
      requires Valid()
      modifies this
      ensures Valid()
      ensures r.Ok? <==>
        && iface in networks
        && (given.Some? || (networks[iface].Some? && !Full(old(peers), iface, networks[iface].value)))
      ensures !r.Ok? ==> peers == old(peers) && nextId == old(nextId)
      ensures r.Ok? ==> r.value == old(nextId) && nextId == old(nextId) + 1
      ensures r.Ok? ==> Created(old(peers), peers, r.value, iface, networks[iface], given)
    {
      if iface !in networks {
        return NoTunnel;
      }
      var address := Other;
      if given.Some? {
        address := given.value;
      } else {
        var found := NextClientIP(iface, networks[iface]);
        if !found.Ok? {
          return if found == BadNetwork then BadNetwork else Conflict;
        }
        address := found.value;
      }
      peers := peers[nextId := Peer(iface, address)];
      nextId := nextId + 1;
      return Ok(nextId - 1);
    }

    /** False is ErrNotFound. */
    method Delete(iface: nat, id: nat) returns (found: bool)
      requires Valid()
      modifies this`peers
      ensures Valid()
      ensures found <==> id in old(peers) && old(peers)[id].iface == iface
      ensures peers == if found then old(peers) - {id} else old(peers)
    {
      found := id in peers && peers[id].iface == iface;
      if found {
        peers := peers - {id};
      }
    }
  }

  predicate Full(peers: map<nat, Peer>, iface: nat, n: Network) {
    forall d: Octet :: 2 <= d < 255 ==> Taken(peers, iface, n, d)
  }

  /** One new peer, with the address that was given or else the least free one. */
  predicate Created(before: map<nat, Peer>, after: map<nat, Peer>, id: nat, iface: nat,
                    network: Option<Network>, given: Option<Address>) {
    && id in after && after == before[id := after[id]] && after[id].iface == iface
    && if given.Some? then after[id].address == given.value
       else network.Some? && LeastFree(before, iface, network.value, after[id].address)
  }

  predicate LeastFree(peers: map<nat, Peer>, iface: nat, n: Network, p: Address) {
    && InNetwork(n, p) && 2 <= p.d < 255 && !Taken(peers, iface, n, p.d)
    && forall d: Octet :: 2 <= d < p.d ==> Taken(peers, iface, n, d)
  }
}

/** Any history of creates and deletes. */
module ClientIpProofs {
  import opened Text
  import opened ClientIp

  /** Peers with the ids that were addressed automatically. */
  datatype State = State(peers: map<nat, Peer>, nextId: nat, auto: set<nat>)
  datatype Op = Create(iface: nat, given: Option<Address>) | Delete(iface: nat, id: nat)

  const EMPTY := State(map[], 0, {})

  /** What PeerService does; a call that fails leaves everything alone. */
  ghost predicate Steps(networks: map<nat, Option<Network>>, s: State, op: Op, t: State) {
    match op
    case Create(iface, given) =>
      t == s ||
      (&& iface in networks && t.nextId == s.nextId + 1
       && Created(s.peers, t.peers, s.nextId, iface, networks[iface], given)
       && t.auto == if given.None? then s.auto + {s.nextId} else s.auto)
    case Delete(iface, id) =>
      t == s || t == s.(peers := s.peers - {id})
  }

  ghost predicate IsRun(networks: map<nat, Option<Network>>, states: seq<State>, ops: seq<Op>) {
    && |states| == |ops| + 1 && states[0] == EMPTY
    && forall i :: 0 <= i < |ops| ==> Steps(networks, states[i], ops[i], states[i + 1])
  }

  ghost predicate Sane(networks: map<nat, Option<Network>>, s: State) {
    && (forall i :: i in s.peers ==> i < s.nextId)
    && (forall i :: i in s.auto ==> i < s.nextId)
    && (forall i :: i in s.auto && i in s.peers ==>
          s.peers[i].iface in networks && networks[s.peers[i].iface].Some?
          && InNetwork(networks[s.peers[i].iface].value, s.peers[i].address))
    && Apart(s)
  }

  /** Live automatic addresses of one tunnel are pairwise distinct. */
  ghost predicate Apart(s: State) {
    forall i, k :: i in s.auto && k in s.auto && i in s.peers && k in s.peers && i != k
      && s.peers[i].iface == s.peers[k].iface
      ==> s.peers[i].address != s.peers[k].address
  }

  lemma SaneStep(networks: map<nat, Option<Network>>, s: State, op: Op, t: State)
    requires Sane(networks, s) && Steps(networks, s, op, t)
    ensures Sane(networks, t)
  {
  }

  /** With fixed wg_addresses, automatic addresses never clash, whatever is created and deleted by hand in between. */
  lemma {:induction false} AutomaticAddressesStayApart(networks: map<nat, Option<Network>>,
                                                       states: seq<State>, ops: seq<Op>, n: nat)
    requires IsRun(networks, states, ops) && n <= |ops|
    ensures Sane(networks, states[n]) && Apart(states[n])
  {
    hide Steps, Apart;
    if n == 0 {
      SaneEmpty(networks);
    } else {
      AutomaticAddressesStayApart(networks, states, ops, n - 1);
      assert Steps(networks, states[n - 1], ops[n - 1], states[n - 1 + 1]);
      SaneStep(networks, states[n - 1], ops[n - 1], states[n]);
    }
  }

  lemma SaneEmpty(networks: map<nat, Option<Network>>)
    ensures Sane(networks, EMPTY)
  {
  }

  lemma MaskTwice(x: Octet, bits: int)
    ensures Mask(Mask(x, bits), bits) == Mask(x, bits)
    ensures bits <= 0 ==> Mask(x, bits) == 0
  {
  }

  /** From 24 bits on the network has the gateway's first three octets; from 16 bits on the first two,
      and a third that begins the gateway's own block. */
  lemma NetworkOfGateway(w: WgAddress)
    ensures w.bits >= 24 ==> NetworkOf(w) == Network(w.a, w.b, w.c)
    ensures w.bits == 16 ==> NetworkOf(w) == Network(w.a, w.b, 0)
    ensures 16 <= w.bits <= 24 ==>
      var n := NetworkOf(w); n.a == w.a && n.b == w.b && n.c <= w.c < n.c + Block(w.bits - 16)
  {
  }

  /** The address handed out lies in the tunnel's prefix exactly when that is no longer than 24 bits,
      or the least free octet falls into the gateway's own block. */
  lemma HandedOutInPrefixIff(peers: map<nat, Peer>, iface: nat, w: WgAddress, p: Address)
    requires LeastFree(peers, iface, NetworkOf(w), p)
    ensures InPrefix(w, p) <==> w.bits <= 24 || Mask(p.d, w.bits - 24) == Mask(w.d, w.bits - 24)
  {
    hide Mask, Taken;
    MaskTwice(w.a, w.bits);
    MaskTwice(w.b, w.bits - 8);
    MaskTwice(w.c, w.bits - 16);
    MaskTwice(w.d, w.bits - 24);
    MaskTwice(p.d, w.bits - 24);
  }

  /** It is the gateway's own address exactly when that one is in the network's first three octets,
      counts as free, and no lower octet from 2 on does. */
  lemma HandedOutIsGatewayIff(peers: map<nat, Peer>, iface: nat, w: WgAddress, p: Address)
    requires LeastFree(peers, iface, NetworkOf(w), p)
    ensures p == V4(w.a, w.b, w.c, w.d)
      <==> NetworkOf(w) == Network(w.a, w.b, w.c) && 2 <= w.d < 255 && !Taken(peers, iface, NetworkOf(w), w.d)
           && forall d: Octet :: 2 <= d < w.d ==> Taken(peers, iface, NetworkOf(w), d)
  {
    hide Mask, Taken;
  }
}
