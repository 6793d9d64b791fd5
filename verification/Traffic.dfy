/** Peer traffic: counters accumulated across device resets. */
module Traffic {
  import opened Text

  datatype Counter = Counter(bytes: nat, lastRaw: nat)

  /** A reading below the recorded one is taken as counted afresh from zero. */
  function Polled(c: Counter, raw: nat): Counter {
    Counter(c.bytes + if raw >= c.lastRaw then raw - c.lastRaw else raw, raw)
  }

  function Clamp(raw: int): nat { if raw < 0 then 0 else raw }

  datatype PeerRow = PeerRow(rx: Counter, tx: Counter, lastHandshake: Option<int>, updatedAt: int)

  class PeerRepo {
    var peers: map<nat, PeerRow>

    constructor (rows: map<nat, PeerRow>)
      ensures peers == rows
    {
      peers := rows;
    }

    /** None is ErrNotFound. */
    method UpdateTraffic(id: nat, lastHandshake: Option<int>, rxRaw: int, txRaw: int, now: int)
      returns (totals: Option<(nat, nat)>)
      modifies this
      ensures totals.Some? <==> id in old(peers)
      ensures totals.None? ==> peers == old(peers)
      ensures totals.Some? ==>
        var row := old(peers)[id];
        var next := PeerRow(Polled(row.rx, Clamp(rxRaw)), Polled(row.tx, Clamp(txRaw)), lastHandshake, now);
        && peers == old(peers)[id := next]
        && totals == Some((peers[id].rx.bytes, peers[id].tx.bytes))
      ensures totals.Some? && rxRaw >= 0 ==> peers[id].rx.lastRaw == rxRaw
      ensures totals.Some? && txRaw >= 0 ==> peers[id].tx.lastRaw == txRaw
      ensures totals.Some? && rxRaw < 0 ==> peers[id].rx == Counter(old(peers)[id].rx.bytes, 0)
      ensures totals.Some? && txRaw < 0 ==> peers[id].tx == Counter(old(peers)[id].tx.bytes, 0)
    {
      var rx, tx := rxRaw, txRaw;
      if rx < 0 { rx := 0; }
      if tx < 0 { tx := 0; }
      if id !in peers {
        return None;
      }
      var row := peers[id];
      var rxBytes := row.rx.bytes + if rx >= row.rx.lastRaw then rx - row.rx.lastRaw else rx;
      var txBytes := row.tx.bytes + if tx >= row.tx.lastRaw then tx - row.tx.lastRaw else tx;
      peers := peers[id := PeerRow(Counter(rxBytes, rx), Counter(txBytes, tx), lastHandshake, now)];
      return Some((rxBytes, txBytes));
    }
  }

  // ----- a device, its true traffic and the poller -----

  datatype Event = Carry(n: nat) | Reset | Poll

  /** One direction of one peer: the device's counter, what it truly carried in all and as of the last
      poll, whether it was reset since then, and the bytes since that poll which the last reset wiped. */
  datatype Line = Line(counter: Counter, raw: nat, carried: nat, atPoll: nat, reset: bool, wiped: nat)

  const FRESH := Line(Counter(0, 0), 0, 0, 0, false, 0)

  function Next(l: Line, e: Event): Line
    requires l.atPoll <= l.carried
  {
    match e
    case Carry(n) => l.(raw := l.raw + n, carried := l.carried + n)
    case Reset => l.(raw := 0, reset := true, wiped := l.carried - l.atPoll)
    case Poll => l.(counter := Polled(l.counter, l.raw), atPoll := l.carried, reset := false, wiped := 0)
  }
}

module TrafficProofs {
  import opened Traffic

  predicate Sound(l: Line) {
    && l.atPoll <= l.carried && l.counter.bytes <= l.atPoll
    && (if l.reset then l.carried - l.atPoll == l.wiped + l.raw
        else l.wiped == 0 && l.raw == l.counter.lastRaw + (l.carried - l.atPoll))
  }

  lemma OneStepRises(l: Line, e: Event)
    requires Sound(l)
    ensures l.counter.bytes <= Next(l, e).counter.bytes
  {
  }

  function After(evs: seq<Event>, n: nat): (l: Line)
    requires n <= |evs|
    ensures Sound(l)
  {
    if n == 0 then FRESH else Next(After(evs, n - 1), evs[n - 1])
  }

  /** Accumulated traffic never falls and never exceeds what the device truly carried. */
  lemma {:induction false} NeverFallsNeverExceeds(evs: seq<Event>, i: nat, n: nat)
    requires i <= n <= |evs|
    ensures After(evs, i).counter.bytes <= After(evs, n).counter.bytes <= After(evs, n).carried
  {
    if i < n {
      NeverFallsNeverExceeds(evs, i, n - 1);
      OneStepRises(After(evs, n - 1), evs[n - 1]);
    }
  }

  /** The reading at this moment accounts for every byte since the previous poll. */
  predicate PollSeesAll(l: Line) {
    !l.reset || (l.wiped == 0 && (l.raw < l.counter.lastRaw || l.counter.lastRaw == 0))
  }

  predicate EveryPollSeesAll(evs: seq<Event>, n: nat)
    requires n <= |evs|
  {
    forall k :: 0 <= k < n && evs[k].Poll? ==> PollSeesAll(After(evs, k))
  }

  /** The total is exact as of the last poll exactly when no poll missed anything: each reset came
      before any traffic of its interval, and the next reading was below the recorded one. */
  lemma {:induction false} ExactIffEveryPollSeesAll(evs: seq<Event>, n: nat)
    requires n <= |evs|
    ensures After(evs, n).counter.bytes == After(evs, n).atPoll <==> EveryPollSeesAll(evs, n)
  {
    if n > 0 {
      ExactIffEveryPollSeesAll(evs, n - 1);
      var before, after := After(evs, n - 1), After(evs, n);
      if evs[n - 1].Poll? {
        assert after.counter.bytes - before.counter.bytes <= after.atPoll - before.atPoll;
        assert after.counter.bytes - before.counter.bytes == after.atPoll - before.atPoll <==> PollSeesAll(before);
        assert EveryPollSeesAll(evs, n) <==> EveryPollSeesAll(evs, n - 1) && PollSeesAll(before);
      } else {
        assert EveryPollSeesAll(evs, n) <==> EveryPollSeesAll(evs, n - 1);
      }
    }
  }

  /** A restart that carries more than was recorded before the next poll is undercounted. */
  lemma FastRestartUndercounts(evs: seq<Event>)
    requires evs == [Carry(100), Poll, Reset, Carry(150), Poll]
    ensures After(evs, 5).carried == 250 && After(evs, 5).counter.bytes == 150
  {
    hide After, Sound;
    AfterNothing(evs);
    var l1 := Line(Counter(0, 0), 100, 100, 0, false, 0);
    var l2 := Line(Counter(100, 100), 100, 100, 100, false, 0);
    var l3 := Line(Counter(100, 100), 0, 100, 100, true, 0);
    var l4 := Line(Counter(100, 100), 150, 250, 100, true, 0);
    AfterStep(evs, 1, FRESH, l1);
    AfterStep(evs, 2, l1, l2);
    AfterStep(evs, 3, l2, l3);
    AfterStep(evs, 4, l3, l4);
    AfterStep(evs, 5, l4, Line(Counter(150, 150), 150, 250, 250, false, 0));
  }

  lemma AfterNothing(evs: seq<Event>)
    ensures After(evs, 0) == FRESH
  {
  }

  lemma AfterStep(evs: seq<Event>, n: nat, l: Line, m: Line)
    requires 0 < n <= |evs| && After(evs, n - 1) == l && Next(l, evs[n - 1]) == m
    ensures After(evs, n) == m
  {
  }
}
