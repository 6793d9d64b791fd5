/** The login limiter: failures per client address within a sliding minute. */
module Login {
  import opened Text

  const MINUTE: int := 60_000_000_000
  const MAX_FAILURES: nat := 5

  function Recent(times: seq<int>, now: int): seq<int> {
    Filter(times, t => t > now - MINUTE)
  }

  /** What Login does after the limiter let it pass. */
  datatype Verdict = NoSettings | NoPassword | Wrong | Right
  datatype Reply = RateLimited | Failed | Unauthorized | InvalidPassword | Passed

  function Decided(v: Verdict): Reply {
    match v case NoSettings => Failed case NoPassword => Unauthorized case Wrong => InvalidPassword case Right => Passed
  }

  class Limiter {
    var attempts: map<string, seq<int>>

    constructor ()
      ensures attempts == map[]
    {
      attempts := map[];
    }

    function Of(ip: string): seq<int>
      reads this
    {
      if ip in attempts then attempts[ip] else []
    }

    /** The first lock section: prune, store, compare. */
    method Check(ip: string, now: int) returns (blocked: bool)
      modifies this
      ensures attempts == old(attempts)[ip := Recent(old(Of(ip)), now)]
      ensures blocked <==> |Recent(old(Of(ip)), now)| >= MAX_FAILURES
    {
      var bucket := Prune(Of(ip), now);
      attempts := attempts[ip := bucket];
      blocked := |bucket| >= MAX_FAILURES;
    }

    method RecordFailure(ip: string, now: int)
      modifies this
      ensures attempts == old(attempts)[ip := old(Of(ip)) + [now]]
    {
      attempts := attempts[ip := Of(ip) + [now]];
    }

    method Forget(ip: string)
      modifies this
      ensures attempts == old(attempts)[ip := []]
    {
      attempts := attempts[ip := []];
    }

    /** One login with nobody else in between; `later` is the clock when the password was found wrong. */
    method Login(ip: string, now: int, verdict: Verdict, later: int) returns (reply: Reply)
      modifies this
      ensures reply.RateLimited? <==> |Recent(old(Of(ip)), now)| >= MAX_FAILURES
      ensures !reply.RateLimited? ==> reply == Decided(verdict)
      ensures reply == Passed ==> verdict == Right
      ensures !reply.RateLimited? && verdict == Wrong ==> reply == InvalidPassword
      ensures !reply.RateLimited? && verdict == NoPassword ==> reply == Unauthorized
      ensures attempts == old(attempts)[ip :=
        if reply == InvalidPassword then Recent(old(Of(ip)), now) + [later]
        else if reply == Passed then [] else Recent(old(Of(ip)), now)]
    {
      var blocked := Check(ip, now);
      if blocked { return RateLimited; }
      match verdict {
        case NoSettings => return Failed;
        case NoPassword => return Unauthorized;
        case Wrong =>
          RecordFailure(ip, later);
          return InvalidPassword;
        case Right =>
          Forget(ip);
          return Passed;
      }
    }
  }

  method Prune(times: seq<int>, now: int) returns (bucket: seq<int>)
    ensures bucket == Recent(times, now)
  {
    bucket := [];
    for i := 0 to |times|
      invariant bucket == Recent(times[..i], now)
    {
      FilterConcat(times[..i], [times[i]], t => t > now - MINUTE);
      assert times[..i + 1] == times[..i] + [times[i]];
      if times[i] > now - MINUTE {
        bucket := bucket + [times[i]];
      }
    }
    assert times[..|times|] == times;
  }

  // ----- overlapping logins from one address -----

  /** Lock sections and the passing of time; requests end by failing, succeeding or aborting. */
  datatype Event = Check | Fail | Succeed | Abort | Tick(d: nat)

  /** `history` is every failure since the last success, never pruned. */
  datatype State = State(now: int, bucket: seq<int>, inFlight: nat, history: seq<int>)

  function Start(now: int): State { State(now, [], 0, []) }

  predicate Blocked(s: State) { |Recent(s.bucket, s.now)| >= MAX_FAILURES }

  predicate Enabled(s: State, e: Event) {
    e.Check? || e.Tick? || s.inFlight > 0
  }

  function Next(s: State, e: Event): State
    requires Enabled(s, e)
  {
    match e
    case Check => s.(bucket := Recent(s.bucket, s.now), inFlight := if Blocked(s) then s.inFlight else s.inFlight + 1)
    case Fail => s.(bucket := s.bucket + [s.now], inFlight := s.inFlight - 1, history := s.history + [s.now])
    case Succeed => s.(bucket := [], inFlight := s.inFlight - 1, history := [])
    case Abort => s.(inFlight := s.inFlight - 1)
    case Tick(d) => s.(now := s.now + d)
  }

  /** A run with at most k logins in flight; None if some step is impossible or exceeds k. */
  function Run(s: State, evs: seq<Event>, k: nat): Option<State>
    decreases |evs|
  {
    if s.inFlight > k then None
    else if evs == [] then Some(s)
    else if !Enabled(s, evs[0]) then None
    else Run(Next(s, evs[0]), evs[1..], k)
  }
}

module LoginProofs {
  import opened Text
  import opened Login

  lemma {:induction false} RecentLater(times: seq<int>, now: int, later: int)
    requires now <= later
    ensures Recent(Recent(times, now), later) == Recent(times, later)
    ensures |Recent(times, later)| <= |Recent(times, now)|
  {
    FilterFilter(times, t => t > now - MINUTE, t => t > later - MINUTE, t => t > later - MINUTE);
    FilterShorter(Recent(times, now), t => t > later - MINUTE);
  }

  lemma {:induction false} FilterShorter(s: seq<int>, keep: int -> bool)
    ensures |Filter(s, keep)| <= |s|
  {
    if s != [] { FilterShorter(s[1..], keep); }
  }

  lemma RecentSnoc(times: seq<int>, now: int)
    ensures Recent(times + [now], now) == Recent(times, now) + [now]
  {
    FilterConcat(times, [now], t => t > now - MINUTE);
  }

  ghost predicate Bounded(s: State, k: nat) {
    |Recent(s.bucket, s.now)| + s.inFlight <= MAX_FAILURES - 1 + k
  }

  lemma StepBounded(s: State, e: Event, k: nat)
    requires Bounded(s, k) && s.inFlight <= k && Enabled(s, e) && Next(s, e).inFlight <= k
    ensures Bounded(Next(s, e), k)
  {
    hide Recent;
    match e {
      case Check => RecentLater(s.bucket, s.now, s.now);
      case Fail => RecentSnoc(s.bucket, s.now);
      case Succeed => NothingRecent(s.now);
      case Abort =>
      case Tick(d) => RecentLater(s.bucket, s.now, s.now + d);
    }
  }

  lemma NothingRecent(now: int)
    ensures Recent([], now) == []
  {
  }

  lemma {:induction false} RunBounded(s: State, evs: seq<Event>, k: nat)
    requires Bounded(s, k) && Run(s, evs, k).Some?
    ensures Bounded(Run(s, evs, k).value, k)
    decreases |evs|
  {
    hide Bounded;
    if evs != [] {
      var t := Next(s, evs[0]);
      assert t.inFlight <= k by { assert Run(t, evs[1..], k).Some?; }
      StepBounded(s, evs[0], k);
      RunBounded(t, evs[1..], k);
    }
  }

  /** With at most k logins in flight at once, the last minute never holds more than 4 + k failures. */
  lemma FailuresBounded(start: int, evs: seq<Event>, k: nat)
    requires Run(Start(start), evs, k).Some?
    ensures var s := Run(Start(start), evs, k).value; |Recent(s.bucket, s.now)| + s.inFlight <= 4 + k
  {
    NothingRecent(start);
    RunBounded(Start(start), evs, k);
  }

  /** The window is sixty seconds, in nanoseconds, and a failure exactly that old no longer counts. */
  lemma WindowIsAMinute(times: seq<int>, now: int)
    ensures forall t :: t in Recent(times, now) <==> t in times && now - t < 60_000_000_000
  {
  }

  // ----- pruning forgets nothing that matters -----

  ghost predicate Faithful(s: State) {
    Recent(s.bucket, s.now) == Recent(s.history, s.now)
  }

  lemma StepFaithful(s: State, e: Event)
    requires Faithful(s) && Enabled(s, e)
    ensures Faithful(Next(s, e))
  {
    hide Recent;
    match e {
      case Check => RecentLater(s.bucket, s.now, s.now);
      case Fail => RecentSnoc(s.bucket, s.now); RecentSnoc(s.history, s.now);
      case Succeed =>
      case Abort =>
      case Tick(d) =>
        RecentLater(s.bucket, s.now, s.now + d);
        RecentLater(s.history, s.now, s.now + d);
    }
  }

  lemma {:induction false} RunFaithful(s: State, evs: seq<Event>, k: nat)
    requires Faithful(s) && Run(s, evs, k).Some?
    ensures Faithful(Run(s, evs, k).value)
    decreases |evs|
  {
    hide Faithful;
    if evs != [] {
      StepFaithful(s, evs[0]);
      RunFaithful(Next(s, evs[0]), evs[1..], k);
    }
  }

  /** A login is refused exactly when the last minute saw five failures since the last success. */
  lemma BlockedIffFiveFailures(start: int, evs: seq<Event>, k: nat)
    requires Run(Start(start), evs, k).Some?
    ensures var s := Run(Start(start), evs, k).value; Blocked(s) <==> |Recent(s.history, s.now)| >= 5
  {
    hide Recent;
    RunFaithful(Start(start), evs, k);
  }

  // ----- the bound is exact -----

  function Times<T>(n: nat, e: T): seq<T> { seq(n, _ => e) }

  lemma {:induction false} RunConcat(s: State, a: seq<Event>, b: seq<Event>, k: nat)
    requires Run(s, a, k).Some?
    ensures Run(s, a + b, k) == Run(Run(s, a, k).value, b, k)
    decreases |a|
  {
    if a == [] {
      assert a + b == b;
    } else {
      assert (a + b)[1..] == a[1..] + b;
      RunConcat(Next(s, a[0]), a[1..], b, k);
    }
  }

  /** Checks that all pass before any of them is decided. */
  lemma {:induction false} ManyChecks(s: State, n: nat, k: nat)
    requires s.inFlight + n <= k && |s.bucket| < 5 && Recent(s.bucket, s.now) == s.bucket
    ensures Run(s, Times(n, Check), k) == Some(s.(inFlight := s.inFlight + n))
    decreases n
  {
    hide Recent;
    if n > 0 {
      assert Times(n, Event.Check)[1..] == Times(n - 1, Event.Check);
      ManyChecks(s.(inFlight := s.inFlight + 1), n - 1, k);
    }
  }

  lemma {:induction false} ManyFailures(s: State, n: nat, k: nat)
    requires n <= s.inFlight <= k
    ensures Run(s, Times(n, Fail), k) ==
      Some(s.(inFlight := s.inFlight - n, bucket := s.bucket + Times(n, s.now), history := s.history + Times(n, s.now)))
    decreases n
  {
    if n > 0 {
      assert Times(n, Event.Fail)[1..] == Times(n - 1, Event.Fail);
      ManyFailures(Next(s, Fail), n - 1, k);
      assert [s.now] + Times(n - 1, s.now) == Times(n, s.now);
      assert s.bucket + [s.now] + Times(n - 1, s.now) == s.bucket + Times(n, s.now);
      assert s.history + [s.now] + Times(n - 1, s.now) == s.history + Times(n, s.now);
    } else {
      assert s.bucket + Times(0, s.now) == s.bucket && s.history + Times(0, s.now) == s.history;
    }
  }

  lemma RecentTimes(n: nat, now: int)
    ensures Recent(Times(n, now), now) == Times(n, now)
  {
    FilterAll(Times(n, now), t => t > now - MINUTE);
  }

  /** n batches: check b times, then fail b times. */
  lemma Batch(s: State, b: nat, k: nat)
    requires s.inFlight == 0 && b <= k && |s.bucket| < 5 && Recent(s.bucket, s.now) == s.bucket
    ensures Run(s, Times(b, Check) + Times(b, Fail), k)
      == Some(s.(bucket := s.bucket + Times(b, s.now), history := s.history + Times(b, s.now)))
  {
    hide Recent;
    ManyChecks(s, b, k);
    RunConcat(s, Times(b, Check), Times(b, Fail), k);
    ManyFailures(s.(inFlight := b), b, k);
  }

  lemma {:induction false} Singles(start: int, n: nat, k: nat) returns (evs: seq<Event>)
    requires n <= 4 && k > 0
    ensures Run(Start(start), evs, k) == Some(State(start, Times(n, start), 0, Times(n, start)))
  {
    hide Recent;
    if n == 0 {
      evs := [];
    } else {
      var before := Singles(start, n - 1, k);
      var s := State(start, Times(n - 1, start), 0, Times(n - 1, start));
      RecentTimes(n - 1, start);
      Batch(s, 1, k);
      RunConcat(Start(start), before, Times(1, Check) + Times(1, Fail), k);
      evs := before + (Times(1, Check) + Times(1, Fail));
      assert Times(n - 1, start) + Times(1, start) == Times(n, start);
    }
  }

  /** For every k the bound is reached: k requests that check together may all fail. */
  lemma BoundIsReached(start: int, k: nat) returns (evs: seq<Event>)
    requires k > 0
    ensures Run(Start(start), evs, k).Some?
    ensures var s := Run(Start(start), evs, k).value; |Recent(s.bucket, s.now)| == 4 + k
  {
    hide Recent;
    var before := Singles(start, 4, k);
    var s := State(start, Times(4, start), 0, Times(4, start));
    RecentTimes(4, start);
    Batch(s, k, k);
    RunConcat(Start(start), before, Times(k, Check) + Times(k, Fail), k);
    evs := before + (Times(k, Check) + Times(k, Fail));
    assert Times(4, start) + Times(k, start) == Times(4 + k, start);
    RecentTimes(4 + k, start);
  }
}
