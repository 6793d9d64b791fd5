/** Refresh sessions: the in-memory store and the token service on top of it.
    Session ids are values handed in by the caller of the random generator. */
module Sessions {
  import opened Text

  type Jti = nat
  datatype Session = Session(userId: int, createdAt: int, expiresAt: int)
  type Table = map<Jti, Session>

  /** What a store operation answers. */
  datatype Answer = Created(jti: Jti) | Rotated(jti: Jti, userId: int) | NotFound | Expired | NoEntropy | Silent

  /** `minted` is None when the random source fails. */
  datatype Op =
    | Create(userId: int, minted: Option<Jti>, ttl: int)
    | Rotate(oldJti: Jti, minted: Option<Jti>, ttl: int)
    | Revoke(jti: Jti)
    | Purge

  datatype Event = Event(now: int, op: Op)

  predicate Lapsed(se: Session, now: int) { now > se.expiresAt }

  function Reply(t: Table, e: Event): Answer {
    match e.op
    case Create(user, minted, ttl) => if minted.None? then NoEntropy else Created(minted.value)
    case Rotate(oldJti, minted, ttl) =>
      if oldJti !in t then NotFound
      else if Lapsed(t[oldJti], e.now) then Expired
      else if minted.None? then NoEntropy
      else Rotated(minted.value, t[oldJti].userId)
    case Revoke(_) => Silent
    case Purge => Silent
  }

  /** A rotation consumes the old session even when no new id can be generated. */
  function Step(t: Table, e: Event): Table {
    match e.op
    case Create(user, minted, ttl) =>
      if minted.None? then t else t[minted.value := Session(user, e.now, e.now + ttl)]
    case Rotate(oldJti, minted, ttl) =>
      if Reply(t, e).Rotated? then (t - {oldJti})[minted.value := Session(t[oldJti].userId, e.now, e.now + ttl)]
      else t - {oldJti}
    case Revoke(jti) => t - {jti}
    case Purge => map j | j in t && !Lapsed(t[j], e.now) :: t[j]
  }

  class Store {
    var sessions: Table

    constructor ()
      ensures sessions == map[]
    {
      sessions := map[];
    }

    method CreateSession(now: int, userId: int, minted: Option<Jti>, ttl: int) returns (answer: Answer)
      modifies this
      ensures sessions == Step(old(sessions), Event(now, Create(userId, minted, ttl)))
      ensures answer == Reply(old(sessions), Event(now, Create(userId, minted, ttl)))
    {
      if minted.None? {
        return NoEntropy;
      }
      sessions := sessions[minted.value := Session(userId, now, now + ttl)];
      return Created(minted.value);
    }

    method Rotate(now: int, oldJti: Jti, minted: Option<Jti>, ttl: int) returns (answer: Answer)
      modifies this
      ensures sessions == Step(old(sessions), Event(now, Op.Rotate(oldJti, minted, ttl)))
      ensures answer == Reply(old(sessions), Event(now, Op.Rotate(oldJti, minted, ttl)))
      ensures oldJti !in sessions || minted == Some(oldJti)
      ensures answer.Rotated? <==> minted.Some? && oldJti in old(sessions) && now <= old(sessions)[oldJti].expiresAt
      ensures answer.Rotated? ==> answer == Rotated(minted.value, old(sessions)[oldJti].userId)
      ensures answer.Rotated? ==>
        minted.value in sessions && sessions[minted.value] == Session(old(sessions)[oldJti].userId, now, now + ttl)
      ensures forall j :: j != oldJti && Some(j) != minted ==>
        (j in sessions <==> j in old(sessions)) && (j in sessions ==> sessions[j] == old(sessions)[j])
    {
      if oldJti !in sessions {
        assert sessions - {oldJti} == sessions;
        return NotFound;
      }
      var se := sessions[oldJti];
      sessions := sessions - {oldJti};
      if Lapsed(se, now) {
        return Expired;
      }
      if minted.None? {
        return NoEntropy;
      }
      sessions := sessions[minted.value := Session(se.userId, now, now + ttl)];
      return Rotated(minted.value, se.userId);
    }

    method Revoke(jti: Jti)
      modifies this
      ensures sessions == old(sessions) - {jti}
    {
      sessions := sessions - {jti};
    }

    /** The cleanup loop's body, every five minutes. */
    method PurgeExpired(now: int)
      modifies this
      ensures sessions == Step(old(sessions), Event(now, Purge))
    {
      sessions := WithoutLapsed(sessions, now);
    }
  }

  method WithoutLapsed(t: Table, now: int) returns (kept: Table)
    ensures kept == Step(t, Event(now, Purge))
  {
    kept := t;
    var left := t.Keys;
    while left != {}
      invariant left <= t.Keys
      invariant forall j :: j in kept <==> j in t && (j in left || !Lapsed(t[j], now))
      invariant forall j :: j in kept ==> kept[j] == t[j]
      decreases |left|
    {
      var id :| id in left;
      if Lapsed(t[id], now) {
        kept := kept - {id};
      }
      left := left - {id};
    }
  }

  // ----- the token service -----

  const REFRESH_TTL: int := 7 * 24 * 3600

  /** The claims of a token whose signature verified. */
  datatype Claims = Claims(typ: string, jti: Option<Jti>)
  datatype Tokens = Pair(userId: int, jti: Jti) | Unauthorized | Failed

  /** The session a refresh token names. */
  function Named(token: Option<Claims>): Option<Jti> {
    if token.None? then None else token.value.jti
  }

  predicate Refreshable(token: Option<Claims>) {
    token.Some? && token.value.typ == "refresh" && token.value.jti.Some?
  }

  /** What a caller of RotateRefreshToken can tell from the store's answer. */
  function Outward(answer: Answer, signed: bool): Tokens {
    match answer
    case Rotated(jti, user) => if signed then Pair(user, jti) else Failed
    case NotFound => Unauthorized
    case Expired => Unauthorized
    case _ => Failed
  }

  /** The store operation behind a refresh. */
  function Refreshing(now: int, token: Option<Claims>, minted: Option<Jti>): Event
    requires Refreshable(token)
  {
    Event(now, Rotate(Named(token).value, minted, REFRESH_TTL))
  }

  class AuthService {
    const store: Store

    constructor (s: Store)
      ensures store == s
    {
      store := s;
    }

    method IssuePairForUser(now: int, userId: int, minted: Option<Jti>, signed: bool) returns (r: Tokens)
      modifies store
      ensures r == if minted.Some? && signed then Pair(userId, minted.value) else Failed
      ensures r.Pair? ==> minted.value in store.sessions && store.sessions[minted.value].expiresAt == now + 604800
      ensures store.sessions ==
        if r.Pair? then old(store.sessions)[minted.value := Session(userId, now, now + REFRESH_TTL)]
        else if minted.Some? then old(store.sessions) - {minted.value} else old(store.sessions)
    {
      var created := store.CreateSession(now, userId, minted, REFRESH_TTL);
      if !created.Created? {
        return Failed;
      }
      if !signed {
        store.Revoke(created.jti);
        assert store.sessions == old(store.sessions) - {created.jti};
        return Failed;
      }
      return Pair(userId, created.jti);
    }

    /** A token that is not a refresh token changes nothing; a signing failure leaves neither session. */
    method RotateRefreshToken(now: int, token: Option<Claims>, minted: Option<Jti>, signed: bool) returns (r: Tokens)
      modifies store
      ensures r == Unauthorized <==>
        || token.None? || token.value.typ != "refresh" || token.value.jti.None?
        || token.value.jti.value !in old(store.sessions)
        || now > old(store.sessions)[token.value.jti.value].expiresAt
      ensures r.Pair? <==> r != Unauthorized && minted.Some? && signed
      ensures r.Pair? ==>
        && minted.value in store.sessions && r.jti == minted.value
        && r.userId == old(store.sessions)[token.value.jti.value].userId
        && store.sessions[minted.value] == Session(r.userId, now, now + 604800)
      ensures !Refreshable(token) ==> r == Unauthorized && store.sessions == old(store.sessions)
      ensures Refreshable(token) ==> r == Outward(Reply(old(store.sessions), Refreshing(now, token, minted)), signed)
      ensures Refreshable(token) ==>
        store.sessions ==
          if Reply(old(store.sessions), Refreshing(now, token, minted)).Rotated? && !signed
          then old(store.sessions) - {Named(token).value, minted.value}
          else Step(old(store.sessions), Refreshing(now, token, minted))
    {
      if !Refreshable(token) {
        return Unauthorized;
      }
      var jti := token.value.jti.value;
      var answer := store.Rotate(now, jti, minted, REFRESH_TTL);
      match answer {
        case Rotated(fresher, user) =>
          if !signed {
            store.Revoke(fresher);
            assert store.sessions == old(store.sessions) - {jti, fresher};
            return Failed;
          }
          return Pair(user, fresher);
        case NotFound => return Unauthorized;
        case Expired => return Unauthorized;
        case _ => return Failed;
      }
    }

    method RevokeRefreshToken(token: Option<Claims>)
      modifies store
      ensures store.sessions
        == if token.Some? && token.value.jti.Some? then old(store.sessions) - {token.value.jti.value}
           else old(store.sessions)
    {
      if Named(token).Some? {
        store.Revoke(Named(token).value);
      }
    }
  }
}

/** Over whole runs: replay protection, lineages, and a cleanup nobody can notice. */
module SessionProofs {
  import opened Text
  import opened Sessions

  /** The table after the first n events of a run that starts empty. */
  function After(evs: seq<Event>, n: nat): Table
    requires n <= |evs|
  {
    if n == 0 then map[] else Step(After(evs, n - 1), evs[n - 1])
  }

  function Mints(e: Event): Option<Jti> {
    match e.op
    case Create(_, minted, _) => minted
    case Rotate(_, minted, _) => minted
    case _ => None
  }

  /** The random source never repeats itself. */
  predicate DistinctIds(evs: seq<Event>) {
    forall i, k :: 0 <= i < k < |evs| && Mints(evs[i]).Some? ==> Mints(evs[i]) != Mints(evs[k])
  }

  /** Event i is a rotation of `jti` that succeeded. */
  predicate Accepts(evs: seq<Event>, i: nat, jti: Jti)
    requires i < |evs|
  {
    evs[i].op.Rotate? && evs[i].op.oldJti == jti && Reply(After(evs, i), evs[i]).Rotated?
  }

  lemma {:induction false} LiveWasMinted(evs: seq<Event>, n: nat, jti: Jti) returns (m: nat)
    requires n <= |evs| && jti in After(evs, n)
    ensures m < n && Mints(evs[m]) == Some(jti)
  {
    if Mints(evs[n - 1]) == Some(jti) {
      m := n - 1;
    } else {
      m := LiveWasMinted(evs, n - 1, jti);
    }
  }

  lemma {:induction false} StaysGone(evs: seq<Event>, i: nat, n: nat, jti: Jti)
    requires i <= n <= |evs| && jti !in After(evs, i)
    requires forall k :: i <= k < n ==> Mints(evs[k]) != Some(jti)
    ensures jti !in After(evs, n)
  {
    if i < n { StaysGone(evs, i, n - 1, jti); }
  }

  /** Each refresh id is accepted at most once in any run. */
  lemma AcceptedAtMostOnce(evs: seq<Event>, i: nat, k: nat, jti: Jti)
    requires DistinctIds(evs) && i < k < |evs|
    ensures !(Accepts(evs, i, jti) && Accepts(evs, k, jti))
  {
    if Accepts(evs, i, jti) {
      var m := LiveWasMinted(evs, i, jti);
      StaysGone(evs, i + 1, k, jti);
    }
  }

  // ----- lineages -----

  /** For every id ever handed out, the event that created its first ancestor. */
  function Roots(evs: seq<Event>, n: nat): map<Jti, nat>
    requires n <= |evs|
  {
    if n == 0 then map[]
    else
      var roots, e := Roots(evs, n - 1), evs[n - 1];
      match Reply(After(evs, n - 1), e)
      case Created(j) => roots[j := n - 1]
      case Rotated(j, _) => if e.op.Rotate? && e.op.oldJti in roots then roots[j := roots[e.op.oldJti]] else roots
      case _ => roots
  }

  /** Every live session descends from one CreateSession and belongs to its user. */
  ghost predicate Rooted(evs: seq<Event>, n: nat)
    requires n <= |evs|
  {
    var t, roots := After(evs, n), Roots(evs, n);
    forall j :: j in t ==>
      && j in roots && roots[j] < n && evs[roots[j]].op.Create?
      && t[j].userId == evs[roots[j]].op.userId
  }

  /** No two live sessions descend from the same CreateSession. */
  ghost predicate OneHeirEach(evs: seq<Event>, n: nat)
    requires n <= |evs|
  {
    var t, roots := After(evs, n), Roots(evs, n);
    forall a, b :: a in t && b in t && a in roots && b in roots && roots[a] == roots[b] ==> a == b
  }

  ghost predicate RootsMinted(evs: seq<Event>, n: nat)
    requires n <= |evs|
  {
    var roots := Roots(evs, n);
    forall j :: j in roots ==> roots[j] < n && exists m :: 0 <= m < n && Mints(evs[m]) == Some(j)
  }

  lemma {:induction false} MintedRoots(evs: seq<Event>, n: nat)
    requires n <= |evs|
    ensures RootsMinted(evs, n)
  {
    if n > 0 {
      MintedRoots(evs, n - 1);
      var roots, later := Roots(evs, n - 1), Roots(evs, n);
      forall j | j in later
        ensures later[j] < n && exists m :: 0 <= m < n && Mints(evs[m]) == Some(j)
      {
        if Mints(evs[n - 1]) != Some(j) { assert j in roots && later[j] == roots[j]; }
      }
    }
  }

  lemma MintsUnknown(evs: seq<Event>, n: nat)
    requires DistinctIds(evs) && n < |evs|
    ensures Mints(evs[n]).Some? ==> Mints(evs[n]).value !in Roots(evs, n)
  {
    MintedRoots(evs, n);
  }

  lemma {:induction false} DescendsFromLogin(evs: seq<Event>, n: nat)
    requires DistinctIds(evs) && n <= |evs|
    ensures Rooted(evs, n)
  {
    if n > 0 {
      DescendsFromLogin(evs, n - 1);
      MintsUnknown(evs, n - 1);
      MintedRoots(evs, n - 1);
      RootedStep(evs, n);
    }
  }

  lemma RootedStep(evs: seq<Event>, n: nat)
    requires 0 < n <= |evs| && Rooted(evs, n - 1) && RootsMinted(evs, n - 1)
    requires Mints(evs[n - 1]).Some? ==> Mints(evs[n - 1]).value !in Roots(evs, n - 1)
    ensures Rooted(evs, n)
  {
    var t, roots, e := After(evs, n - 1), Roots(evs, n - 1), evs[n - 1];
    var u, later := After(evs, n), Roots(evs, n);
    hide RootsMinted;
    forall j | j in u
      ensures j in later && later[j] < n && evs[later[j]].op.Create? && u[j].userId == evs[later[j]].op.userId
    {
      if Mints(e) == Some(j) {
        if e.op.Rotate? { assert e.op.oldJti in t; }
      } else {
        assert j in t && u[j] == t[j] && j in roots && later[j] == roots[j];
      }
    }
  }

  lemma {:induction false} OneLiveHeirPerLogin(evs: seq<Event>, n: nat)
    requires DistinctIds(evs) && n <= |evs|
    ensures Rooted(evs, n) && OneHeirEach(evs, n)
  {
    DescendsFromLogin(evs, n);
    if n > 0 {
      OneLiveHeirPerLogin(evs, n - 1);
      MintsUnknown(evs, n - 1);
      MintedRoots(evs, n - 1);
      HeirStep(evs, n);
    }
  }

  /** The session a successful rotation replaces. */
  function Parent(e: Event): Option<Jti> {
    if e.op.Rotate? then Some(e.op.oldJti) else None
  }

  lemma OldHeir(evs: seq<Event>, n: nat, j: Jti)
    requires 0 < n <= |evs| && Rooted(evs, n - 1)
    requires j in After(evs, n) && Mints(evs[n - 1]) != Some(j)
    ensures j in After(evs, n - 1) && j in Roots(evs, n - 1) && j in Roots(evs, n)
      && Roots(evs, n)[j] == Roots(evs, n - 1)[j]
    ensures Some(j) != Parent(evs[n - 1])
  {
  }

  lemma NewHeir(evs: seq<Event>, n: nat, j: Jti)
    requires 0 < n <= |evs| && Rooted(evs, n - 1)
    requires j in After(evs, n) && Mints(evs[n - 1]) == Some(j) && j !in Roots(evs, n - 1)
    ensures j in Roots(evs, n)
    ensures var parent := Parent(evs[n - 1]);
      if parent.Some? then
        && parent.value in After(evs, n - 1) && parent.value in Roots(evs, n - 1)
        && Roots(evs, n)[j] == Roots(evs, n - 1)[parent.value]
      else Roots(evs, n)[j] == n - 1
  {
  }

  lemma HeirStep(evs: seq<Event>, n: nat)
    requires 0 < n <= |evs| && Rooted(evs, n - 1) && OneHeirEach(evs, n - 1) && RootsMinted(evs, n - 1)
    requires Mints(evs[n - 1]).Some? ==> Mints(evs[n - 1]).value !in Roots(evs, n - 1)
    ensures OneHeirEach(evs, n)
  {
    hide After, Roots, Rooted;
    forall a, b | a in After(evs, n) && b in After(evs, n) && a in Roots(evs, n) && b in Roots(evs, n)
      && Roots(evs, n)[a] == Roots(evs, n)[b]
      ensures a == b
    {
      if Mints(evs[n - 1]) == Some(a) { NewHeir(evs, n, a); } else { OldHeir(evs, n, a); }
      if Mints(evs[n - 1]) == Some(b) { NewHeir(evs, n, b); } else { OldHeir(evs, n, b); }
    }
  }

  // ----- cleanup is invisible -----

  /** The same store when nobody ever purges. */
  function Unpurged(evs: seq<Event>, n: nat): Table
    requires n <= |evs|
  {
    if n == 0 then map[]
    else if evs[n - 1].op.Purge? then Unpurged(evs, n - 1)
    else Step(Unpurged(evs, n - 1), evs[n - 1])
  }

  predicate MonotoneClock(evs: seq<Event>) {
    forall i, k :: 0 <= i < k < |evs| ==> evs[i].now <= evs[k].now
  }

  /** The purged table lacks nothing but lapsed sessions. */
  ghost predicate LacksOnlyLapsed(t: Table, u: Table, now: int) {
    && (forall j :: j in t ==> j in u && u[j] == t[j])
    && (forall j :: j in u && j !in t ==> Lapsed(u[j], now))
  }

  lemma {:induction false} PurgedTable(evs: seq<Event>, n: nat, now: int)
    requires MonotoneClock(evs) && n <= |evs| && (n > 0 ==> evs[n - 1].now <= now)
    ensures LacksOnlyLapsed(After(evs, n), Unpurged(evs, n), now)
  {
    if n > 0 {
      PurgedTable(evs, n - 1, evs[n - 1].now);
      PurgedStep(After(evs, n - 1), Unpurged(evs, n - 1), evs[n - 1]);
    }
  }

  lemma PurgedStep(t: Table, u: Table, e: Event)
    requires LacksOnlyLapsed(t, u, e.now)
    ensures LacksOnlyLapsed(Step(t, e), if e.op.Purge? then u else Step(u, e), e.now)
  {
  }

  /** Every store operation answers, as far as a client can tell, as if nothing were ever purged. */
  lemma PurgingIsInvisible(evs: seq<Event>, n: nat, signed: bool)
    requires MonotoneClock(evs) && n < |evs|
    ensures Agrees(evs, n, signed)
  {
    PurgedTable(evs, n, evs[n].now);
  }

  // ----- exactly when cleanup is invisible -----

  /** Purge k removed a session as lapsed which its rotation n, with an older clock, still finds in date. */
  ghost predicate Raced(evs: seq<Event>, k: nat, n: nat) {
    && k < n < |evs| && evs[k].op.Purge? && evs[n].op.Rotate?
    && var j := evs[n].op.oldJti;
    && RemovedBy(evs, k, j) && !Lapsed(After(evs, k)[j], evs[n].now)
    && Untouched(evs, k, n, j)
  }

  ghost predicate RemovedBy(evs: seq<Event>, k: nat, j: Jti)
    requires k < |evs|
  {
    evs[k].op.Purge? && j in After(evs, k) && Lapsed(After(evs, k)[j], evs[k].now)
  }

  /** No event strictly between k and n rotates or revokes j. */
  predicate Untouched(evs: seq<Event>, k: nat, n: nat, j: Jti)
    requires n <= |evs|
  {
    forall i :: k < i < n ==> !Touches(evs[i], j)
  }

  predicate Touches(e: Event, j: Jti) {
    (e.op.Rotate? && e.op.oldJti == j) || (e.op.Revoke? && e.op.jti == j)
  }

  /** Event n answers, as far as a client can tell, as over the store that never purges. */
  ghost predicate Agrees(evs: seq<Event>, n: nat, signed: bool)
    requires n < |evs|
  {
    Outward(Reply(After(evs, n), evs[n]), signed) == Outward(Reply(Unpurged(evs, n), evs[n]), signed)
  }

  ghost predicate Contained(evs: seq<Event>, n: nat)
    requires n <= |evs|
  {
    forall j :: j in After(evs, n) ==> j in Unpurged(evs, n) && Unpurged(evs, n)[j] == After(evs, n)[j]
  }

  lemma {:induction false} MintedUnknown(evs: seq<Event>, n: nat)
    requires DistinctIds(evs) && n < |evs| && Mints(evs[n]).Some?
    ensures Mints(evs[n]).value !in After(evs, n)
  {
    if Mints(evs[n]).value in After(evs, n) {
      var m := LiveWasMinted(evs, n, Mints(evs[n]).value);
    }
  }

  lemma {:induction false} PurgedIsContained(evs: seq<Event>, n: nat)
    requires DistinctIds(evs) && n <= |evs|
    ensures Contained(evs, n)
  {
    if n > 0 {
      PurgedIsContained(evs, n - 1);
      if Mints(evs[n - 1]).Some? { MintedUnknown(evs, n - 1); }
    }
  }

  /** What nobody rotates or revokes stays in the store that never purges. */
  lemma {:induction false} UnpurgedPersists(evs: seq<Event>, k: nat, n: nat, j: Jti)
    requires DistinctIds(evs) && k < n <= |evs| && RemovedBy(evs, k, j) && Untouched(evs, k, n, j)
    ensures j in Unpurged(evs, n) && Unpurged(evs, n)[j] == After(evs, k)[j]
  {
    PurgedIsContained(evs, k);
    if k < n - 1 {
      UnpurgedPersists(evs, k, n - 1, j);
      var m := LiveWasMinted(evs, k, j);
    }
  }

  /** A race shows at its rotation. */
  lemma RaceShows(evs: seq<Event>, k: nat, n: nat, signed: bool)
    requires DistinctIds(evs) && Raced(evs, k, n)
    ensures !Agrees(evs, n, signed)
  {
    var j := evs[n].op.oldJti;
    var m := LiveWasMinted(evs, k, j);
    StaysGone(evs, k + 1, n, j);
    UnpurgedPersists(evs, k, n, j);
  }

  /** Purge k removed j, and nothing before n rotated or revoked it. */
  ghost predicate PurgedAt(evs: seq<Event>, k: nat, n: nat, j: Jti)
    requires n <= |evs|
  {
    k < n && RemovedBy(evs, k, j) && Untouched(evs, k, n, j)
  }

  /** Every session the purged table lacks was removed by a purge and not touched since. */
  ghost predicate Explained(evs: seq<Event>, n: nat)
    requires n <= |evs|
  {
    forall j :: j in Unpurged(evs, n) && j !in After(evs, n) ==> exists k :: PurgedAt(evs, k, n, j)
  }

  /** A session only the purged table lacks after event n is one this event purged or had lost before. */
  lemma Lost(evs: seq<Event>, n: nat, signed: bool, j: Jti)
    requires n < |evs| && Contained(evs, n) && Agrees(evs, n, signed)
    requires j in Unpurged(evs, n + 1) && j !in After(evs, n + 1)
    ensures j in Unpurged(evs, n) && !Touches(evs[n], j)
    ensures j in After(evs, n) ==> PurgedAt(evs, n, n + 1, j)
  {
  }

  lemma ExplainedStep(evs: seq<Event>, n: nat, signed: bool)
    requires n < |evs| && Contained(evs, n) && Explained(evs, n) && Agrees(evs, n, signed)
    ensures Explained(evs, n + 1)
  {
    hide RemovedBy, Agrees, After, Unpurged, Contained, Touches;
    var next := n + 1;
    forall j | j in Unpurged(evs, next) && j !in After(evs, next)
      ensures exists k :: PurgedAt(evs, k, next, j)
    {
      Lost(evs, n, signed, j);
      if j !in After(evs, n) {
        var k :| PurgedAt(evs, k, n, j);
        assert PurgedAt(evs, k, next, j);
      }
    }
  }

  lemma ClashIsRace(evs: seq<Event>, n: nat, signed: bool)
    requires DistinctIds(evs) && n < |evs| && Contained(evs, n) && Explained(evs, n) && !Agrees(evs, n, signed)
    ensures exists k :: Raced(evs, k, n)
  {
    var j := evs[n].op.oldJti;
    assert j in Unpurged(evs, n) && j !in After(evs, n) && !Lapsed(Unpurged(evs, n)[j], evs[n].now);
    var k :| PurgedAt(evs, k, n, j);
    UnpurgedPersists(evs, k, n, j);
    assert Raced(evs, k, n);
  }

  lemma {:induction false} NoRaceNoTrace(evs: seq<Event>, n: nat, signed: bool)
    requires DistinctIds(evs) && n <= |evs| && forall k, i :: !Raced(evs, k, i)
    ensures Explained(evs, n) && forall i :: 0 <= i < n ==> Agrees(evs, i, signed)
  {
    hide Raced, Agrees, After, Unpurged, Contained;
    if n > 0 {
      NoRaceNoTrace(evs, n - 1, signed);
      PurgedIsContained(evs, n - 1);
      if !Agrees(evs, n - 1, signed) { ClashIsRace(evs, n - 1, signed); }
      ExplainedStep(evs, n - 1, signed);
    } else {
      NothingUnexplained(evs);
    }
  }

  lemma NothingUnexplained(evs: seq<Event>)
    ensures Explained(evs, 0)
  {
  }

  /** In a run whose ids never repeat, purging is invisible if and only if no rotation races a purge. */
  lemma PurgingIsInvisibleIff(evs: seq<Event>, signed: bool)
    requires DistinctIds(evs)
    ensures (forall n :: 0 <= n < |evs| ==> Agrees(evs, n, signed)) <==> !exists k, n :: Raced(evs, k, n)
  {
    if exists k, n :: Raced(evs, k, n) {
      var k, n :| Raced(evs, k, n);
      RaceShows(evs, k, n, signed);
    } else {
      NoRaceNoTrace(evs, |evs|, signed);
    }
  }

  /** A clock that never goes back admits no race. */
  lemma MonotoneNeverRaces(evs: seq<Event>, k: nat, n: nat)
    requires MonotoneClock(evs)
    ensures !Raced(evs, k, n)
  {
  }

  /** A refresh whose signing failed is, to the store, a rotation and a revocation. */
  lemma FailedRefreshIsRotateThenRevoke(t: Table, now: int, later: int, token: Option<Claims>, minted: Option<Jti>)
    requires Refreshable(token) && Reply(t, Refreshing(now, token, minted)).Rotated?
    ensures Step(Step(t, Refreshing(now, token, minted)), Event(later, Revoke(minted.value)))
      == t - {Named(token).value, minted.value}
  {
  }

  /** Rotate reads the clock before it takes the lock; should a purge slip in between, it shows. */
  lemma StaleClockShowsPurge()
    ensures var evs := [Event(0, Create(7, Some(1), 10)), Event(12, Purge), Event(9, Rotate(1, Some(2), 10))];
      && DistinctIds(evs) && !MonotoneClock(evs) && Raced(evs, 1, 2)
      && Outward(Reply(After(evs, 2), evs[2]), true) == Unauthorized
      && Outward(Reply(Unpurged(evs, 2), evs[2]), true) == Pair(7, 2)
  {
    var evs := [Event(0, Create(7, Some(1), 10)), Event(12, Purge), Event(9, Rotate(1, Some(2), 10))];
    var created := map[1 := Session(7, 0, 10)];
    assert After(evs, 1) == created && Unpurged(evs, 1) == created;
    assert After(evs, 2) == map[] && Unpurged(evs, 2) == created;
    assert evs[0].now <= evs[1].now && evs[2].now < evs[1].now;
  }

  // ----- how long a session lasts -----

  /** Event i handed out `jti`. */
  predicate HandsOut(evs: seq<Event>, i: nat, jti: Jti)
    requires i < |evs|
  {
    Mints(evs[i]) == Some(jti) && (evs[i].op.Rotate? ==> Reply(After(evs, i), evs[i]).Rotated?)
  }

  function Ttl(e: Event): int
    requires e.op.Create? || e.op.Rotate?
  {
    e.op.ttl
  }

  /** Untouched, a session stays with its expiry until it lapses. */
  lemma {:induction false} StaysUntilLapsed(evs: seq<Event>, i: nat, n: nat, jti: Jti)
    requires DistinctIds(evs) && MonotoneClock(evs)
    requires i < n <= |evs| && HandsOut(evs, i, jti) && Untouched(evs, i, n, jti)
    ensures var t, end := After(evs, n), evs[i].now + Ttl(evs[i]);
      if jti in t then t[jti].expiresAt == end else evs[n - 1].now > end
  {
    if i < n - 1 {
      StaysUntilLapsed(evs, i, n - 1, jti);
      assert !Touches(evs[n - 1], jti) && Mints(evs[n - 1]) != Some(jti);
    }
  }

  /** A session that was handed out and since neither rotated nor revoked is accepted exactly until
      its time to live has passed, provided a new id can be minted. */
  lemma AcceptedWithinTtl(evs: seq<Event>, i: nat, n: nat, jti: Jti)
    requires DistinctIds(evs) && MonotoneClock(evs)
    requires i < n < |evs| && HandsOut(evs, i, jti) && Untouched(evs, i, n, jti)
    requires evs[n].op.Rotate? && evs[n].op.oldJti == jti
    ensures Accepts(evs, n, jti) <==> evs[n].now <= evs[i].now + Ttl(evs[i]) && evs[n].op.minted.Some?
  {
    StaysUntilLapsed(evs, i, n, jti);
  }
}
