/** Login, sessions and lockouts (managementAuth.ts). Times are milliseconds of a clock that never goes back. */
module ManagementAuth {
  import opened Wrappers

  const MAX_SESSIONS: nat := 32
  const FAILURE_WINDOW_MS: nat := 15 * 60_000
  const FAILURE_LIMIT: nat := 5
  const BASE_LOCKOUT_MS: nat := 30_000
  const MAX_LOCKOUT_MS: nat := 15 * 60_000

  datatype Config = Config(idleTimeoutMs: nat, absoluteTimeoutMs: nat)

  datatype Session = Session(key: string, createdAt: int, lastSeenAt: int)
  datatype FailureState = FailureState(count: nat, firstAt: int, blockedUntil: int)

  /** The session table in insertion order, as a JavaScript Map keeps it, and the failures by client and name. */
  datatype Auth = Auth(sessions: seq<Session>, failures: map<string, FailureState>)

  datatype Reply =
    | LoggedIn(expiresAt: int)
    | Refused(retryAfterSeconds: Option<int>)
    | Active(expiresAt: int)
    | NoSession
    | LoggedOut

  // ------------------------------------------------------------------ sessions

  predicate Expired(cfg: Config, s: Session, now: int) {
    now - s.lastSeenAt > cfg.idleTimeoutMs || now - s.createdAt > cfg.absoluteTimeoutMs
  }

  /** publicSession: what the client is told. */
  function ExpiresAt(cfg: Config, s: Session): int {
    var absolute, idle := s.createdAt + cfg.absoluteTimeoutMs, s.lastSeenAt + cfg.idleTimeoutMs;
    if absolute < idle then absolute else idle
  }

  function Find(ss: seq<Session>, key: string): (r: int)
    ensures -1 <= r < |ss|
    ensures r >= 0 ==> ss[r].key == key && forall i | 0 <= i < r :: ss[i].key != key
    ensures r < 0 ==> forall i | 0 <= i < |ss| :: ss[i].key != key
  {
    if ss == [] then -1
    else if ss[0].key == key then 0
    else
      var r := Find(ss[1..], key);
      if r < 0 then -1 else r + 1
  }

  /** Map.set: an entry of the same key keeps its place. */
  function Set(ss: seq<Session>, s: Session): seq<Session> {
    var i := Find(ss, s.key);
    if i < 0 then ss + [s] else ss[i := s]
  }

  function Delete(ss: seq<Session>, key: string): seq<Session> {
    var i := Find(ss, key);
    if i < 0 then ss else ss[..i] + ss[i + 1..]
  }

  /** The sessions prune leaves. */
  function Live(cfg: Config, ss: seq<Session>, now: int): seq<Session> {
    if ss == [] then [] else (if Expired(cfg, ss[0], now) then [] else [ss[0]]) + Live(cfg, ss[1..], now)
  }

  /** The table with room for one more: the oldest entries have gone. */
  function Evict(ss: seq<Session>): (r: seq<Session>)
    ensures |r| < MAX_SESSIONS && |r| <= |ss|
  {
    if |ss| >= MAX_SESSIONS then ss[|ss| - MAX_SESSIONS + 1..] else ss
  }

  // ------------------------------------------------------------------ failures

  function Power(exponent: nat): nat {
    if exponent == 0 then 1 else 2 * Power(exponent - 1)
  }

  function Lockout(count: nat): nat
    requires count >= FAILURE_LIMIT
  {
    var steps := if count - FAILURE_LIMIT < 5 then count - FAILURE_LIMIT else 5;
    var wait := BASE_LOCKOUT_MS * Power(steps);
    if wait < MAX_LOCKOUT_MS then wait else MAX_LOCKOUT_MS
  }

  /** Failures that can no longer matter. */
  predicate Stale(f: FailureState, now: int) {
    f.blockedUntil <= now && now - f.firstAt > FAILURE_WINDOW_MS
  }

  function Failures(failures: map<string, FailureState>, now: int): map<string, FailureState> {
    map key | key in failures && !Stale(failures[key], now) :: failures[key]
  }

  function Get(failures: map<string, FailureState>, key: string): Option<FailureState> {
    if key in failures then Some(failures[key]) else None
  }

  predicate Blocked(f: Option<FailureState>, now: int) {
    f.Some? && f.value.blockedUntil > now
  }

  /** One more failure; the window may have to start anew. */
  function Failed(f: Option<FailureState>, now: int): FailureState {
    var state := if f.Some? && now - f.value.firstAt <= FAILURE_WINDOW_MS then f.value else FailureState(0, now, 0);
    var count := state.count + 1;
    FailureState(count, state.firstAt, if count >= FAILURE_LIMIT then now + Lockout(count) else 0)
  }

  /** Math.max(1, Math.ceil(milliseconds / 1000)). */
  function Seconds(milliseconds: int): int {
    var up := (milliseconds + 999) / 1000;
    if up < 1 then 1 else up
  }

  function RetryAfter(f: FailureState, now: int): Option<int> {
    if f.blockedUntil > now then Some(Seconds(f.blockedUntil - now)) else None
  }

  // ---------------------------------------------------------------- operations

  function Prune(cfg: Config, a: Auth, now: int): Auth {
    Auth(Live(cfg, a.sessions, now), Failures(a.failures, now))
  }

  function Login(cfg: Config, a: Auth, failureKey: string, credentialsMatch: bool, key: string, now: int): (Auth, Reply) {
    var current := Get(a.failures, failureKey);
    if Blocked(current, now) then (a, Refused(Some(Seconds(current.value.blockedUntil - now))))
    else if !credentialsMatch then
      var state := Failed(current, now);
      (a.(failures := a.failures[failureKey := state]), Refused(RetryAfter(state, now)))
    else
      var pruned := Prune(cfg, a.(failures := a.failures - {failureKey}), now);
      var stored := Session(key, now, now);
      (pruned.(sessions := Set(Evict(pruned.sessions), stored)), LoggedIn(ExpiresAt(cfg, stored)))
  }

  function Touch(cfg: Config, a: Auth, key: string, now: int): (Auth, Reply) {
    var i := Find(a.sessions, key);
    if i < 0 then (a, NoSession)
    else if Expired(cfg, a.sessions[i], now) then (a.(sessions := Delete(a.sessions, key)), NoSession)
    else
      var stored := a.sessions[i].(lastSeenAt := now);
      (a.(sessions := a.sessions[i := stored]), Active(ExpiresAt(cfg, stored)))
  }

  function Logout(a: Auth, key: string): (Auth, Reply) {
    (a.(sessions := Delete(a.sessions, key)), LoggedOut)
  }

  // ---------------------------------------------------------------------- runs

  /** `key` is the hash of the session token, whatever the token; a request without a valid cookie never gets here. */
  datatype Request =
    | LoginRequest(failureKey: string, credentialsMatch: bool, key: string)
    | SessionRequest(key: string)
    | LogoutRequest(key: string)

  datatype Event = Event(at: int, request: Request)

  function Step(cfg: Config, a: Auth, e: Event): (Auth, Reply) {
    match e.request
    case LoginRequest(failureKey, credentialsMatch, key) => Login(cfg, a, failureKey, credentialsMatch, key, e.at)
    case SessionRequest(key) => Touch(cfg, a, key, e.at)
    case LogoutRequest(key) => Logout(a, key)
  }

  const EMPTY: Auth := Auth([], map[])

  function After(cfg: Config, a: Auth, events: seq<Event>): Auth
    decreases |events|
  {
    if events == [] then a else After(cfg, Step(cfg, a, events[0]).0, events[1..])
  }

  function Replies(cfg: Config, a: Auth, events: seq<Event>): seq<Reply>
    decreases |events|
  {
    if events == [] then [] else [Step(cfg, a, events[0]).1] + Replies(cfg, Step(cfg, a, events[0]).0, events[1..])
  }

  /** The clock of a run that starts at `clock` never goes back. */
  predicate Monotone(events: seq<Event>, clock: int) {
    events == [] || (clock <= events[0].at && Monotone(events[1..], events[0].at))
  }

  function ClockAfter(events: seq<Event>, clock: int): int {
    if events == [] then clock else ClockAfter(events[1..], events[0].at)
  }

  // ------------------------------------------------------ what clients were told

  /** Sessions that had to make room at this event. */
  function Evicted(cfg: Config, a: Auth, e: Event): set<string> {
    if e.request.LoginRequest? && Step(cfg, a, e).1.LoggedIn? then
      var live := Live(cfg, a.sessions, e.at);
      set s | s in live[..|live| - |Evict(live)|] :: s.key
    else {}
  }

  /**
   * The expiry last reported for every session that was opened and neither
   * logged out nor evicted.
   */
  function Told(cfg: Config, a: Auth, told: map<string, int>, e: Event): map<string, int> {
    var reply := Step(cfg, a, e).1;
    match e.request
    case LoginRequest(_, _, key) => if reply.LoggedIn? then (told - Evicted(cfg, a, e))[key := reply.expiresAt] else told
    case SessionRequest(key) => if reply.Active? then told[key := reply.expiresAt] else told
    case LogoutRequest(key) => told - {key}
  }

  function ToldAfter(cfg: Config, a: Auth, told: map<string, int>, events: seq<Event>): map<string, int>
    decreases |events|
  {
    if events == [] then told else ToldAfter(cfg, Step(cfg, a, events[0]).0, Told(cfg, a, told, events[0]), events[1..])
  }

  predicate Distinct(ss: seq<Session>) {
    forall i, j | 0 <= i < j < |ss| :: ss[i].key != ss[j].key
  }

  function Keys(ss: seq<Session>): set<string> {
    set s | s in ss :: s.key
  }

  /** The table and what clients were told agree: what is missing from the table has expired. */
  predicate Tracked(cfg: Config, a: Auth, told: map<string, int>, clock: int) {
    && |a.sessions| <= MAX_SESSIONS && Distinct(a.sessions)
    && (forall s | s in a.sessions :: s.key in told && told[s.key] == ExpiresAt(cfg, s))
    && (forall key | key in told && key !in Keys(a.sessions) :: told[key] < clock)
  }

  lemma ExpiredMeansLate(cfg: Config, s: Session, now: int)
    ensures Expired(cfg, s, now) <==> now > ExpiresAt(cfg, s)
  {
  }

  // ------------------------------------------------------------ about the table

  lemma FindIs(ss: seq<Session>, key: string, k: int)
    requires -1 <= k < |ss| && Distinct(ss)
    requires if k >= 0 then ss[k].key == key else forall i | 0 <= i < |ss| :: ss[i].key != key
    ensures Find(ss, key) == k
  {
  }

  /** Live keeps the order, the keys distinct, and exactly the sessions that have not expired. */
  lemma {:induction false} LiveMembers(cfg: Config, ss: seq<Session>, now: int)
    requires Distinct(ss)
    ensures Distinct(Live(cfg, ss, now)) && |Live(cfg, ss, now)| <= |ss|
    ensures forall s :: s in Live(cfg, ss, now) <==> s in ss && !Expired(cfg, s, now)
  {
    if ss == [] {
    } else {
      var rest := Live(cfg, ss[1..], now);
      LiveMembers(cfg, ss[1..], now);
      var r := Live(cfg, ss, now);
      forall i, j | 0 <= i < j < |r| ensures r[i].key != r[j].key {
        if !Expired(cfg, ss[0], now) {
          assert r[j] in rest && r[j] in ss[1..];
          if i > 0 { assert rest[i - 1].key != rest[j - 1].key; }
        }
      }
      forall s ensures s in r <==> s in ss && !Expired(cfg, s, now) {
        assert s in ss <==> s == ss[0] || s in ss[1..];
        assert s in r <==> (s == ss[0] && !Expired(cfg, ss[0], now)) || s in rest;
      }
    }
  }

  lemma {:induction false} LiveConcat(cfg: Config, a: seq<Session>, b: seq<Session>, now: int)
    ensures Live(cfg, a + b, now) == Live(cfg, a, now) + Live(cfg, b, now)
  {
    if a == [] {
      assert a + b == b;
    } else {
      assert (a + b)[1..] == a[1..] + b;
      LiveConcat(cfg, a[1..], b, now);
    }
  }

  /** Once expired, always expired. */
  lemma {:induction false} LiveLater(cfg: Config, ss: seq<Session>, now: int, later: int)
    requires now <= later
    ensures Live(cfg, Live(cfg, ss, now), later) == Live(cfg, ss, later)
  {
    if ss == [] {
    } else {
      LiveLater(cfg, ss[1..], now, later);
      var rest := Live(cfg, ss[1..], now);
      if Expired(cfg, ss[0], now) {
        assert Live(cfg, ss, now) == rest;
        assert Expired(cfg, ss[0], later);
      } else {
        assert ([ss[0]] + rest)[1..] == rest;
      }
    }
  }

  lemma FindKey(ss: seq<Session>, key: string)
    ensures Find(ss, key) >= 0 <==> key in Keys(ss)
    ensures Find(ss, key) >= 0 ==> ss[Find(ss, key)] in ss
  {
    if key in Keys(ss) {
      var s :| s in ss && s.key == key;
      var i :| 0 <= i < |ss| && ss[i] == s;
    }
  }

  lemma KeyOf(ss: seq<Session>, s: Session)
    requires Distinct(ss) && s in ss
    ensures Find(ss, s.key) >= 0 && ss[Find(ss, s.key)] == s
  {
    var i :| 0 <= i < |ss| && ss[i] == s;
    FindIs(ss, s.key, i);
  }

  lemma RemovedMembers(ss: seq<Session>, i: nat)
    requires Distinct(ss) && i < |ss|
    ensures var r := ss[..i] + ss[i + 1..]; Distinct(r) && forall s :: s in r <==> s in ss && s.key != ss[i].key
  {
    var r := ss[..i] + ss[i + 1..];
    RemovedDistinct(ss, i);
    forall s ensures s in r <==> s in ss && s.key != ss[i].key { RemovedMember(ss, i, s); }
  }

  lemma RemovedDistinct(ss: seq<Session>, i: nat)
    requires Distinct(ss) && i < |ss|
    ensures Distinct(ss[..i] + ss[i + 1..])
  {
    var r := ss[..i] + ss[i + 1..];
    forall j, k | 0 <= j < k < |r| ensures r[j].key != r[k].key {
      assert r[j] == ss[if j < i then j else j + 1] && r[k] == ss[if k < i then k else k + 1];
    }
  }

  lemma RemovedMember(ss: seq<Session>, i: nat, s: Session)
    requires Distinct(ss) && i < |ss|
    ensures s in ss[..i] + ss[i + 1..] <==> s in ss && s.key != ss[i].key
  {
    if s in ss && s.key != ss[i].key {
      var j :| 0 <= j < |ss| && ss[j] == s;
      assert (if j < i then ss[..i][j] else ss[i + 1..][j - i - 1]) == s;
    }
    if s in ss[..i] { var j :| 0 <= j < i && ss[j] == s; }
    if s in ss[i + 1..] { var j :| i < j < |ss| && ss[j] == s; }
  }

  lemma DeleteMembers(ss: seq<Session>, key: string)
    requires Distinct(ss)
    ensures var r := Delete(ss, key);
            Distinct(r) && |r| <= |ss| && (forall s :: s in r <==> s in ss && s.key != key) && Keys(r) == Keys(ss) - {key}
  {
    hide Find, Distinct;
    var i := Find(ss, key);
    FindKey(ss, key);
    if i >= 0 { RemovedMembers(ss, i); }
  }

  /** Put into a table with room, the new session is there, and everything else as before. */
  lemma SetMembers(ss: seq<Session>, stored: Session)
    requires Distinct(ss)
    ensures var r := Set(ss, stored);
            && Distinct(r) && |r| <= |ss| + 1
            && (forall s :: s in r <==> s == stored || (s in ss && s.key != stored.key)) && Keys(r) == Keys(ss) + {stored.key}
  {
    hide Find;
    var i := Find(ss, stored.key);
    FindKey(ss, stored.key);
    var r := Set(ss, stored);
    forall s ensures s in r <==> s == stored || (s in ss && s.key != stored.key) {
      if s in ss && s.key != stored.key {
        var j :| 0 <= j < |ss| && ss[j] == s;
        assert r[j] == s;
      }
      if s == stored { assert r[if i < 0 then |ss| else i] == s; }
    }
  }

  lemma EvictMembers(ss: seq<Session>)
    requires Distinct(ss)
    ensures var r := Evict(ss); var gone := ss[..|ss| - |r|];
            && ss == gone + r && Distinct(r) && (forall s :: s in ss <==> s in gone || s in r)
            && Keys(gone) !! Keys(r)
  {
    var r := Evict(ss);
    var n := |ss| - |r|;
    assert ss == ss[..n] + ss[n..] && r == ss[n..];
  }

  // -------------------------------------------------- the expiry told is kept

  lemma TouchTracks(cfg: Config, a: Auth, told: map<string, int>, clock: int, e: Event)
    requires Tracked(cfg, a, told, clock) && clock <= e.at && e.request.SessionRequest?
    ensures Tracked(cfg, Step(cfg, a, e).0, Told(cfg, a, told, e), e.at)
  {
    hide Expired, ExpiresAt, Find, Delete, Set, Distinct, Keys;
    var key := e.request.key;
    var i := Find(a.sessions, key);
    FindKey(a.sessions, key);
    if i >= 0 {
      var found := a.sessions[i];
      var stored := found.(lastSeenAt := e.at);
      ExpiredMeansLate(cfg, found, e.at);
      DeleteMembers(a.sessions, key);
      SetMembers(a.sessions, stored);
      assert Set(a.sessions, stored) == a.sessions[i := stored] by { SetInPlace(a.sessions, stored); }
    }
  }

  lemma SetInPlace(ss: seq<Session>, stored: Session)
    requires Find(ss, stored.key) >= 0
    ensures Set(ss, stored) == ss[Find(ss, stored.key) := stored]
  {
  }

  lemma LogoutTracks(cfg: Config, a: Auth, told: map<string, int>, clock: int, e: Event)
    requires Tracked(cfg, a, told, clock) && clock <= e.at && e.request.LogoutRequest?
    ensures Tracked(cfg, Step(cfg, a, e).0, Told(cfg, a, told, e), e.at)
  {
    hide Expired, ExpiresAt, Find, Delete, Distinct, Keys;
    DeleteMembers(a.sessions, e.request.key);
  }

  lemma LoginTracks(cfg: Config, a: Auth, told: map<string, int>, clock: int, e: Event)
    requires Tracked(cfg, a, told, clock) && clock <= e.at && e.request.LoginRequest?
    ensures Tracked(cfg, Step(cfg, a, e).0, Told(cfg, a, told, e), e.at)
  {
    hide Expired, ExpiresAt, Find, Set, Evict, Live, Failed, Failures, Lockout, Distinct;
    var b, after := Step(cfg, a, e).0, Told(cfg, a, told, e);
    if Step(cfg, a, e).1.LoggedIn? {
      var live := Live(cfg, a.sessions, e.at);
      var kept := Evict(live);
      var gone := live[..|live| - |kept|];
      var stored := Session(e.request.key, e.at, e.at);
      LiveMembers(cfg, a.sessions, e.at);
      EvictMembers(live);
      SetMembers(kept, stored);
      assert b.sessions == Set(kept, stored);
      assert Evicted(cfg, a, e) == Keys(gone);
      forall k | k in after && k !in Keys(b.sessions) ensures after[k] < e.at {
        assert k in told && k != stored.key && k !in Keys(kept) && k !in Keys(gone);
        if k in Keys(a.sessions) {
          var s :| s in a.sessions && s.key == k;
          assert s !in kept && s !in gone;
          ExpiredMeansLate(cfg, s, e.at);
        }
      }
    } else {
      assert b.sessions == a.sessions;
    }
  }

  lemma StepTracks(cfg: Config, a: Auth, told: map<string, int>, clock: int, e: Event)
    requires Tracked(cfg, a, told, clock) && clock <= e.at
    ensures Tracked(cfg, Step(cfg, a, e).0, Told(cfg, a, told, e), e.at)
  {
    hide Tracked, Step, Told;
    match e.request {
      case LoginRequest(_, _, _) => LoginTracks(cfg, a, told, clock, e);
      case SessionRequest(_) => TouchTracks(cfg, a, told, clock, e);
      case LogoutRequest(_) => LogoutTracks(cfg, a, told, clock, e);
    }
  }

  lemma {:induction false} RunTracks(cfg: Config, a: Auth, told: map<string, int>, clock: int, events: seq<Event>)
    requires Tracked(cfg, a, told, clock) && Monotone(events, clock)
    ensures Tracked(cfg, After(cfg, a, events), ToldAfter(cfg, a, told, events), ClockAfter(events, clock))
    decreases |events|
  {
    hide Tracked, Step, Told;
    if events == [] {
    } else {
      StepTracks(cfg, a, told, clock, events[0]);
      RunTracks(cfg, Step(cfg, a, events[0]).0, Told(cfg, a, told, events[0]), events[0].at, events[1..]);
    }
  }

  /**
   * Over every run: a session that was opened and neither logged out nor
   * evicted is accepted at a time exactly when that time is not later than the
   * expiry last reported for it, and any other is never accepted. The table
   * never holds more than 32 sessions.
   */
  lemma SessionLastsAsTold(cfg: Config, events: seq<Event>, start: int, key: string, now: int)
    requires Monotone(events, start) && ClockAfter(events, start) <= now
    ensures var a := After(cfg, EMPTY, events); var told := ToldAfter(cfg, EMPTY, map[], events);
            && |a.sessions| <= MAX_SESSIONS
            && (Touch(cfg, a, key, now).1.Active? <==> key in told && now <= told[key])
  {
    RunTracks(cfg, EMPTY, map[], start, events);
    hide After, ToldAfter, ClockAfter, Monotone, Expired, ExpiresAt, Find, Distinct, Keys;
    var a := After(cfg, EMPTY, events);
    FindKey(a.sessions, key);
    if Find(a.sessions, key) >= 0 { ExpiredMeansLate(cfg, a.sessions[Find(a.sessions, key)], now); }
  }

  /** A login that succeeds is in the table afterwards, behind every session that was kept, and those are the newest that had not expired. */
  lemma NewestSurvives(cfg: Config, a: Auth, failureKey: string, key: string, now: int)
    requires Distinct(a.sessions) && Find(a.sessions, key) < 0 && !Blocked(Get(a.failures, failureKey), now)
    ensures var (b, reply) := Login(cfg, a, failureKey, true, key, now); var live := Live(cfg, a.sessions, now);
            var n := if |live| < MAX_SESSIONS then |live| else MAX_SESSIONS - 1;
            reply.LoggedIn? && b.sessions == live[|live| - n..] + [Session(key, now, now)]
  {
    hide Expired, Find, Failures;
    LiveMembers(cfg, a.sessions, now);
    var live := Live(cfg, a.sessions, now);
    EvictMembers(live);
    FindKey(a.sessions, key);
    FindKey(Evict(live), key);
    hide Live, Distinct;
  }

  // ------------------------------------------------------------- pruning

  /** What a failure still means at a time. */
  function Relevant(f: Option<FailureState>, now: int): Option<FailureState> {
    if f.Some? && !Stale(f.value, now) then f else None
  }

  /** Two states that no request from now on can tell apart. */
  ghost predicate Alike(cfg: Config, a: Auth, b: Auth, clock: int) {
    && Distinct(a.sessions) && Distinct(b.sessions)
    && Live(cfg, a.sessions, clock) == Live(cfg, b.sessions, clock)
    && forall key :: Relevant(Get(a.failures, key), clock) == Relevant(Get(b.failures, key), clock)
  }

  lemma AlikeLater(cfg: Config, a: Auth, b: Auth, clock: int, later: int)
    requires Alike(cfg, a, b, clock) && clock <= later
    ensures Alike(cfg, a, b, later)
  {
    hide Live, Distinct;
    LiveLater(cfg, a.sessions, clock, later);
    LiveLater(cfg, b.sessions, clock, later);
    forall key ensures Relevant(Get(a.failures, key), later) == Relevant(Get(b.failures, key), later) {
      assert Relevant(Get(a.failures, key), clock) == Relevant(Get(b.failures, key), clock);
    }
  }

  /** Finding a live session does not depend on the expired ones. */
  lemma FindLive(cfg: Config, ss: seq<Session>, key: string, now: int)
    requires Distinct(ss)
    ensures var i, k := Find(ss, key), Find(Live(cfg, ss, now), key);
            && (k >= 0 <==> i >= 0 && !Expired(cfg, ss[i], now))
            && (k >= 0 ==> Live(cfg, ss, now)[k] == ss[i])
  {
    hide Find, Live, Distinct, Expired;
    var live := Live(cfg, ss, now);
    LiveMembers(cfg, ss, now);
    FindKey(ss, key);
    FindKey(live, key);
    if Find(live, key) >= 0 { KeyOf(ss, live[Find(live, key)]); }
  }

  lemma LiveOfDelete(cfg: Config, ss: seq<Session>, key: string, now: int)
    requires Distinct(ss)
    ensures Live(cfg, Delete(ss, key), now) == Delete(Live(cfg, ss, now), key)
  {
    hide Live, Find;
    var i := Find(ss, key);
    var live := Live(cfg, ss, now);
    LiveMembers(cfg, ss, now);
    FindLive(cfg, ss, key, now);
    if i >= 0 {
      LiveAround(cfg, ss, i, now);
      var before, after := Live(cfg, ss[..i], now), Live(cfg, ss[i + 1..], now);
      LiveConcat(cfg, ss[..i], ss[i + 1..], now);
      if !Expired(cfg, ss[i], now) {
        FindIs(live, key, |before|);
        assert live[..|before|] == before && live[|before| + 1..] == after;
      }
    }
  }

  lemma LiveAround(cfg: Config, ss: seq<Session>, i: nat, now: int)
    requires i < |ss|
    ensures Live(cfg, ss, now) ==
            Live(cfg, ss[..i], now) + (if Expired(cfg, ss[i], now) then [] else [ss[i]]) + Live(cfg, ss[i + 1..], now)
  {
    hide Expired;
    assert ss == ss[..i] + ([ss[i]] + ss[i + 1..]);
    LiveConcat(cfg, ss[..i], [ss[i]] + ss[i + 1..], now);
    LiveConcat(cfg, [ss[i]], ss[i + 1..], now);
    assert [ss[i]][1..] == [];
  }

  /** Renewing a live session in place renews it among the live ones. */
  lemma LiveOfUpdate(cfg: Config, ss: seq<Session>, i: nat, stored: Session, now: int)
    requires Distinct(ss) && i < |ss| && !Expired(cfg, ss[i], now) && !Expired(cfg, stored, now) && stored.key == ss[i].key
    ensures Live(cfg, ss[i := stored], now) == Set(Live(cfg, ss, now), stored)
  {
    hide Live, Find, Expired;
    var r := ss[i := stored];
    var live := Live(cfg, ss, now);
    LiveMembers(cfg, ss, now);
    LiveAround(cfg, ss, i, now);
    LiveAround(cfg, r, i, now);
    assert r[..i] == ss[..i] && r[i + 1..] == ss[i + 1..];
    FindIs(live, stored.key, |Live(cfg, ss[..i], now)|);
  }

  lemma StepAlike(cfg: Config, a: Auth, b: Auth, clock: int, e: Event)
    requires Alike(cfg, a, b, clock) && clock <= e.at
    ensures Step(cfg, a, e).1 == Step(cfg, b, e).1 && Alike(cfg, Step(cfg, a, e).0, Step(cfg, b, e).0, e.at)
  {
    AlikeLater(cfg, a, b, clock, e.at);
    hide Live, Find, Expired, Distinct, Set, Delete, ExpiresAt, Relevant;
    match e.request {
      case SessionRequest(key) => TouchAlike(cfg, a, b, key, e.at);
      case LogoutRequest(key) =>
        DeleteMembers(a.sessions, key);
        DeleteMembers(b.sessions, key);
        LiveOfDelete(cfg, a.sessions, key, e.at);
        LiveOfDelete(cfg, b.sessions, key, e.at);
      case LoginRequest(failureKey, match', key) => LoginAlike(cfg, a, b, failureKey, match', key, e.at);
    }
  }

  lemma TouchAlike(cfg: Config, a: Auth, b: Auth, key: string, now: int)
    requires Alike(cfg, a, b, now)
    ensures Touch(cfg, a, key, now).1 == Touch(cfg, b, key, now).1 && Alike(cfg, Touch(cfg, a, key, now).0, Touch(cfg, b, key, now).0, now)
  {
    hide Live, Find, Expired, Distinct, Set, Delete, ExpiresAt, Relevant;
    FindLive(cfg, a.sessions, key, now);
    FindLive(cfg, b.sessions, key, now);
    TouchLive(cfg, a, key, now);
    TouchLive(cfg, b, key, now);
  }

  /** A session request, seen from the live sessions. */
  lemma TouchLive(cfg: Config, a: Auth, key: string, now: int)
    requires Distinct(a.sessions)
    ensures var (b, reply) := Touch(cfg, a, key, now); var live := Live(cfg, a.sessions, now); var k := Find(live, key);
            && b.failures == a.failures && Distinct(b.sessions)
            && (reply.Active? <==> k >= 0)
            && (k < 0 ==> reply == NoSession && Live(cfg, b.sessions, now) == Delete(live, key))
            && (k >= 0 ==> var stored := live[k].(lastSeenAt := now);
                  reply == Active(ExpiresAt(cfg, stored)) && Live(cfg, b.sessions, now) == Set(live, stored))
  {
    hide Live, Find, Expired, Distinct, Set, ExpiresAt;
    FindLive(cfg, a.sessions, key, now);
    var i := Find(a.sessions, key);
    FindKey(a.sessions, key);
    DeleteMembers(a.sessions, key);
    LiveOfDelete(cfg, a.sessions, key, now);
    if i >= 0 && !Expired(cfg, a.sessions[i], now) {
      var stored := a.sessions[i].(lastSeenAt := now);
      RenewedIsLive(cfg, a.sessions[i], now);
      SetInPlace(a.sessions, stored);
      SetMembers(a.sessions, stored);
      LiveOfUpdate(cfg, a.sessions, i, stored, now);
    }
  }

  lemma RenewedIsLive(cfg: Config, s: Session, now: int)
    requires !Expired(cfg, s, now)
    ensures !Expired(cfg, s.(lastSeenAt := now), now)
  {
  }

  lemma LoginAlike(cfg: Config, a: Auth, b: Auth, failureKey: string, ok: bool, key: string, now: int)
    requires Alike(cfg, a, b, now)
    ensures Login(cfg, a, failureKey, ok, key, now).1 == Login(cfg, b, failureKey, ok, key, now).1
    ensures Alike(cfg, Login(cfg, a, failureKey, ok, key, now).0, Login(cfg, b, failureKey, ok, key, now).0, now)
  {
    hide Live, Find, Expired, Distinct, Set, ExpiresAt, Lockout, Seconds, Evict, Relevant, Failed, Failures, Blocked, Get, RetryAfter;
    var f, g := Get(a.failures, failureKey), Get(b.failures, failureKey);
    assert Relevant(f, now) == Relevant(g, now);
    SameDecision(f, g, now);
    var c, d := Login(cfg, a, failureKey, ok, key, now).0, Login(cfg, b, failureKey, ok, key, now).0;
    if !Blocked(f, now) {
      forall k ensures Relevant(Get(c.failures, k), now) == Relevant(Get(d.failures, k), now) {
        assert Relevant(Get(a.failures, k), now) == Relevant(Get(b.failures, k), now);
        if ok {
          StillRelevant(a.failures, failureKey, now, k);
          StillRelevant(b.failures, failureKey, now, k);
        } else {
          GetAfterSet(a.failures, failureKey, Failed(f, now), k);
          GetAfterSet(b.failures, failureKey, Failed(g, now), k);
        }
      }
    }
    LiveMembers(cfg, a.sessions, now);
    EvictMembers(Live(cfg, a.sessions, now));
    SetMembers(Evict(Live(cfg, a.sessions, now)), Session(key, now, now));
  }

  lemma SameDecision(f: Option<FailureState>, g: Option<FailureState>, now: int)
    requires Relevant(f, now) == Relevant(g, now)
    ensures (Blocked(f, now) <==> Blocked(g, now)) && (Blocked(f, now) ==> f == g) && (!Blocked(f, now) ==> Failed(f, now) == Failed(g, now))
  {
    hide Lockout;
  }

  lemma StillRelevant(failures: map<string, FailureState>, failureKey: string, now: int, key: string)
    ensures Relevant(Get(Failures(failures - {failureKey}, now), key), now) ==
            if key == failureKey then None else Relevant(Get(failures, key), now)
  {
  }

  lemma GetAfterSet(failures: map<string, FailureState>, failureKey: string, f: FailureState, key: string)
    ensures Get(failures[failureKey := f], key) == if key == failureKey then Some(f) else Get(failures, key)
  {
  }

  lemma {:induction false} RunAlike(cfg: Config, a: Auth, b: Auth, clock: int, events: seq<Event>)
    requires Alike(cfg, a, b, clock) && Monotone(events, clock)
    ensures Replies(cfg, a, events) == Replies(cfg, b, events)
    decreases |events|
  {
    hide Step, Alike;
    if events == [] {
    } else {
      StepAlike(cfg, a, b, clock, events[0]);
      RunAlike(cfg, Step(cfg, a, events[0]).0, Step(cfg, b, events[0]).0, events[0].at, events[1..]);
    }
  }

  /** Pruning changes no later answer, whatever requests follow. */
  lemma PruneIsInvisible(cfg: Config, a: Auth, now: int, events: seq<Event>)
    requires Distinct(a.sessions) && Monotone(events, now)
    ensures Replies(cfg, Prune(cfg, a, now), events) == Replies(cfg, a, events)
  {
    hide Live, Monotone, Replies;
    LiveMembers(cfg, a.sessions, now);
    LiveLater(cfg, a.sessions, now, now);
    RunAlike(cfg, Prune(cfg, a, now), a, now, events);
  }

  // ------------------------------------------------------------- lockouts

  /** The waits after the fifth to ninth failure: 30, 60, 120, 240 and 480 seconds. */
  lemma LockoutSchedule(count: nat)
    requires count >= FAILURE_LIMIT
    ensures BASE_LOCKOUT_MS <= Lockout(count) <= MAX_LOCKOUT_MS && Lockout(count) <= Lockout(count + 1)
    ensures Lockout(5) == 30_000 && Lockout(6) == 60_000 && Lockout(7) == 120_000 && Lockout(8) == 240_000 && Lockout(9) == 480_000
    ensures count >= 10 ==> Lockout(count) == MAX_LOCKOUT_MS
  {
    assert Power(0) == 1 && Power(1) == 2 && Power(2) == 4 && Power(3) == 8 && Power(4) == 16 && Power(5) == 32;
  }

  /** The least time from a window's first failure to the end of the block after so many failures. */
  function Floor(count: nat): nat {
    if count < FAILURE_LIMIT then 0 else Floor(count - 1) + Lockout(count)
  }

  /** How far a failure count can get, and how long its block lasts at least. */
  predicate Slowed(f: FailureState, clock: int) {
    && 1 <= f.count <= 9 && 0 <= f.firstAt <= clock
    && (f.count >= FAILURE_LIMIT ==> f.firstAt + Floor(f.count) <= f.blockedUntil <= clock + Lockout(f.count))
    && (f.count < FAILURE_LIMIT ==> f.blockedUntil == 0)
  }

  predicate AllSlowed(failures: map<string, FailureState>, clock: int) {
    forall key | key in failures :: Slowed(failures[key], clock)
  }

  lemma FloorValues()
    ensures Floor(4) == 0 && Floor(5) == 30_000 && Floor(6) == 90_000 && Floor(7) == 210_000 && Floor(8) == 450_000 && Floor(9) == 930_000
  {
    hide Lockout;
    LockoutSchedule(5);
    assert Floor(6) == Floor(5) + Lockout(6);
    assert Floor(7) == Floor(6) + Lockout(7);
    assert Floor(8) == Floor(7) + Lockout(8);
    assert Floor(9) == Floor(8) + Lockout(9);
  }

  lemma FailedIsSlowed(f: Option<FailureState>, clock: int, now: int)
    requires 0 <= clock <= now && !Blocked(f, now) && (f.Some? ==> Slowed(f.value, clock))
    ensures Slowed(Failed(f, now), now)
  {
    hide Lockout, Floor;
    FloorValues();
    LockoutSchedule(5);
    if f.Some? && now - f.value.firstAt <= FAILURE_WINDOW_MS {
      var count := f.value.count;
      assert count <= 8;
      if count + 1 >= FAILURE_LIMIT { NextFloor(count + 1); }
    }
  }

  lemma NextFloor(count: nat)
    requires count >= FAILURE_LIMIT
    ensures Floor(count) == Floor(count - 1) + Lockout(count)
  {
  }

  lemma StepSlowed(cfg: Config, a: Auth, clock: int, e: Event)
    requires AllSlowed(a.failures, clock) && 0 <= clock <= e.at
    ensures AllSlowed(Step(cfg, a, e).0.failures, e.at)
  {
    hide Live, Find, Expired, Set, Delete, ExpiresAt, Evict, Failed, Lockout, Floor, Seconds;
    if e.request.LoginRequest? {
      var f := Get(a.failures, e.request.failureKey);
      if !Blocked(f, e.at) { FailedIsSlowed(f, clock, e.at); }
    }
  }

  lemma {:induction false} RunSlowed(cfg: Config, a: Auth, clock: int, events: seq<Event>)
    requires AllSlowed(a.failures, clock) && 0 <= clock && Monotone(events, clock)
    ensures AllSlowed(After(cfg, a, events).failures, ClockAfter(events, clock))
    decreases |events|
  {
    hide Step, AllSlowed;
    if events == [] {
    } else {
      StepSlowed(cfg, a, clock, events[0]);
      RunSlowed(cfg, Step(cfg, a, events[0]).0, events[0].at, events[1..]);
    }
  }

  /**
   * Over every run of logins that do not overlap: within one window a client
   * gets at most nine wrong passwords looked at for a name, the blocks last 30
   * to 480 seconds and grow with the count; the 15 minute cap is never reached.
   */
  lemma GuessingIsSlow(cfg: Config, events: seq<Event>, start: int, failureKey: string)
    requires 0 <= start && Monotone(events, start) && failureKey in After(cfg, EMPTY, events).failures
    ensures var f := After(cfg, EMPTY, events).failures[failureKey]; var clock := ClockAfter(events, start);
            && 1 <= f.count <= 9
            && (f.blockedUntil > clock ==> f.count >= FAILURE_LIMIT && f.blockedUntil - clock <= Lockout(f.count) <= 480_000)
            && (f.count == 9 ==> f.blockedUntil > f.firstAt + FAILURE_WINDOW_MS)
  {
    RunSlowed(cfg, EMPTY, start, events);
    hide After, Lockout, Floor, Monotone, ClockAfter;
    FloorValues();
    LockoutSchedule(5);
    var f := After(cfg, EMPTY, events).failures[failureKey];
    assert Slowed(f, ClockAfter(events, start));
    assert f.count >= FAILURE_LIMIT ==> f.count == 5 || f.count == 6 || f.count == 7 || f.count == 8 || f.count == 9;
  }

  // -------------------------------------------------------------- the object

  lemma Spliced(done: seq<Session>, before: seq<Session>, seen: nat)
    requires seen < |before|
    ensures var all := done + before[seen..]; var n := |done|;
            && all[n] == before[seen] && all[..n] + all[n + 1..] == done + before[seen + 1..]
            && all == (done + [before[seen]]) + before[seen + 1..]
  {
  }

  lemma LiveNone(cfg: Config, ss: seq<Session>, now: int)
    ensures ss[..0] == [] && Live(cfg, ss[..0], now) == []
  {
  }

  lemma LiveNext(cfg: Config, ss: seq<Session>, n: nat, now: int)
    requires n < |ss|
    ensures Live(cfg, ss[..n + 1], now) == Live(cfg, ss[..n], now) + (if Expired(cfg, ss[n], now) then [] else [ss[n]])
  {
    hide Expired;
    LiveConcat(cfg, ss[..n], [ss[n]], now);
    assert ss[..n + 1] == ss[..n] + [ss[n]] && [ss[n]][1..] == [];
  }

  class ManagementAuthenticator {
    const cfg: Config
    var sessions: seq<Session>
    var failures: map<string, FailureState>

    function View(): Auth
      reads this
    {
      Auth(sessions, failures)
    }

    constructor (cfg: Config)
      ensures this.cfg == cfg && View() == EMPTY
    {
      this.cfg := cfg;
      sessions, failures := [], map[];
    }

    /** Deletes sessions while it goes over them. */
    method PruneSessions(now: int)
      modifies this`sessions
      ensures sessions == Live(cfg, old(sessions), now)
    {
      hide Expired, Live;
      ghost var before := sessions;
      ghost var seen, done := 0, [];
      var kept := 0;
      LiveNone(cfg, before, now);
      while kept < |sessions|
        invariant seen <= |before| && kept == |done| && done == Live(cfg, before[..seen], now)
        invariant sessions == done + before[seen..]
        decreases |before| - seen
      {
        LiveNext(cfg, before, seen, now);
        Spliced(done, before, seen);
        if Expired(cfg, sessions[kept], now) {
          sessions := sessions[..kept] + sessions[kept + 1..];
        } else {
          done := done + [sessions[kept]];
          kept := kept + 1;
        }
        seen := seen + 1;
      }
      assert before[..seen] == before;
    }

    /** Deletes failures while it goes over them. */
    method PruneFailures(now: int)
      modifies this`failures
      ensures failures == Failures(old(failures), now)
    {
      hide Stale;
      var left := failures.Keys;
      while left != {}
        invariant left <= old(failures).Keys
        invariant failures == map key | key in old(failures) && (key in left || !Stale(old(failures)[key], now)) :: old(failures)[key]
        decreases left
      {
        var key :| key in left;
        if Stale(failures[key], now) { failures := failures - {key}; }
        left := left - {key};
      }
    }

    method PruneAt(now: int)
      modifies this
      ensures View() == Prune(cfg, old(View()), now)
    {
      PruneSessions(now);
      PruneFailures(now);
    }

    method Open(failureKey: string, credentialsMatch: bool, key: string, now: int) returns (reply: Reply)
      modifies this
      ensures (View(), reply) == Login(cfg, old(View()), failureKey, credentialsMatch, key, now)
    {
      hide Live, Expired, Failures, Lockout, Seconds;
      var current := Get(failures, failureKey);
      if current.Some? && current.value.blockedUntil > now {
        return Refused(Some(Seconds(current.value.blockedUntil - now)));
      }
      if !credentialsMatch {
        var state := Failed(current, now);
        failures := failures[failureKey := state];
        return Refused(RetryAfter(state, now));
      }
      failures := failures - {failureKey};
      PruneAt(now);
      ghost var live := sessions;
      while |sessions| >= MAX_SESSIONS
        invariant failures == Failures(old(failures) - {failureKey}, now)
        invariant |sessions| <= |live| && sessions == live[|live| - |sessions|..] && (|sessions| < |live| ==> |sessions| >= MAX_SESSIONS - 1)
        decreases |sessions|
      {
        sessions := sessions[1..];
      }
      assert sessions == Evict(live);
      var stored := Session(key, now, now);
      sessions := Set(sessions, stored);
      return LoggedIn(ExpiresAt(cfg, stored));
    }

    method SessionOf(key: string, now: int) returns (reply: Reply)
      modifies this
      ensures (View(), reply) == Touch(cfg, old(View()), key, now)
    {
      var i := Find(sessions, key);
      if i < 0 { return NoSession; }
      var stored := sessions[i];
      if now - stored.lastSeenAt > cfg.idleTimeoutMs || now - stored.createdAt > cfg.absoluteTimeoutMs {
        sessions := Delete(sessions, key);
        return NoSession;
      }
      stored := stored.(lastSeenAt := now);
      sessions := sessions[i := stored];
      return Active(ExpiresAt(cfg, stored));
    }

    method Forget(key: string) returns (reply: Reply)
      modifies this
      ensures (View(), reply) == Logout(old(View()), key)
    {
      sessions := Delete(sessions, key);
      return LoggedOut;
    }
  }
}
