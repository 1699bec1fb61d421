// When the holder of a session's newest refresh token gets a new pair. On one
// process, whatever its cache forgets, exactly as long as no call of the session
// rotated the row and then failed to mint; on two processes not even that.
// Source: services/auth/internal/service/auth_service.go.
module NewestToken {
  import opened Common
  import opened AuthService
  import opened AuthRuns

  // No replacement pair is cached for a generation from n on.
  ghost predicate RotatedBelow(c: Cache, sid: Sid, n: nat) {
    forall g: nat :: (sid, g) in c.rotated ==> g < n && c.rotated[(sid, g)].pair.gen == g + 1
  }

  // The row is at the newest generation a client holds, or one further if a call
  // moved it and did not mint.
  ghost predicate RowAt(sessions: map<Key, Session>, key: Key, n: nat, failed: bool) {
    key in sessions ==>
      && n <= sessions[key].gen <= n + 1
      && (n >= 1 ==> (sessions[key].gen == n + 1 <==> failed))
  }

  // One session as a single process sees it: n is the newest generation a client
  // holds, `failed` whether a call moved the row and did not mint.
  ghost predicate SoundAt(a: Auth, uid: Uid, sid: Sid, n: nat, failed: bool) {
    && RotatedBelow(a.cache, sid, n)
    && RowAt(a.db.sessions, (uid, sid), n, failed)
    && ((uid, sid) in a.db.sessions && a.db.sessions[(uid, sid)].gen == n && sid in a.cache.states ==>
          a.cache.states[sid].gen == n)
  }

  function NewestAfter(n: nat, r: Answer): nat {
    match r
    case Granted(pair) => Max(n, pair.gen)
    case Refused(_) => n
  }

  lemma RotatedIsSound(a: Auth, token: Token, globalVer: nat, now: int, mints: bool, warm: bool, n: nat, failed: bool)
    requires SoundAt(a, token.uid, token.sid, n, failed) && 1 <= token.gen <= n
    ensures var (b, r) := Rotated(a, token, globalVer, now, mints, warm);
      SoundAt(b, token.uid, token.sid, NewestAfter(n, r), failed || r == Refused(MintFailed))
  {
  }

  lemma TheftIsSound(a: Auth, token: Token, now: int, n: nat, failed: bool)
    requires SoundAt(a, token.uid, token.sid, n, failed)
    ensures SoundAt(TheftHandled(a, token, now), token.uid, token.sid, n, failed)
  {
  }

  lemma ColdRefreshedIsSound(a: Auth, token: Token, now: int, mints: bool, n: nat, failed: bool)
    requires SoundAt(a, token.uid, token.sid, n, failed) && 1 <= token.gen <= n
    ensures var (b, r) := ColdRefreshed(a, token, now, mints);
      SoundAt(b, token.uid, token.sid, NewestAfter(n, r), failed || r == Refused(MintFailed))
  {
    hide Rotated, TheftHandled;
    TheftIsSound(a.(db := Asked(a.db, 1)), token, now, n, failed);
    RotatedIsSound(a.(db := Asked(a.db, 2)), token, GlobalVerOf(a.db, token.uid), now, mints, false, n, failed);
  }

  lemma RefreshedIsSound(a: Auth, token: Token, now: int, mints: bool, n: nat, failed: bool)
    requires SoundAt(a, token.uid, token.sid, n, failed) && 1 <= token.gen <= n
    ensures var (b, r) := Refreshed(a, token, now, mints);
      SoundAt(b, token.uid, token.sid, NewestAfter(n, r), failed || r == Refused(MintFailed))
  {
    hide Rotated, TheftHandled, ColdRefreshed;
    TheftIsSound(a, token, now, n, failed);
    ColdRefreshedIsSound(a, token, now, mints, n, failed);
    if StateOf(a.cache, token.sid, now).Some? {
      RotatedIsSound(a, token, StateOf(a.cache, token.sid, now).value.minGlobalVer, now, mints, true, n, failed);
    }
  }

  lemma ValidatedIsSound(a: Auth, token: Token, now: int, n: nat, failed: bool)
    requires SoundAt(a, token.uid, token.sid, n, failed)
    ensures SoundAt(Validated(a, token, now).0, token.uid, token.sid, n, failed)
  {
  }

  // The global version a refresh holds the token to.
  function RequiredVer(a: Auth, token: Token, now: int): nat {
    match StateOf(a.cache, token.sid, now)
    case Some(entry) => entry.minGlobalVer
    case None => GlobalVerOf(a.db, token.uid)
  }

  // A refresh with the newest token of a stored session, cache hit or miss.
  lemma NewestRefreshed(a: Auth, token: Token, now: int, failed: bool)
    requires SoundAt(a, token.uid, token.sid, token.gen, failed) && token.gen >= 1
    requires (token.uid, token.sid) in a.db.sessions && a.db.answers >= 3
    ensures var r := Refreshed(a, token, now, true).1;
      && (r.Granted? <==> !failed && token.globalVer >= RequiredVer(a, token, now))
      && (r.Granted? ==> r.pair.gen == token.gen + 1)
      && (r.Refused? && !failed ==> r.error.TokenRevoked?)
      && (r.Refused? && failed ==> r.error.ReplayDetected? || r.error.ConcurrentRotation? || r.error.TokenRevoked?)
  {
    hide TheftHandled;
  }

  // ---------------------------------------------------------------- runs

  // Nothing of this session id exists yet.
  ghost predicate Unused(a: Auth, w: World, sid: Sid) {
    && sid !in w.newest && sid !in w.failed && sid !in a.cache.states
    && RotatedBelow(a.cache, sid, 0)
    && (forall key :: key in a.db.sessions ==> key.1 != sid)
  }

  ghost predicate Sound(w: World, q: nat) {
    && Inv(w) && w.caches.Keys <= {q}
    && (forall sid :: sid in w.owner ==> SoundAt(Here(w, q), w.owner[sid], sid, NewestOf(w, sid), sid in w.failed))
    && (forall sid :: sid !in w.owner ==> Unused(Here(w, q), w, sid))
  }

  // The service on process q; what the database will answer does not matter here.
  function Here(w: World, q: nat): Auth {
    Auth(Db(w.sessions, w.revocations, 0), CacheOf(w, q))
  }

  lemma SameSight(a: Auth, b: Auth, uid: Uid, sid: Sid, n: nat, failed: bool)
    requires a.db.sessions == b.db.sessions && a.cache == b.cache
    ensures SoundAt(a, uid, sid, n, failed) <==> SoundAt(b, uid, sid, n, failed)
  {
  }

  // A call with a token of one session leaves the pairs and rows of others alone.
  ghost predicate Elsewhere(a: Auth, b: Auth, sid: Sid) {
    && (forall k :: k in b.cache.rotated && k.0 != sid ==> k in a.cache.rotated && b.cache.rotated[k] == a.cache.rotated[k])
    && (forall k :: k in b.cache.states && k != sid ==> k in a.cache.states && b.cache.states[k] == a.cache.states[k])
    && (forall key :: key in b.db.sessions && key.1 != sid ==> key in a.db.sessions && b.db.sessions[key] == a.db.sessions[key])
  }

  lemma SoundElsewhere(a: Auth, b: Auth, sid: Sid, uid: Uid, other: Sid, n: nat, failed: bool)
    requires Elsewhere(a, b, sid) && other != sid && SoundAt(a, uid, other, n, failed)
    ensures SoundAt(b, uid, other, n, failed)
  {
  }

  lemma TheftElsewhere(a: Auth, token: Token, now: int)
    ensures Elsewhere(a, TheftHandled(a, token, now), token.sid)
  {
  }

  lemma RotatedElsewhere(a: Auth, token: Token, globalVer: nat, now: int, mints: bool, warm: bool)
    ensures Elsewhere(a, Rotated(a, token, globalVer, now, mints, warm).0, token.sid)
  {
  }

  lemma ColdRefreshedElsewhere(a: Auth, token: Token, now: int, mints: bool)
    ensures Elsewhere(a, ColdRefreshed(a, token, now, mints).0, token.sid)
  {
    hide Rotated, TheftHandled;
    TheftElsewhere(a.(db := Asked(a.db, 1)), token, now);
    RotatedElsewhere(a.(db := Asked(a.db, 2)), token, GlobalVerOf(a.db, token.uid), now, mints, false);
  }

  lemma RefreshedElsewhere(a: Auth, token: Token, now: int, mints: bool)
    ensures Elsewhere(a, Refreshed(a, token, now, mints).0, token.sid)
  {
    hide Rotated, TheftHandled, RotatedOf, ColdRefreshed;
    TheftElsewhere(a, token, now);
    ColdRefreshedElsewhere(a, token, now, mints);
    if StateOf(a.cache, token.sid, now).Some? {
      RotatedElsewhere(a, token, StateOf(a.cache, token.sid, now).value.minGlobalVer, now, mints, true);
    }
  }

  // A call that touches one session and leaves it sound.
  lemma CallStaysSound(w: World, v: World, e: Event, b: Auth, uid: Uid, sid: Sid)
    requires Sound(w, e.server) && Inv(v) && v.owner == w.owner[sid := uid]
    requires v.sessions == b.db.sessions && v.caches == w.caches[e.server := b.cache]
    requires Elsewhere(Seen(w, e), b, sid)
    requires forall k :: k != sid ==> (k in v.newest <==> k in w.newest) && (k in w.newest ==> v.newest[k] == w.newest[k])
    requires forall k :: k != sid ==> (k in v.failed <==> k in w.failed)
    requires SoundAt(b, uid, sid, NewestOf(v, sid), sid in v.failed)
    ensures Sound(v, e.server)
  {
    hide Inv, SoundAt;
    var q := e.server;
    forall k | k in v.owner ensures SoundAt(Here(v, q), v.owner[k], k, NewestOf(v, k), k in v.failed) {
      SameSight(b, Here(v, q), v.owner[k], k, NewestOf(v, k), k in v.failed);
      if k != sid {
        SameSight(Here(w, q), Seen(w, e), w.owner[k], k, NewestOf(w, k), k in w.failed);
        SoundElsewhere(Seen(w, e), b, sid, w.owner[k], k, NewestOf(w, k), k in w.failed);
      }
    }
    forall k | k !in v.owner ensures Unused(Here(v, q), v, k) {
      assert Unused(Here(w, q), w, k);
    }
  }

  lemma SoundOf(w: World, e: Event, sid: Sid)
    requires Sound(w, e.server) && sid in w.owner
    ensures SoundAt(Seen(w, e), w.owner[sid], sid, NewestOf(w, sid), sid in w.failed)
  {
    hide SoundAt;
    SameSight(Here(w, e.server), Seen(w, e), w.owner[sid], sid, NewestOf(w, sid), sid in w.failed);
  }

  lemma RefreshStaysSound(w: World, e: Event)
    requires Sound(w, e.server) && Enabled(w, e) && e.rpc.Refresh? && Inv(Apply(w, e))
    ensures Sound(Apply(w, e), e.server)
  {
    hide Sound, Inv, Refreshed, SoundAt, Elsewhere;
    var a, token := Seen(w, e), e.rpc.token;
    SoundOf(w, e, token.sid);
    RefreshedElsewhere(a, token, e.now, e.mints);
    RefreshedIsSound(a, token, e.now, e.mints, NewestOf(w, token.sid), token.sid in w.failed);
    CallStaysSound(w, Apply(w, e), e, Refreshed(a, token, e.now, e.mints).0, token.uid, token.sid);
  }

  lemma SignOutStaysSound(w: World, e: Event)
    requires Sound(w, e.server) && Enabled(w, e) && e.rpc.SignOut? && Inv(Apply(w, e))
    ensures Sound(Apply(w, e), e.server)
  {
    hide Sound, Inv;
    var a, token := Seen(w, e), e.rpc.token;
    SoundOf(w, e, token.sid);
    CallStaysSound(w, Apply(w, e), e, LoggedOut(a, token), token.uid, token.sid);
  }

  lemma ValidateStaysSound(w: World, e: Event)
    requires Sound(w, e.server) && Enabled(w, e) && e.rpc.Validate? && Inv(Apply(w, e))
    ensures Sound(Apply(w, e), e.server)
  {
    hide Sound, Inv, SoundAt;
    var a, token := Seen(w, e), e.rpc.token;
    SoundOf(w, e, token.sid);
    ValidatedIsSound(a, token, e.now, NewestOf(w, token.sid), token.sid in w.failed);
    CallStaysSound(w, Apply(w, e), e, Validated(a, token, e.now).0, token.uid, token.sid);
  }

  // Calls that only forget entries or raise a global version.
  lemma ForgettingStaysSound(w: World, e: Event)
    requires Sound(w, e.server) && Enabled(w, e) && (e.rpc.Forget? || e.rpc.SignOutEverywhere?) && Inv(Apply(w, e))
    ensures Sound(Apply(w, e), e.server)
  {
    hide Inv;
    var q, v := e.server, Apply(w, e);
    forall sid | sid in v.owner ensures SoundAt(Here(v, q), v.owner[sid], sid, NewestOf(v, sid), sid in v.failed) {
      assert SoundAt(Here(w, q), w.owner[sid], sid, NewestOf(w, sid), sid in w.failed);
    }
    forall sid | sid !in v.owner ensures Unused(Here(v, q), v, sid) {
      assert Unused(Here(w, q), w, sid);
    }
  }

  lemma LoggedInIsSound(a: Auth, uid: Uid, sid: Sid, now: int, life: int, mints: bool)
    requires sid !in a.cache.states && RotatedBelow(a.cache, sid, 0) && (uid, sid) !in a.db.sessions
    ensures var (b, r) := LoggedIn(a, uid, sid, now, life, mints);
      SoundAt(b, uid, sid, NewestAfter(0, r), r == Refused(MintFailed)) && Elsewhere(a, b, sid)
  {
  }

  lemma LoginStaysSound(w: World, e: Event)
    requires Sound(w, e.server) && Enabled(w, e) && e.rpc.Login? && Inv(Apply(w, e))
    ensures Sound(Apply(w, e), e.server)
  {
    hide Inv, LoggedIn, SoundAt, Elsewhere, Sound;
    var a, uid, sid := Seen(w, e), e.rpc.uid, e.rpc.sid;
    NewSessionIsUnused(w, e.server, sid);
    LoggedInIsSound(a, uid, sid, e.now, e.rpc.life, e.mints);
    CallStaysSound(w, Apply(w, e), e, LoggedIn(a, uid, sid, e.now, e.rpc.life, e.mints).0, uid, sid);
  }

  lemma NewSessionIsUnused(w: World, q: nat, sid: Sid)
    requires Sound(w, q) && sid !in w.owner
    ensures Unused(Here(w, q), w, sid)
  {
  }

  lemma {:induction false} OneServerStaysSound(events: seq<Event>, q: nat)
    requires Run(events).Some? && forall e :: e in events ==> e.server == q
    ensures Sound(Run(events).value, q)
  {
    hide Apply, Enabled, SoundAt;
    if events != [] {
      hide Sound, Inv;
      var front, e := events[..|events| - 1], events[|events| - 1];
      OneServerStaysSound(front, q);
      RunKeepsInv(events);
      var w := Run(front).value;
      match e.rpc
      case Login(_, _, _) => LoginStaysSound(w, e);
      case Refresh(_) => RefreshStaysSound(w, e);
      case SignOut(_) => SignOutStaysSound(w, e);
      case Validate(_) => ValidateStaysSound(w, e);
      case SignOutEverywhere(_) => ForgettingStaysSound(w, e);
      case Forget(_, _) => ForgettingStaysSound(w, e);
    }
  }

  // ---------------------------------------------------------------- theorems

  // On one process, after any run, with anything evicted: refreshing with the
  // newest token of a stored session gives its successor exactly when no mint of
  // the session failed and the user did not sign out everywhere; it is never taken
  // for a replay unless a mint failed.
  lemma NewestTokenIsHonoured(events: seq<Event>, q: nat, e: Event, token: Token)
    requires Run(events).Some? && (forall k :: k in events ==> k.server == q)
    requires e.server == q && e.answers >= 3 && e.mints && e.rpc == Refresh(token)
    requires var w := Run(events).value;
      Enabled(w, e) && token.gen == NewestOf(w, token.sid) && (token.uid, token.sid) in w.sessions
    ensures var w := Run(events).value;
      var r := Refreshed(Seen(w, e), token, e.now, true).1;
      && (r.Granted? <==> token.sid !in w.failed && token.globalVer >= RequiredVer(Seen(w, e), token, e.now))
      && (r.Granted? ==> r.pair.gen == token.gen + 1)
      && (r.Refused? && token.sid !in w.failed ==> r.error.TokenRevoked?)
      && (r.Refused? && token.sid in w.failed ==>
            r.error.ReplayDetected? || r.error.ConcurrentRotation? || r.error.TokenRevoked?)
  {
    hide Run, Sound, SoundAt, Refreshed, RequiredVer;
    OneServerStaysSound(events, q);
    var w := Run(events).value;
    SoundOf(w, e, token.sid);
    NewestRefreshed(Seen(w, e), token, e.now, token.sid in w.failed);
  }

  // The cached generation of a stored session is its row's.
  lemma CachedGenerationIsTheRows(events: seq<Event>, q: nat, sid: Sid)
    requires Run(events).Some? && (forall e :: e in events ==> e.server == q)
    requires var w := Run(events).value;
      && sid in w.owner && (w.owner[sid], sid) in w.sessions && sid in CacheOf(w, q).states
      && NewestOf(w, sid) >= 1 && sid !in w.failed
    ensures var w := Run(events).value;
      CacheOf(w, q).states[sid].gen == w.sessions[(w.owner[sid], sid)].gen == NewestOf(w, sid)
  {
    hide Run;
    OneServerStaysSound(events, q);
    var w := Run(events).value;
    assert SoundAt(Here(w, q), w.owner[sid], sid, NewestOf(w, sid), sid in w.failed);
  }

  lemma RunSnoc(events: seq<Event>, e: Event)
    requires Run(events).Some? && Enabled(Run(events).value, e)
    ensures Run(events + [e]) == Some(Apply(Run(events).value, e))
  {
    hide Apply, Enabled;
    assert (events + [e])[..|events + [e]| - 1] == events;
  }

  // A refresh with the newest token of a stored session, no mint of which has
  // failed, is taken for a replay.
  ghost predicate TakenForReplay(w: World, e: Event) {
    && Enabled(w, e) && e.rpc.Refresh? && e.mints && e.answers >= 3 && w.failed == {}
    && var token := e.rpc.token;
    && token.gen == NewestOf(w, token.sid)
    && (token.uid, token.sid) in w.sessions && w.sessions[(token.uid, token.sid)].gen == token.gen
    && Refreshed(Seen(w, e), token, e.now, true).1 == Refused(ReplayDetected)
  }

  // With two processes that does happen: process 0 still remembers the generation
  // that process 1 has rotated away.
  lemma SecondProcessRefusesTheNewest()
    ensures exists events, last: Event :: Run(events).Some? && TakenForReplay(Run(events).value, last)
  {
    hide Apply;
    var login := Event(0, 0, 9, true, Login("u", "s", 1000));
    var refresh := Event(1, 1, 9, true, Refresh(Token("u", "s", 1, 0)));
    var last := Event(0, 2, 9, true, Refresh(Token("u", "s", 2, 0)));
    var w1 := Apply(Init(), login);
    var start: seq<Event> := [];
    AfterFirstLogin(login, w1);
    RunSnoc(start, login);
    RunSnoc(start + [login], refresh);
    var w2 := Apply(w1, refresh);
    AfterSecondProcess(w1, refresh, w2);
    assert Run(start + [login] + [refresh]) == Some(w2);
    assert TakenForReplay(w2, last);
  }

  lemma AfterFirstLogin(e: Event, v: World)
    requires e == Event(0, 0, 9, true, Login("u", "s", 1000)) && v == Apply(Init(), e)
    ensures v.sessions == map[("u", "s") := Session(1, 1000)] && v.newest == map["s" := 1]
    ensures v.failed == {} && v.owner == map["s" := "u"] && v.revocations == map[] && v.clock == 0
    ensures v.caches == map[0 := Cache(map["s" := Entry(1, 0, SESSION_STATE_TTL)], map[], map[])]
  {
  }

  lemma AfterSecondProcess(w: World, e: Event, v: World)
    requires w.sessions == map[("u", "s") := Session(1, 1000)] && w.newest == map["s" := 1]
    requires w.failed == {} && w.owner == map["s" := "u"] && w.revocations == map[] && w.clock == 0
    requires w.caches == map[0 := Cache(map["s" := Entry(1, 0, SESSION_STATE_TTL)], map[], map[])]
    requires e == Event(1, 1, 9, true, Refresh(Token("u", "s", 1, 0))) && v == Apply(w, e)
    ensures v.sessions == map[("u", "s") := Session(2, 1000)] && v.newest == map["s" := 2]
    ensures v.failed == {} && v.owner == w.owner && v.clock == 1
    ensures 0 in v.caches && v.caches[0] == w.caches[0]
  {
    assert CacheOf(w, 1) == EMPTY_CACHE;
    assert Refreshed(Seen(w, e), e.rpc.token, 1, true).1 == Granted(Token("u", "s", 2, 0));
  }

  // Rotation never moves the expiry stored at login.
  lemma RotationKeepsTheExpiry(a: Auth, token: Token, now: int, mints: bool, key: Key)
    requires key in a.db.sessions
    ensures var b := Refreshed(a, token, now, mints).0;
      key in b.db.sessions ==> b.db.sessions[key].expiresAt == a.db.sessions[key].expiresAt
  {
    hide TheftHandled, ColdRefreshed, Rotated;
    TheftKeepsExpiry(a, token, now);
    ColdKeepsExpiry(a, token, now, mints, key);
    if StateOf(a.cache, token.sid, now).Some? {
      RotatedKeepsExpiry(a, token, StateOf(a.cache, token.sid, now).value.minGlobalVer, now, mints, true, key);
    }
  }

  lemma RotatedKeepsExpiry(a: Auth, token: Token, globalVer: nat, now: int, mints: bool, warm: bool, key: Key)
    requires key in a.db.sessions
    ensures var b := Rotated(a, token, globalVer, now, mints, warm).0;
      key in b.db.sessions && b.db.sessions[key].expiresAt == a.db.sessions[key].expiresAt
  {
  }

  lemma ColdKeepsExpiry(a: Auth, token: Token, now: int, mints: bool, key: Key)
    requires key in a.db.sessions
    ensures var b := ColdRefreshed(a, token, now, mints).0;
      key in b.db.sessions ==> b.db.sessions[key].expiresAt == a.db.sessions[key].expiresAt
  {
    hide TheftHandled, Rotated;
    TheftKeepsExpiry(a.(db := Asked(a.db, 1)), token, now);
    RotatedKeepsExpiry(a.(db := Asked(a.db, 2)), token, GlobalVerOf(a.db, token.uid), now, mints, false, key);
  }

  lemma TheftKeepsExpiry(a: Auth, token: Token, now: int)
    ensures forall key :: key in TheftHandled(a, token, now).db.sessions ==>
      key in a.db.sessions && TheftHandled(a, token, now).db.sessions[key] == a.db.sessions[key]
  {
  }

  // This call created the row.
  predicate Creates(e: Event, key: Key) {
    e.rpc.Login? && (e.rpc.uid, e.rpc.sid) == key
  }

  // When the session of this row was created, plus its lifetime.
  function LoginExpiry(events: seq<Event>, key: Key): int {
    if events == [] then 0
    else
      var e := events[|events| - 1];
      if Creates(e, key) then e.now + e.rpc.life
      else LoginExpiry(events[..|events| - 1], key)
  }

  lemma LoginSetsTheExpiry(w: World, e: Event, key: Key)
    requires Inv(w) && Enabled(w, e) && e.rpc.Login? && key in Apply(w, e).sessions
    ensures if Creates(e, key) then Apply(w, e).sessions[key].expiresAt == e.now + e.rpc.life
            else key in w.sessions && Apply(w, e).sessions[key].expiresAt == w.sessions[key].expiresAt
  {
    hide LoggedIn, Refreshed, Validated, CacheOk;
    LoggedInAdds(Seen(w, e), e.rpc.uid, e.rpc.sid, e.now, e.rpc.life, e.mints);
    assert key in w.sessions ==> RowOk(w, key);
  }

  lemma TouchedRow(a: Auth, b: Auth, uid: Uid, sid: Sid, now: int, key: Key)
    requires Touches(a, b, uid, sid, now) && key in b.db.sessions
    ensures key in a.db.sessions
  {
  }

  lemma RefreshKeepsTheExpiry(w: World, e: Event, key: Key)
    requires Enabled(w, e) && e.rpc.Refresh? && key in Apply(w, e).sessions
    ensures key in w.sessions && Apply(w, e).sessions[key].expiresAt == w.sessions[key].expiresAt
  {
    hide Refreshed, Touches, Enabled;
    var a, token := Seen(w, e), e.rpc.token;
    RefreshedTouches(a, token, e.now, e.mints);
    TouchedRow(a, Refreshed(a, token, e.now, e.mints).0, token.uid, token.sid, e.now, key);
    RotationKeepsTheExpiry(a, token, e.now, e.mints, key);
  }

  lemma StepKeepsTheExpiry(w: World, e: Event, key: Key)
    requires Enabled(w, e) && !e.rpc.Login? && !e.rpc.Refresh? && key in Apply(w, e).sessions
    ensures key in w.sessions && Apply(w, e).sessions[key].expiresAt == w.sessions[key].expiresAt
  {
    hide Validated, Refreshed, LoggedIn, Enabled;
    if e.rpc.Validate? {
      ValidatedDeletesNothing(Seen(w, e), e.rpc.token, e.now);
    }
  }

  // No call after the login moves the expiry of a session.
  lemma {:induction false} RunsKeepTheExpiry(events: seq<Event>, key: Key)
    requires Run(events).Some? && key in Run(events).value.sessions
    ensures Run(events).value.sessions[key].expiresAt == LoginExpiry(events, key)
  {
    hide Apply, Enabled, Inv;
    if events != [] {
      var front, e := events[..|events| - 1], events[|events| - 1];
      RunKeepsInv(front);
      if e.rpc.Login? {
        LoginSetsTheExpiry(Run(front).value, e, key);
      } else if e.rpc.Refresh? {
        RefreshKeepsTheExpiry(Run(front).value, e, key);
      } else {
        StepKeepsTheExpiry(Run(front).value, e, key);
      }
      if !Creates(e, key) {
        RunsKeepTheExpiry(front, key);
      }
    }
  }

  // So in every run a process that does not remember a session accepts its newest
  // access token exactly until the lifetime counted from the login has passed,
  // however recently the token was handed out.
  lemma ColdValidationStopsAtTheLoginsExpiry(events: seq<Event>, e: Event, token: Token)
    requires Run(events).Some? && Enabled(Run(events).value, e) && e.rpc == Validate(token) && e.answers >= 2
    requires var w := Run(events).value;
      && (token.uid, token.sid) in w.sessions && token.gen == w.sessions[(token.uid, token.sid)].gen
      && StateOf(CacheOf(w, e.server), token.sid, e.now).None?
      && GlobalVerOf(Seen(w, e).db, token.uid) <= token.globalVer
    ensures Validated(Seen(Run(events).value, e), token, e.now).1.None? <==>
            e.now <= LoginExpiry(events, (token.uid, token.sid))
  {
    hide Run, LoginExpiry;
    RunsKeepTheExpiry(events, (token.uid, token.sid));
  }
}
