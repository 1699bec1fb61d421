// The newest token on any number of processes: which of them take it for a replay,
// and which of them a sign-out everywhere reaches.
// Source: services/auth/internal/service/auth_service.go.
module AcrossProcesses {
  import opened Common
  import opened AuthService
  import opened AuthRuns
  import opened NewestToken

  // ---------------------------------------------------------------- one call

  // What a process and the store keep of a session whatever other processes hold.
  ghost predicate KeptAt(a: Auth, uid: Uid, sid: Sid, n: nat, failed: bool) {
    RotatedBelow(a.cache, sid, n) && RowAt(a.db.sessions, (uid, sid), n, failed)
  }

  // A call of this session leaves it so, and hands out no older generation.
  ghost predicate Keeps(b: Auth, r: Answer, uid: Uid, sid: Sid, n: nat, failed: bool) {
    KeptAt(b, uid, sid, NewestAfter(n, r), failed || r == Refused(MintFailed))
  }

  lemma RotatedKeeps(a: Auth, token: Token, globalVer: nat, now: int, mints: bool, warm: bool, n: nat, failed: bool)
    requires KeptAt(a, token.uid, token.sid, n, failed) && 1 <= token.gen <= n
    ensures var (b, r) := Rotated(a, token, globalVer, now, mints, warm);
      Keeps(b, r, token.uid, token.sid, n, failed)
  {
  }

  lemma TheftKeeps(a: Auth, token: Token, now: int, n: nat, failed: bool)
    requires KeptAt(a, token.uid, token.sid, n, failed)
    ensures KeptAt(TheftHandled(a, token, now), token.uid, token.sid, n, failed)
  {
  }

  lemma ColdRefreshedKeeps(a: Auth, token: Token, now: int, mints: bool, n: nat, failed: bool)
    requires KeptAt(a, token.uid, token.sid, n, failed) && 1 <= token.gen <= n
    ensures var (b, r) := ColdRefreshed(a, token, now, mints);
      Keeps(b, r, token.uid, token.sid, n, failed)
  {
    hide Rotated, TheftHandled;
    TheftKeeps(a.(db := Asked(a.db, 1)), token, now, n, failed);
    RotatedKeeps(a.(db := Asked(a.db, 2)), token, GlobalVerOf(a.db, token.uid), now, mints, false, n, failed);
  }

  lemma RefreshedKeeps(a: Auth, token: Token, now: int, mints: bool, n: nat, failed: bool)
    requires KeptAt(a, token.uid, token.sid, n, failed) && 1 <= token.gen <= n
    ensures var (b, r) := Refreshed(a, token, now, mints);
      Keeps(b, r, token.uid, token.sid, n, failed)
  {
    hide Rotated, TheftHandled, ColdRefreshed;
    TheftKeeps(a, token, now, n, failed);
    ColdRefreshedKeeps(a, token, now, mints, n, failed);
    if StateOf(a.cache, token.sid, now).Some? {
      RotatedKeeps(a, token, StateOf(a.cache, token.sid, now).value.minGlobalVer, now, mints, true, n, failed);
    }
  }

  lemma LoggedInKeeps(a: Auth, uid: Uid, sid: Sid, now: int, life: int, mints: bool)
    requires RotatedBelow(a.cache, sid, 0) && (uid, sid) !in a.db.sessions
    ensures var (b, r) := LoggedIn(a, uid, sid, now, life, mints);
      Keeps(b, r, uid, sid, 0, false) && Elsewhere(a, b, sid)
  {
  }

  // ---------------------------------------------------------------- runs

  // The invariant of every run: rows are at the newest generation, and no process
  // caches a replacement for it.
  ghost predicate Spread(w: World) {
    && Inv(w) && w.newest.Keys <= w.owner.Keys && w.failed <= w.owner.Keys
    && (forall sid :: sid in w.owner ==> RowAt(w.sessions, (w.owner[sid], sid), NewestOf(w, sid), sid in w.failed))
    && (forall q, sid :: q in w.caches ==> RotatedBelow(w.caches[q], sid, NewestOf(w, sid)))
  }

  lemma KeptOf(w: World, e: Event, sid: Sid)
    requires Spread(w) && sid in w.owner
    ensures KeptAt(Seen(w, e), w.owner[sid], sid, NewestOf(w, sid), sid in w.failed)
  {
  }

  // A call that touches one session.
  lemma CallStaysSpread(w: World, v: World, e: Event, b: Auth, uid: Uid, sid: Sid)
    requires Spread(w) && Inv(v) && v.owner == w.owner[sid := uid] && (sid in w.owner ==> w.owner[sid] == uid)
    requires v.sessions == b.db.sessions && v.caches == w.caches[e.server := b.cache]
    requires Elsewhere(Seen(w, e), b, sid)
    requires forall k :: k != sid ==> (k in v.newest <==> k in w.newest) && (k in w.newest ==> v.newest[k] == w.newest[k])
    requires forall k :: k != sid ==> (k in v.failed <==> k in w.failed)
    requires NewestOf(w, sid) <= NewestOf(v, sid)
    requires KeptAt(b, uid, sid, NewestOf(v, sid), sid in v.failed)
    ensures Spread(v)
  {
    hide Inv;
    forall k | k in v.owner ensures RowAt(v.sessions, (v.owner[k], k), NewestOf(v, k), k in v.failed) {
      if k != sid {
        assert RowAt(w.sessions, (w.owner[k], k), NewestOf(w, k), k in w.failed);
      }
    }
    forall q, k | q in v.caches ensures RotatedBelow(v.caches[q], k, NewestOf(v, k)) {
      if q in w.caches {
        assert RotatedBelow(w.caches[q], k, NewestOf(w, k));
      }
    }
  }

  lemma RefreshStaysSpread(w: World, e: Event)
    requires Spread(w) && Enabled(w, e) && e.rpc.Refresh? && Inv(Apply(w, e))
    ensures Spread(Apply(w, e))
  {
    hide Spread, Inv, Refreshed, RotatedBelow, RowAt, Elsewhere;
    var a, token := Seen(w, e), e.rpc.token;
    KeptOf(w, e, token.sid);
    RefreshedElsewhere(a, token, e.now, e.mints);
    RefreshedKeeps(a, token, e.now, e.mints, NewestOf(w, token.sid), token.sid in w.failed);
    CallStaysSpread(w, Apply(w, e), e, Refreshed(a, token, e.now, e.mints).0, token.uid, token.sid);
  }

  lemma SignOutStaysSpread(w: World, e: Event)
    requires Spread(w) && Enabled(w, e) && e.rpc.SignOut? && Inv(Apply(w, e))
    ensures Spread(Apply(w, e))
  {
    hide Spread, Inv;
    var a, token := Seen(w, e), e.rpc.token;
    KeptOf(w, e, token.sid);
    CallStaysSpread(w, Apply(w, e), e, LoggedOut(a, token), token.uid, token.sid);
  }

  lemma ValidateStaysSpread(w: World, e: Event)
    requires Spread(w) && Enabled(w, e) && e.rpc.Validate? && Inv(Apply(w, e))
    ensures Spread(Apply(w, e))
  {
    hide Spread, Inv;
    var a, token := Seen(w, e), e.rpc.token;
    KeptOf(w, e, token.sid);
    CallStaysSpread(w, Apply(w, e), e, Validated(a, token, e.now).0, token.uid, token.sid);
  }

  lemma LoginStaysSpread(w: World, e: Event)
    requires Spread(w) && Enabled(w, e) && e.rpc.Login? && Inv(Apply(w, e))
    ensures Spread(Apply(w, e))
  {
    hide LoggedIn, RowAt, Elsewhere, Spread, Inv;
    var a, uid, sid := Seen(w, e), e.rpc.uid, e.rpc.sid;
    UnusedSession(w, e, uid, sid);
    LoggedInKeeps(a, uid, sid, e.now, e.rpc.life, e.mints);
    CallStaysSpread(w, Apply(w, e), e, LoggedIn(a, uid, sid, e.now, e.rpc.life, e.mints).0, uid, sid);
  }

  lemma UnusedSession(w: World, e: Event, uid: Uid, sid: Sid)
    requires Spread(w) && sid !in w.owner
    ensures sid !in w.newest && sid !in w.failed && (uid, sid) !in w.sessions
    ensures RotatedBelow(CacheOf(w, e.server), sid, 0)
  {
    assert (uid, sid) in w.sessions ==> RowOk(w, (uid, sid));
    assert NewestOf(w, sid) == 0;
    if e.server in w.caches {
      assert RotatedBelow(w.caches[e.server], sid, NewestOf(w, sid));
    }
  }

  lemma ForgettingStaysSpread(w: World, e: Event)
    requires Spread(w) && Enabled(w, e) && (e.rpc.Forget? || e.rpc.SignOutEverywhere?) && Inv(Apply(w, e))
    ensures Spread(Apply(w, e))
  {
    hide Inv;
    var v := Apply(w, e);
    forall q, sid | q in v.caches ensures RotatedBelow(v.caches[q], sid, NewestOf(v, sid)) {
      if q in w.caches {
        assert RotatedBelow(w.caches[q], sid, NewestOf(w, sid));
      }
    }
  }

  lemma {:induction false} RunsStaySpread(events: seq<Event>)
    requires Run(events).Some?
    ensures Spread(Run(events).value)
  {
    hide Apply, Enabled;
    if events != [] {
      hide Spread, Inv;
      var front, e := events[..|events| - 1], events[|events| - 1];
      RunsStaySpread(front);
      RunKeepsInv(events);
      var w := Run(front).value;
      match e.rpc
      case Login(_, _, _) => LoginStaysSpread(w, e);
      case Refresh(_) => RefreshStaysSpread(w, e);
      case SignOut(_) => SignOutStaysSpread(w, e);
      case Validate(_) => ValidateStaysSpread(w, e);
      case SignOutEverywhere(_) => ForgettingStaysSpread(w, e);
      case Forget(_, _) => ForgettingStaysSpread(w, e);
    }
  }

  // ---------------------------------------------------------------- replays

  // This process remembers the session at another generation.
  predicate RemembersOther(w: World, e: Event, token: Token) {
    var entry := StateOf(CacheOf(w, e.server), token.sid, e.now);
    entry.Some? && entry.value.gen != token.gen
  }

  lemma NewestOnAnyProcess(a: Auth, token: Token, now: int)
    requires KeptAt(a, token.uid, token.sid, token.gen, false) && token.gen >= 1
    requires (token.uid, token.sid) in a.db.sessions && a.db.answers >= 3
    ensures var entry := StateOf(a.cache, token.sid, now);
      var other := entry.Some? && entry.value.gen != token.gen;
      var r := Refreshed(a, token, now, true).1;
      && (r == Refused(ReplayDetected) <==> other)
      && (r.Granted? <==> !other && token.globalVer >= RequiredVer(a, token, now))
      && (r.Granted? ==> r.pair.gen == token.gen + 1)
  {
    hide TheftHandled;
  }

  // In every run on any number of processes, refreshing with the newest token of a
  // stored session, no mint of which failed, is taken for a replay exactly when the
  // process asked still remembers another generation of the session; otherwise the
  // token gets its successor exactly when its global version suffices.
  lemma NewestIsReplayedExactlyWhen(events: seq<Event>, e: Event, token: Token)
    requires Run(events).Some? && e.answers >= 3 && e.mints && e.rpc == Refresh(token)
    requires var w := Run(events).value;
      && Enabled(w, e) && token.gen == NewestOf(w, token.sid) && token.sid !in w.failed
      && (token.uid, token.sid) in w.sessions
    ensures var w := Run(events).value;
      var r := Refreshed(Seen(w, e), token, e.now, true).1;
      && (r == Refused(ReplayDetected) <==> RemembersOther(w, e, token))
      && (r.Granted? <==> !RemembersOther(w, e, token) && token.globalVer >= RequiredVer(Seen(w, e), token, e.now))
      && (r.Granted? ==> r.pair.gen == token.gen + 1)
  {
    hide Run, Spread, RotatedBelow, RowAt, Refreshed, RequiredVer;
    RunsStaySpread(events);
    var w := Run(events).value;
    KeptOf(w, e, token.sid);
    NewestOnAnyProcess(Seen(w, e), token, e.now);
  }

  // ---------------------------------------------------------------- signing out everywhere

  // This process lets the token through on what it remembers alone.
  predicate Honours(c: Cache, token: Token, now: int) {
    var entry := StateOf(c, token.sid, now);
    entry.Some? && entry.value.gen == token.gen && entry.value.minGlobalVer <= token.globalVer
  }

  // Right after a sign-out everywhere, a process still accepts an access token
  // handed out before it exactly when it honours it.
  lemma SignedOutValidation(a: Auth, token: Token, now: int)
    requires a.db.answers >= 2 && token.globalVer <= GlobalVerOf(a.db, token.uid)
    ensures var out := a.(db := Bumped(a.db, token.uid));
      Validated(out, token, now).1.None? <==> Honours(a.cache, token, now)
  {
  }

  // And still rotates a refresh token exactly when it honours it and the row is at
  // its generation, or when it has the replacement at hand.
  lemma SignedOutRefresh(a: Auth, token: Token, now: int)
    requires a.db.answers >= 3 && token.globalVer <= GlobalVerOf(a.db, token.uid)
    ensures var (out, key) := (a.(db := Bumped(a.db, token.uid)), (token.uid, token.sid));
      Refreshed(out, token, now, true).1.Granted? <==>
        || RotatedOf(a.cache, token.sid, token.gen, now).Some?
        || (Honours(a.cache, token, now) && key in a.db.sessions && a.db.sessions[key].gen == token.gen)
  {
    hide TheftHandled;
  }

  // A refresh by the client of a signed-out session, on one process.
  datatype Call = Call(now: int, answers: nat)

  function RefreshAt(q: nat, token: Token, call: Call): Event {
    Event(q, call.now, call.answers, true, Refresh(token))
  }

  // The database answers each call at least its first statement, and none comes
  // before the one before it.
  predicate Ordered(calls: seq<Call>, clock: int) {
    calls == [] || (clock <= calls[0].now && calls[0].answers >= 1 && Ordered(calls[1..], calls[0].now))
  }

  // The first call comes no later than `until`, each other one at most
  // SESSION_STATE_TTL after the one before it.
  predicate NoGap(calls: seq<Call>, until: int) {
    calls == [] || (calls[0].now <= until && NoGap(calls[1..], calls[0].now + SESSION_STATE_TTL))
  }

  // The client presents at each call the token of the call before, and gets the
  // next generation every time.
  predicate AllGranted(w: World, q: nat, token: Token, calls: seq<Call>)
    decreases |calls|
  {
    calls == [] ||
    var e := RefreshAt(q, token, calls[0]);
    && Enabled(w, e)
    && match Refreshed(Seen(w, e), token, e.now, true).1
       case Granted(pair) => pair.gen == token.gen + 1 && AllGranted(Apply(w, e), q, pair, calls[1..])
       case Refused(_) => false
  }

  // The session's newest token, at the row's generation, as process q remembers it.
  ghost predicate Remembered(w: World, q: nat, token: Token) {
    && Genuine(w, token) && RotatedBelow(CacheOf(w, q), token.sid, token.gen)
    && (token.uid, token.sid) in w.sessions && w.sessions[(token.uid, token.sid)].gen == token.gen
    && token.sid in CacheOf(w, q).states
    && var entry := CacheOf(w, q).states[token.sid];
    && entry.gen == token.gen && entry.minGlobalVer <= token.globalVer
  }

  // The token was handed out before the user last signed out everywhere.
  predicate SignedOut(w: World, token: Token) {
    token.globalVer < GlobalVerOf(Db(w.sessions, w.revocations, 0), token.uid)
  }

  // One call of such a client.
  lemma RememberedCall(w: World, q: nat, token: Token, call: Call)
    requires Remembered(w, q, token) && SignedOut(w, token) && call.answers >= 1 && w.clock <= call.now
    ensures var e := RefreshAt(q, token, call);
      var r := Refreshed(Seen(w, e), token, e.now, true).1;
      && Enabled(w, e)
      && (r.Granted? <==> call.now <= CacheOf(w, q).states[token.sid].until)
      && (r.Granted? ==>
            && r.pair.gen == token.gen + 1 && Apply(w, e).clock == call.now
            && Remembered(Apply(w, e), q, r.pair) && SignedOut(Apply(w, e), r.pair)
            && CacheOf(Apply(w, e), q).states[token.sid].until == call.now + SESSION_STATE_TTL
            && r.pair.sid == token.sid)
  {
    hide TheftHandled;
  }

  lemma {:induction false} RememberedClient(w: World, q: nat, token: Token, calls: seq<Call>)
    requires Remembered(w, q, token) && SignedOut(w, token) && Ordered(calls, w.clock)
    ensures AllGranted(w, q, token, calls) <==> NoGap(calls, CacheOf(w, q).states[token.sid].until)
    decreases |calls|
  {
    if calls != [] {
      hide Apply, Enabled, Refreshed, SignedOut;
      RememberedCall(w, q, token, calls[0]);
      var e := RefreshAt(q, token, calls[0]);
      var r := Refreshed(Seen(w, e), token, e.now, true).1;
      if r.Granted? {
        RememberedClient(Apply(w, e), q, r.pair, calls[1..]);
      }
    }
  }

  // After any run in which a user signs out everywhere, from any process: a client
  // that goes on refreshing the session on a process that remembers it gets new
  // pairs for ever, exactly as long as no two of its calls are more than
  // SESSION_STATE_TTL apart.
  lemma SignOutEverywhereNeedsAGap(events: seq<Event>, e: Event, q: nat, token: Token, calls: seq<Call>)
    requires Run(events).Some? && Enabled(Run(events).value, e)
    requires e.rpc == SignOutEverywhere(token.uid) && e.answers >= 2 && Ordered(calls, e.now)
    requires var w := Run(events).value;
      && Genuine(w, token) && token.gen == NewestOf(w, token.sid)
      && token.globalVer <= GlobalVerOf(Db(w.sessions, w.revocations, 0), token.uid)
      && (token.uid, token.sid) in w.sessions && w.sessions[(token.uid, token.sid)].gen == token.gen
      && token.sid in CacheOf(w, q).states && CacheOf(w, q).states[token.sid].gen == token.gen
      && CacheOf(w, q).states[token.sid].minGlobalVer <= token.globalVer
    ensures Run(events + [e]) == Some(Apply(Run(events).value, e))
    ensures AllGranted(Apply(Run(events).value, e), q, token, calls) <==>
            NoGap(calls, CacheOf(Run(events).value, q).states[token.sid].until)
  {
    hide Run, Inv, AllGranted, NoGap, Ordered;
    RunSnoc(events, e);
    RunsStaySpread(events);
    var w := Run(events).value;
    assert RotatedBelow(CacheOf(w, q), token.sid, token.gen);
    RememberedClient(Apply(w, e), q, token, calls);
  }

  // Such a session is two calls away from the start: a login and a sign-out.
  lemma SignedOutClientGoesOn(calls: seq<Call>)
    requires Ordered(calls, 0)
    ensures var login := Event(0, 0, 2, true, Login("u", "s", 1000));
      var out := Event(1, 0, 2, true, SignOutEverywhere("u"));
      && Run([login, out]).Some?
      && (AllGranted(Run([login, out]).value, 0, Token("u", "s", 1, 0), calls) <==> NoGap(calls, SESSION_STATE_TTL))
  {
    hide AllGranted, NoGap, Ordered, Apply;
    var login := Event(0, 0, 2, true, Login("u", "s", 1000));
    var out := Event(1, 0, 2, true, SignOutEverywhere("u"));
    var start: seq<Event> := [];
    RunSnoc(start, login);
    AfterLogin(login);
    assert start + [login] + [out] == [login, out];
    SignOutEverywhereNeedsAGap(start + [login], out, 0, Token("u", "s", 1, 0), calls);
  }

  lemma AfterLogin(e: Event)
    requires e == Event(0, 0, 2, true, Login("u", "s", 1000))
    ensures var w := Apply(Init(), e);
      && w.sessions == map[("u", "s") := Session(1, 1000)] && w.newest == map["s" := 1]
      && w.owner == map["s" := "u"] && w.revocations == map[] && w.clock == 0
      && CacheOf(w, 0).states == map["s" := Entry(1, 0, SESSION_STATE_TTL)]
  {
  }
}
