// services/auth/internal/service/auth_service.go over
// services/auth/internal/scyllastore/session_store.go: each call as one step, with
// the global version, the theft response and the expiry of cache entries.
module AuthService {
  import opened Common

  type Uid = string
  type Sid = string
  type Key = (Uid, Sid)

  // Instants and durations are whole seconds.
  const SESSION_STATE_TTL: int := 15 * 60
  const ROTATED_TOKEN_TTL: int := 30
  const THEFT_COUNT_TTL: int := 3600
  const THEFT_THRESHOLD: nat := 3

  // What an access or refresh token of a session says; a pair is two tokens that
  // say the same.
  datatype Token = Token(uid: Uid, sid: Sid, gen: nat, globalVer: nat)

  datatype Session = Session(gen: nat, expiresAt: int)

  // user_sessions and user_revocations; the database answers this many more
  // statements and then fails.
  datatype Db = Db(sessions: map<Key, Session>, revocations: map<Uid, nat>, answers: nat)

  datatype Entry = Entry(gen: nat, minGlobalVer: nat, until: int)
  datatype Kept = Kept(pair: Token, until: int)
  datatype Count = Count(n: nat, until: int)

  // One process's cache.
  datatype Cache = Cache(states: map<Sid, Entry>, rotated: map<(Sid, nat), Kept>, thefts: map<Uid, Count>)

  datatype Auth = Auth(db: Db, cache: Cache)

  datatype Error = SessionNotFound | ReplayDetected | TokenRevoked | ConcurrentRotation | StoreFailed | MintFailed

  datatype Answer = Granted(pair: Token) | Refused(error: Error)

  // ---------------------------------------------------------------- effects

  function StateOf(c: Cache, sid: Sid, now: int): Option<Entry> {
    if sid in c.states && now <= c.states[sid].until then Some(c.states[sid]) else None
  }

  function RotatedOf(c: Cache, sid: Sid, gen: nat, now: int): Option<Token> {
    if (sid, gen) in c.rotated && now <= c.rotated[(sid, gen)].until then Some(c.rotated[(sid, gen)].pair) else None
  }

  function Remember(c: Cache, sid: Sid, gen: nat, globalVer: nat, now: int): Cache {
    c.(states := c.states[sid := Entry(gen, globalVer, now + SESSION_STATE_TTL)])
  }

  // evictSessionState
  function Evict(c: Cache, sid: Sid, gen: nat): Cache {
    c.(states := c.states - {sid}, rotated := c.rotated - {(sid, gen)})
  }

  function GlobalVerOf(db: Db, uid: Uid): nat {
    if uid in db.revocations then db.revocations[uid] else 0
  }

  function Asked(db: Db, n: nat): Db {
    db.(answers := if db.answers >= n then db.answers - n else 0)
  }

  // BumpUserGlobalVer: a read and a write.
  function Bumped(db: Db, uid: Uid): Db {
    if db.answers >= 2 then Asked(db, 2).(revocations := db.revocations[uid := GlobalVerOf(db, uid) + 1]) else Asked(db, 2)
  }

  function Deleted(db: Db, key: Key): Db {
    if db.answers >= 1 then Asked(db, 1).(sessions := db.sessions - {key}) else db
  }

  // recordTheftAttempt
  function TheftsOf(c: Cache, uid: Uid, now: int): nat {
    1 + if uid in c.thefts && now <= c.thefts[uid].until then c.thefts[uid].n else 0
  }

  // handleTheftDetected
  function TheftHandled(a: Auth, token: Token, now: int): Auth {
    var n := TheftsOf(a.cache, token.uid, now);
    var db := if n >= THEFT_THRESHOLD then Bumped(a.db, token.uid) else a.db;
    var thefts := if n >= THEFT_THRESHOLD then a.cache.thefts - {token.uid}
                  else a.cache.thefts[token.uid := Count(n, now + THEFT_COUNT_TTL)];
    Auth(Deleted(db, (token.uid, token.sid)), a.cache.(states := a.cache.states - {token.sid}, thefts := thefts))
  }

  // AtomicBumpGen and what follows it; `warm` when the generation came from the
  // cache (issueAndUpdateSessionCache), otherwise it was read from the row.
  function Rotated(a: Auth, token: Token, globalVer: nat, now: int, mints: bool, warm: bool): (Auth, Answer) {
    var key := (token.uid, token.sid);
    var db := Asked(a.db, 1);
    if a.db.answers == 0 then (a, Refused(StoreFailed))
    else if key in db.sessions && db.sessions[key].gen == token.gen then
      var swapped := db.(sessions := db.sessions[key := db.sessions[key].(gen := token.gen + 1)]);
      var cache := Remember(a.cache, token.sid, token.gen + 1, globalVer, now);
      var pair := Token(token.uid, token.sid, token.gen + 1, globalVer);
      if !mints then (Auth(swapped, if warm then a.cache else cache), Refused(MintFailed))
      else (Auth(swapped, cache.(rotated := cache.rotated[(token.sid, token.gen) := Kept(pair, now + ROTATED_TOKEN_TTL)])),
            Granted(pair))
    else
      var looked := Asked(db, 1);
      if db.answers >= 1 && key !in db.sessions then
        (Auth(looked, Evict(a.cache, token.sid, token.gen)), Refused(SessionNotFound))
      else
        match RotatedOf(a.cache, token.sid, token.gen, now)
        case Some(pair) => (Auth(looked, a.cache), Granted(pair))
        case None => (Auth(looked, a.cache), Refused(ConcurrentRotation))
  }

  // RefreshToken, when the cache does not hold the session.
  function ColdRefreshed(a: Auth, token: Token, now: int, mints: bool): (Auth, Answer) {
    var key := (token.uid, token.sid);
    var loaded := a.(db := Asked(a.db, 1));
    if a.db.answers == 0 || key !in a.db.sessions then (loaded, Refused(SessionNotFound))
    else if token.gen != a.db.sessions[key].gen then (TheftHandled(loaded, token, now), Refused(ReplayDetected))
    else if loaded.db.answers == 0 then (loaded, Refused(StoreFailed))
    else
      var gated := a.(db := Asked(a.db, 2));
      var globalVer := GlobalVerOf(a.db, token.uid);
      if token.globalVer < globalVer then (gated, Refused(TokenRevoked))
      else Rotated(gated, token, globalVer, now, mints, false)
  }

  // RefreshToken
  function Refreshed(a: Auth, token: Token, now: int, mints: bool): (Auth, Answer) {
    match RotatedOf(a.cache, token.sid, token.gen, now)
    case Some(pair) => (a, Granted(pair))
    case None =>
      match StateOf(a.cache, token.sid, now)
      case Some(entry) =>
        if token.gen != entry.gen then (TheftHandled(a, token, now), Refused(ReplayDetected))
        else if token.globalVer < entry.minGlobalVer then (a, Refused(TokenRevoked))
        else Rotated(a, token, entry.minGlobalVer, now, mints, true)
      case None => ColdRefreshed(a, token, now, mints)
  }

  // Logout
  function LoggedOut(a: Auth, token: Token): Auth {
    Auth(Deleted(a.db, (token.uid, token.sid)), Evict(a.cache, token.sid, token.gen))
  }

  // ValidateToken
  function Validated(a: Auth, token: Token, now: int): (Auth, Option<Error>) {
    match StateOf(a.cache, token.sid, now)
    case Some(entry) =>
      (a, if token.gen != entry.gen || token.globalVer < entry.minGlobalVer then Some(TokenRevoked) else None)
    case None =>
      var key := (token.uid, token.sid);
      var loaded := a.(db := Asked(a.db, 1));
      if a.db.answers == 0 then (loaded, Some(StoreFailed))
      else if key !in a.db.sessions || now > a.db.sessions[key].expiresAt || token.gen != a.db.sessions[key].gen then
        (loaded, Some(TokenRevoked))
      else if loaded.db.answers == 0 then (loaded, Some(StoreFailed))
      else
        var gated := a.(db := Asked(a.db, 2));
        var globalVer := GlobalVerOf(a.db, token.uid);
        if token.globalVer < globalVer then (gated, Some(TokenRevoked))
        else (gated.(cache := Remember(a.cache, token.sid, token.gen, globalVer, now)), None)
  }

  // mintSessionTokenPair, for a session id drawn for it
  function LoggedIn(a: Auth, uid: Uid, sid: Sid, now: int, life: int, mints: bool): (Auth, Answer) {
    var stored := a.(db := Asked(a.db, 1).(sessions := a.db.sessions[(uid, sid) := Session(1, now + life)]));
    if a.db.answers == 0 then (a, Refused(StoreFailed))
    else if stored.db.answers == 0 then (stored, Refused(StoreFailed))
    else
      var gated := stored.(db := Asked(stored.db, 1));
      var globalVer := GlobalVerOf(a.db, uid);
      if !mints then (gated, Refused(MintFailed))
      else (gated.(cache := Remember(a.cache, sid, 1, globalVer, now)), Granted(Token(uid, sid, 1, globalVer)))
  }

  // ---------------------------------------------------------------- store

  class SessionStore {
    var sessions: map<Key, Session>
    var revocations: map<Uid, nat>
    var answered: nat

    constructor (answered: nat)
      ensures View() == Db(map[], map[], answered)
    {
      sessions := map[];
      revocations := map[];
      this.answered := answered;
    }

    ghost function View(): Db
      reads this
    {
      Db(sessions, revocations, answered)
    }

    method Answer() returns (ok: bool)
      modifies this`answered
      ensures ok <==> old(answered) > 0
      ensures View() == Asked(old(View()), 1)
    {
      ok := answered > 0;
      if ok {
        answered := answered - 1;
      }
    }

    method GetSession(uid: Uid, sid: Sid) returns (ok: bool, session: Option<Session>)
      modifies this`answered
      ensures ok <==> old(answered) > 0
      ensures ok ==> session == if (uid, sid) in sessions then Some(sessions[(uid, sid)]) else None
      ensures View() == Asked(old(View()), 1)
    {
      session := None;
      ok := Answer();
      if ok && (uid, sid) in sessions {
        session := Some(sessions[(uid, sid)]);
      }
    }

    method StoreSession(uid: Uid, sid: Sid, session: Session) returns (ok: bool)
      modifies this
      ensures ok <==> old(answered) > 0
      ensures View() == if ok then Asked(old(View()), 1).(sessions := old(sessions)[(uid, sid) := session]) else old(View())
    {
      ok := Answer();
      if ok {
        sessions := sessions[(uid, sid) := session];
      }
    }

    // The generation moves only from the expected value, one caller at a time.
    method AtomicBumpGen(uid: Uid, sid: Sid, expected: nat, next: nat) returns (ok: bool, applied: bool)
      modifies this
      ensures ok <==> old(answered) > 0
      ensures applied <==> ok && (uid, sid) in old(sessions) && old(sessions)[(uid, sid)].gen == expected
      ensures View() ==
        if !applied then Asked(old(View()), 1)
        else Asked(old(View()), 1).(sessions := old(sessions)[(uid, sid) := old(sessions)[(uid, sid)].(gen := next)])
    {
      applied := false;
      ok := Answer();
      if ok && (uid, sid) in sessions && sessions[(uid, sid)].gen == expected {
        sessions := sessions[(uid, sid) := sessions[(uid, sid)].(gen := next)];
        applied := true;
      }
    }

    method GetUserRevocation(uid: Uid) returns (ok: bool, globalVer: nat)
      modifies this`answered
      ensures ok <==> old(answered) > 0
      ensures ok ==> globalVer == GlobalVerOf(View(), uid)
      ensures View() == Asked(old(View()), 1)
    {
      globalVer := 0;
      ok := Answer();
      if ok && uid in revocations {
        globalVer := revocations[uid];
      }
    }

    method BumpUserGlobalVer(uid: Uid) returns (ok: bool, globalVer: nat)
      modifies this
      ensures ok <==> old(answered) >= 2
      ensures View() == Bumped(old(View()), uid)
      ensures ok ==> globalVer == GlobalVerOf(View(), uid) == GlobalVerOf(old(View()), uid) + 1
      ensures sessions == old(sessions)
      ensures revocations ==
        if !ok then old(revocations) else old(revocations)[uid := if uid in old(revocations) then old(revocations)[uid] + 1 else 1]
    {
      ok, globalVer := GetUserRevocation(uid);
      if !ok {
        return;
      }
      globalVer := globalVer + 1;
      ok := Answer();
      if ok {
        revocations := revocations[uid := globalVer];
      }
    }

    method DeleteSession(uid: Uid, sid: Sid) returns (ok: bool)
      modifies this
      ensures ok <==> old(answered) > 0
      ensures View() == Deleted(old(View()), (uid, sid))
    {
      ok := Answer();
      if ok {
        sessions := sessions - {(uid, sid)};
      }
    }
  }

  // ---------------------------------------------------------------- service

  // `mints` says whether creating tokens works during a call.
  class Service {
    const store: SessionStore
    var states: map<Sid, Entry>
    var rotated: map<(Sid, nat), Kept>
    var thefts: map<Uid, Count>

    constructor (store: SessionStore)
      ensures this.store == store && View() == Auth(store.View(), Cache(map[], map[], map[]))
    {
      this.store := store;
      states := map[];
      rotated := map[];
      thefts := map[];
    }

    ghost function View(): Auth
      reads this, store
    {
      Auth(store.View(), Cache(states, rotated, thefts))
    }

    method EvictSessionState(sid: Sid, gen: nat)
      modifies this
      ensures View() == old(View()).(cache := Evict(old(View()).cache, sid, gen))
    {
      states := states - {sid};
      rotated := rotated - {(sid, gen)};
    }

    method LookUpRotated(sid: Sid, gen: nat, now: int) returns (pair: Option<Token>)
      ensures pair == RotatedOf(View().cache, sid, gen, now)
    {
      pair := None;
      if (sid, gen) in rotated && now <= rotated[(sid, gen)].until {
        pair := Some(rotated[(sid, gen)].pair);
      }
    }

    method LookUpState(sid: Sid, now: int) returns (entry: Option<Entry>)
      ensures entry == StateOf(View().cache, sid, now)
    {
      entry := None;
      if sid in states && now <= states[sid].until {
        entry := Some(states[sid]);
      }
    }

    method HandleTheftDetected(token: Token, now: int)
      modifies this, store
      ensures View() == TheftHandled(old(View()), token, now)
      // The replayed session goes; the third replay of an hour raises the user's
      // version first and starts the count afresh.
      ensures states == old(states) - {token.sid} && rotated == old(rotated)
      ensures var third := token.uid in old(thefts) && now <= old(thefts)[token.uid].until && old(thefts)[token.uid].n >= 2;
        && (old(store.answered) >= (if third then 3 else 1) ==> store.sessions == old(store.sessions) - {(token.uid, token.sid)})
        && (third ==> token.uid !in thefts)
        && (third && old(store.answered) >= 2 ==>
              GlobalVerOf(store.View(), token.uid) == GlobalVerOf(old(store.View()), token.uid) + 1)
        && (!third ==> token.uid in thefts && store.revocations == old(store.revocations))
    {
      var attempts := 1;
      if token.uid in thefts && now <= thefts[token.uid].until {
        attempts := thefts[token.uid].n + 1;
      }
      thefts := thefts[token.uid := Count(attempts, now + THEFT_COUNT_TTL)];
      if attempts >= THEFT_THRESHOLD {
        var _, _ := store.BumpUserGlobalVer(token.uid);
        thefts := thefts - {token.uid};
      }
      var _ := store.DeleteSession(token.uid, token.sid);
      states := states - {token.sid};
      assert attempts >= THEFT_THRESHOLD ==> thefts == old(thefts) - {token.uid};
    }

    method RotateSession(token: Token, globalVer: nat, now: int, mints: bool, warm: bool) returns (r: Answer)
      modifies this, store
      ensures (View(), r) == Rotated(old(View()), token, globalVer, now, mints, warm)
    {
      var next := token.gen + 1;
      var ok, applied := store.AtomicBumpGen(token.uid, token.sid, token.gen, next);
      if !ok {
        return Refused(StoreFailed);
      }
      if !applied {
        var session;
        ok, session := store.GetSession(token.uid, token.sid);
        if ok && session.None? {
          EvictSessionState(token.sid, token.gen);
          return Refused(SessionNotFound);
        }
        var pair := LookUpRotated(token.sid, token.gen, now);
        return match pair case Some(p) => Granted(p) case None => Refused(ConcurrentRotation);
      }
      var entry := Entry(next, globalVer, now + SESSION_STATE_TTL);
      if !warm {
        states := states[token.sid := entry];
      }
      if !mints {
        return Refused(MintFailed);
      }
      var pair := Token(token.uid, token.sid, next, globalVer);
      rotated := rotated[(token.sid, token.gen) := Kept(pair, now + ROTATED_TOKEN_TTL)];
      if warm {
        states := states[token.sid := entry];
      }
      return Granted(pair);
    }

    method RefreshToken(token: Token, now: int, mints: bool) returns (r: Answer)
      modifies this, store
      ensures (View(), r) == Refreshed(old(View()), token, now, mints)
    {
      hide Rotated, TheftHandled;
      var pair := LookUpRotated(token.sid, token.gen, now);
      if pair.Some? {
        return Granted(pair.value);
      }
      var entry := LookUpState(token.sid, now);
      if entry.Some? {
        if token.gen != entry.value.gen {
          HandleTheftDetected(token, now);
          return Refused(ReplayDetected);
        }
        if token.globalVer < entry.value.minGlobalVer {
          return Refused(TokenRevoked);
        }
        r := RotateSession(token, entry.value.minGlobalVer, now, mints, true);
        return;
      }
      var ok, session := store.GetSession(token.uid, token.sid);
      if !ok || session.None? {
        return Refused(SessionNotFound);
      }
      if token.gen != session.value.gen {
        HandleTheftDetected(token, now);
        return Refused(ReplayDetected);
      }
      var globalVer;
      ok, globalVer := store.GetUserRevocation(token.uid);
      if !ok {
        return Refused(StoreFailed);
      }
      if token.globalVer < globalVer {
        return Refused(TokenRevoked);
      }
      r := RotateSession(token, globalVer, now, mints, false);
    }

    method Logout(token: Token) returns (ok: bool)
      modifies this, store
      ensures View() == LoggedOut(old(View()), token)
      ensures ok <==> old(store.answered) > 0
      // The row goes when the database answers, this process's entries in any case,
      // and nothing else changes.
      ensures store.sessions == if ok then old(store.sessions) - {(token.uid, token.sid)} else old(store.sessions)
      ensures states == old(states) - {token.sid} && rotated == old(rotated) - {(token.sid, token.gen)}
      ensures store.revocations == old(store.revocations) && thefts == old(thefts)
    {
      ok := store.DeleteSession(token.uid, token.sid);
      EvictSessionState(token.sid, token.gen);
    }

    // The cache entry it writes besides is read nowhere.
    method LogoutAllDevices(uid: Uid) returns (ok: bool)
      modifies store
      ensures View() == old(View()).(db := Bumped(old(View()).db, uid))
      ensures ok <==> old(store.answered) >= 2
      ensures store.sessions == old(store.sessions)
      ensures store.revocations ==
        if !ok then old(store.revocations)
        else old(store.revocations)[uid := if uid in old(store.revocations) then old(store.revocations)[uid] + 1 else 1]
    {
      var globalVer;
      ok, globalVer := store.BumpUserGlobalVer(uid);
    }

    method ValidateToken(token: Token, now: int) returns (r: Option<Error>)
      modifies this, store
      ensures (View(), r) == Validated(old(View()), token, now)
    {
      var entry := LookUpState(token.sid, now);
      if entry.Some? {
        if token.gen != entry.value.gen || token.globalVer < entry.value.minGlobalVer {
          return Some(TokenRevoked);
        }
        return None;
      }
      var ok, session := store.GetSession(token.uid, token.sid);
      if !ok {
        return Some(StoreFailed);
      }
      if session.None? || now > session.value.expiresAt || token.gen != session.value.gen {
        return Some(TokenRevoked);
      }
      var globalVer;
      ok, globalVer := store.GetUserRevocation(token.uid);
      if !ok {
        return Some(StoreFailed);
      }
      if token.globalVer < globalVer {
        return Some(TokenRevoked);
      }
      states := states[token.sid := Entry(session.value.gen, globalVer, now + SESSION_STATE_TTL)];
      return None;
    }

    method MintSessionTokenPair(uid: Uid, sid: Sid, now: int, life: int, mints: bool) returns (r: Answer)
      modifies this, store
      ensures (View(), r) == LoggedIn(old(View()), uid, sid, now, life, mints)
    {
      var ok := store.StoreSession(uid, sid, Session(1, now + life));
      if !ok {
        return Refused(StoreFailed);
      }
      var globalVer;
      ok, globalVer := store.GetUserRevocation(uid);
      if !ok {
        return Refused(StoreFailed);
      }
      if !mints {
        return Refused(MintFailed);
      }
      states := states[sid := Entry(1, globalVer, now + SESSION_STATE_TTL)];
      return Granted(Token(uid, sid, 1, globalVer));
    }
  }
}
