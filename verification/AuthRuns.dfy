// What holds over every run of whole calls on any number of processes, each with
// its own cache that may forget anything at any time: how long a revoked session
// stays usable, and when the holder of the newest token is turned away.
// Source: services/auth/internal/service/auth_service.go.
module AuthRuns {
  import opened Common
  import opened AuthService

  datatype Rpc =
    | Login(uid: Uid, sid: Sid, life: int)
    | Refresh(token: Token)
    | SignOut(token: Token)
    | SignOutEverywhere(uid: Uid)
    | Validate(token: Token)
    | Forget(sids: set<Sid>, overlaps: set<(Sid, nat)>)

  // One call on one server: how many statements the database answers it, and
  // whether minting works.
  datatype Event = Event(server: nat, now: int, answers: nat, mints: bool, rpc: Rpc)

  datatype World = World(
    sessions: map<Key, Session>,
    revocations: map<Uid, nat>,
    caches: map<nat, Cache>,
    clock: int,
    owner: map<Sid, Uid>,       // sessions ever created
    newest: map<Sid, nat>,      // the newest generation handed to a client
    failed: set<Sid>,           // sessions for which a call could not mint its pair
    deletedAt: map<Sid, int>)   // when a session's row was deleted

  function Init(): World {
    World(map[], map[], map[], 0, map[], map[], {}, map[])
  }

  const EMPTY_CACHE := Cache(map[], map[], map[])

  function CacheOf(w: World, server: nat): Cache {
    if server in w.caches then w.caches[server] else EMPTY_CACHE
  }

  function Seen(w: World, e: Event): Auth {
    Auth(Db(w.sessions, w.revocations, e.answers), CacheOf(w, e.server))
  }

  function NewestOf(w: World, sid: Sid): nat {
    if sid in w.newest then w.newest[sid] else 0
  }

  // Tokens are signed: a client can only present one it was given.
  predicate Genuine(w: World, token: Token) {
    && token.sid in w.owner && w.owner[token.sid] == token.uid
    && 1 <= token.gen <= NewestOf(w, token.sid)
  }

  predicate Enabled(w: World, e: Event) {
    && w.clock <= e.now
    && match e.rpc
       case Login(_, sid, _) => sid !in w.owner
       case Refresh(token) => Genuine(w, token)
       case SignOut(token) => Genuine(w, token)
       case Validate(token) => Genuine(w, token)
       case _ => true
  }

  // The world after a call that left the service in state b.
  function After(w: World, e: Event, b: Auth): World {
    w.(sessions := b.db.sessions, revocations := b.db.revocations, caches := w.caches[e.server := b.cache], clock := e.now)
  }

  function Handed(w: World, sid: Sid, r: Answer): World {
    match r
    case Granted(pair) => w.(newest := w.newest[sid := Max(NewestOf(w, sid), pair.gen)])
    case Refused(error) => if error.MintFailed? then w.(failed := w.failed + {sid}) else w
  }

  // Takes note of a row that was there before and is gone now.
  function Noted(w: World, v: World, uid: Uid, sid: Sid): World {
    if (uid, sid) in w.sessions && (uid, sid) !in v.sessions then v.(deletedAt := v.deletedAt[sid := v.clock]) else v
  }

  function Apply(w: World, e: Event): World {
    var a := Seen(w, e);
    match e.rpc
    case Login(uid, sid, life) =>
      var (b, r) := LoggedIn(a, uid, sid, e.now, life, e.mints);
      Handed(After(w, e, b).(owner := w.owner[sid := uid]), sid, r)
    case Refresh(token) =>
      var (b, r) := Refreshed(a, token, e.now, e.mints);
      Noted(w, Handed(After(w, e, b), token.sid, r), token.uid, token.sid)
    case SignOut(token) => Noted(w, After(w, e, LoggedOut(a, token)), token.uid, token.sid)
    case SignOutEverywhere(uid) => After(w, e, a.(db := Bumped(a.db, uid)))
    case Validate(token) =>
      var (b, _) := Validated(a, token, e.now);
      After(w, e, b)
    case Forget(sids, overlaps) =>
      After(w, e, a.(cache := a.cache.(states := a.cache.states - sids, rotated := a.cache.rotated - overlaps)))
  }

  function Run(events: seq<Event>): Option<World> {
    if events == [] then Some(Init())
    else
      match Run(events[..|events| - 1])
      case None => None
      case Some(w) => if Enabled(w, events[|events| - 1]) then Some(Apply(w, events[|events| - 1])) else None
  }

  // A cache forgets what it is told to and nothing else, and no other cache does.
  lemma ForgetsExactly(w: World, e: Event, q: nat)
    requires e.rpc.Forget?
    ensures var c, d := CacheOf(w, q), CacheOf(Apply(w, e), q);
      if q == e.server then d == Cache(c.states - e.rpc.sids, c.rotated - e.rpc.overlaps, c.thefts) else d == c
    ensures Apply(w, e).sessions == w.sessions && Apply(w, e).revocations == w.revocations && Apply(w, e).clock == e.now
  {
  }

  // ---------------------------------------------------------------- one call

  // What a call with a token of session `sid` does to rows and session entries:
  // only that session's are touched, and an entry is written only while the row
  // is there.
  ghost predicate Touches(a: Auth, b: Auth, uid: Uid, sid: Sid, now: int) {
    && (forall key :: key != (uid, sid) ==> (key in a.db.sessions <==> key in b.db.sessions))
    && (forall key :: key != (uid, sid) && key in a.db.sessions ==> b.db.sessions[key] == a.db.sessions[key])
    && ((uid, sid) in b.db.sessions ==> (uid, sid) in a.db.sessions && b.db.sessions[(uid, sid)].gen >= a.db.sessions[(uid, sid)].gen)
    && (forall k :: k in b.cache.states ==>
          || (k in a.cache.states && b.cache.states[k] == a.cache.states[k])
          || (k == sid && (uid, sid) in b.db.sessions && b.cache.states[k].until == now + SESSION_STATE_TTL))
  }

  lemma RotatedTouches(a: Auth, token: Token, globalVer: nat, now: int, mints: bool, warm: bool)
    ensures Touches(a, Rotated(a, token, globalVer, now, mints, warm).0, token.uid, token.sid, now)
  {
  }

  lemma TheftTouches(a: Auth, token: Token, now: int)
    ensures Touches(a, TheftHandled(a, token, now), token.uid, token.sid, now)
  {
  }

  lemma ColdRefreshedTouches(a: Auth, token: Token, now: int, mints: bool)
    ensures Touches(a, ColdRefreshed(a, token, now, mints).0, token.uid, token.sid, now)
  {
    hide Rotated, TheftHandled;
    TheftTouches(a.(db := Asked(a.db, 1)), token, now);
    RotatedTouches(a.(db := Asked(a.db, 2)), token, GlobalVerOf(a.db, token.uid), now, mints, false);
  }

  lemma RefreshedTouches(a: Auth, token: Token, now: int, mints: bool)
    ensures Touches(a, Refreshed(a, token, now, mints).0, token.uid, token.sid, now)
  {
    hide Rotated, TheftHandled, RotatedOf, ColdRefreshed;
    TheftTouches(a, token, now);
    ColdRefreshedTouches(a, token, now, mints);
    if StateOf(a.cache, token.sid, now).Some? {
      RotatedTouches(a, token, StateOf(a.cache, token.sid, now).value.minGlobalVer, now, mints, true);
    }
  }

  lemma ValidatedTouches(a: Auth, token: Token, now: int)
    ensures Touches(a, Validated(a, token, now).0, token.uid, token.sid, now)
  {
  }

  // ---------------------------------------------------------------- revocation

  // The last moment a session entry can live to.
  function Horizon(w: World, sid: Sid): int {
    (if sid in w.deletedAt then w.deletedAt[sid] else w.clock) + SESSION_STATE_TTL
  }

  ghost predicate RowOk(w: World, key: Key)
    requires key in w.sessions
  {
    key.1 in w.owner && w.owner[key.1] == key.0 && key.1 !in w.deletedAt
  }

  ghost predicate CacheOk(w: World, server: nat)
    requires server in w.caches
  {
    forall sid :: sid in w.caches[server].states ==>
      sid in w.owner && w.caches[server].states[sid].until <= Horizon(w, sid)
  }

  ghost predicate Inv(w: World) {
    && (forall key :: key in w.sessions ==> RowOk(w, key))
    && (forall q :: q in w.caches ==> CacheOk(w, q))
    && (forall sid :: sid in w.deletedAt ==> sid in w.owner && w.deletedAt[sid] <= w.clock)
  }

  ghost predicate Calls(w: World, e: Event, b: Auth, v: World, uid: Uid, sid: Sid) {
    && w.clock <= e.now && sid in w.owner && w.owner[sid] == uid
    && Touches(Seen(w, e), b, uid, sid, e.now)
    && v == Noted(w, After(w, e, b).(newest := v.newest, failed := v.failed), uid, sid)
  }

  lemma CallKeepsRows(w: World, e: Event, b: Auth, v: World, uid: Uid, sid: Sid)
    requires Inv(w) && Calls(w, e, b, v, uid, sid)
    ensures forall key :: key in v.sessions ==> RowOk(v, key)
  {
    hide CacheOf;
    forall key | key in v.sessions ensures RowOk(v, key) {
      assert RowOk(w, key);
    }
  }

  // Later worlds never shorten what an entry may live to.
  lemma HorizonGrows(w: World, e: Event, b: Auth, v: World, uid: Uid, sid: Sid, k: Sid)
    requires Inv(w) && Calls(w, e, b, v, uid, sid) && k in w.owner
    ensures Horizon(w, k) <= Horizon(v, k)
  {
    hide CacheOf, CacheOk, Touches;
    if (uid, sid) in w.sessions {
      assert RowOk(w, (uid, sid));
    }
  }

  lemma NewEntry(w: World, e: Event, b: Auth, v: World, uid: Uid, sid: Sid, k: Sid)
    requires Inv(w) && Calls(w, e, b, v, uid, sid)
    requires k in b.cache.states
    requires k !in CacheOf(w, e.server).states || CacheOf(w, e.server).states[k] != b.cache.states[k]
    ensures k == sid && b.cache.states[k].until <= Horizon(v, k)
  {
    hide CacheOf;
    CallKeepsRows(w, e, b, v, uid, sid);
    assert RowOk(v, (uid, sid));
  }

  lemma CallKeepsInv(w: World, e: Event, b: Auth, v: World, uid: Uid, sid: Sid)
    requires Inv(w) && Calls(w, e, b, v, uid, sid)
    ensures Inv(v)
  {
    hide RowOk, Horizon, Touches;
    CallKeepsRows(w, e, b, v, uid, sid);
    forall q, k | q in v.caches && k in v.caches[q].states
      ensures k in v.owner && v.caches[q].states[k].until <= Horizon(v, k)
    {
      if q in w.caches && k in w.caches[q].states && w.caches[q].states[k] == v.caches[q].states[k] {
        assert CacheOk(w, q);
        HorizonGrows(w, e, b, v, uid, sid, k);
      } else {
        NewEntry(w, e, b, v, uid, sid, k);
      }
    }
  }

  lemma LoggedInAdds(a: Auth, uid: Uid, sid: Sid, now: int, life: int, mints: bool)
    ensures var b := LoggedIn(a, uid, sid, now, life, mints).0;
      && (b.db.sessions == a.db.sessions || b.db.sessions == a.db.sessions[(uid, sid) := Session(1, now + life)])
      && (forall k :: k in b.cache.states ==>
            || (k in a.cache.states && b.cache.states[k] == a.cache.states[k])
            || (k == sid && b.cache.states[k].until == now + SESSION_STATE_TTL))
  {
  }

  // A session whose id was never used before.
  lemma CreationKeepsInv(w: World, e: Event, b: Auth, v: World, uid: Uid, sid: Sid)
    requires Inv(w) && w.clock <= e.now && sid !in w.owner
    requires b.db.sessions == w.sessions || b.db.sessions.Keys == w.sessions.Keys + {(uid, sid)}
    requires forall k :: k in b.cache.states ==>
      || (k in CacheOf(w, e.server).states && b.cache.states[k] == CacheOf(w, e.server).states[k])
      || (k == sid && b.cache.states[k].until == e.now + SESSION_STATE_TTL)
    requires v.sessions == b.db.sessions && v.caches == w.caches[e.server := b.cache] && v.clock == e.now
    requires v.owner == w.owner[sid := uid] && v.deletedAt == w.deletedAt
    ensures Inv(v)
  {
    forall key | key in v.sessions ensures RowOk(v, key) {
      if key in w.sessions {
        assert RowOk(w, key);
      }
    }
    forall q | q in v.caches ensures CacheOk(v, q) {
      if q in w.caches {
        assert CacheOk(w, q);
      }
    }
  }

  lemma LoginKeepsInv(w: World, e: Event)
    requires Inv(w) && Enabled(w, e) && e.rpc.Login?
    ensures Inv(Apply(w, e))
  {
    hide LoggedIn, Inv;
    var a, rpc := Seen(w, e), e.rpc;
    LoggedInAdds(a, rpc.uid, rpc.sid, e.now, rpc.life, e.mints);
    CreationKeepsInv(w, e, LoggedIn(a, rpc.uid, rpc.sid, e.now, rpc.life, e.mints).0, Apply(w, e), rpc.uid, rpc.sid);
  }

  lemma RefreshKeepsInv(w: World, e: Event)
    requires Inv(w) && Enabled(w, e) && e.rpc.Refresh?
    ensures Inv(Apply(w, e))
  {
    hide Inv, Refreshed, Touches;
    var a, token := Seen(w, e), e.rpc.token;
    RefreshedTouches(a, token, e.now, e.mints);
    CallKeepsInv(w, e, Refreshed(a, token, e.now, e.mints).0, Apply(w, e), token.uid, token.sid);
  }

  lemma SignOutKeepsInv(w: World, e: Event)
    requires Inv(w) && Enabled(w, e) && e.rpc.SignOut?
    ensures Inv(Apply(w, e))
  {
    hide Inv, LoggedOut, Touches;
    var a, token := Seen(w, e), e.rpc.token;
    LoggedOutTouches(a, token, e.now);
    CallKeepsInv(w, e, LoggedOut(a, token), Apply(w, e), token.uid, token.sid);
  }

  lemma ValidateKeepsInv(w: World, e: Event)
    requires Inv(w) && Enabled(w, e) && e.rpc.Validate?
    ensures Inv(Apply(w, e))
  {
    hide Inv, Validated, Touches;
    var a, token := Seen(w, e), e.rpc.token;
    ValidatedTouches(a, token, e.now);
    ValidatedDeletesNothing(a, token, e.now);
    CallKeepsInv(w, e, Validated(a, token, e.now).0, Apply(w, e), token.uid, token.sid);
  }

  lemma OtherKeepsInv(w: World, e: Event)
    requires Inv(w) && Enabled(w, e) && (e.rpc.Forget? || e.rpc.SignOutEverywhere?)
    ensures Inv(Apply(w, e))
  {
    var v := Apply(w, e);
    forall key | key in v.sessions ensures RowOk(v, key) {
      assert RowOk(w, key);
    }
    forall q | q in v.caches ensures CacheOk(v, q) {
      if q in w.caches {
        assert CacheOk(w, q);
      }
    }
  }

  lemma StepKeepsInv(w: World, e: Event)
    requires Inv(w) && Enabled(w, e)
    ensures Inv(Apply(w, e))
  {
    hide Inv, Apply, Enabled;
    match e.rpc
    case Login(_, _, _) => LoginKeepsInv(w, e);
    case Refresh(_) => RefreshKeepsInv(w, e);
    case SignOut(_) => SignOutKeepsInv(w, e);
    case Validate(_) => ValidateKeepsInv(w, e);
    case SignOutEverywhere(_) => OtherKeepsInv(w, e);
    case Forget(_, _) => OtherKeepsInv(w, e);
  }

  lemma LoggedOutTouches(a: Auth, token: Token, now: int)
    ensures Touches(a, LoggedOut(a, token), token.uid, token.sid, now)
  {
  }

  lemma ValidatedDeletesNothing(a: Auth, token: Token, now: int)
    ensures Validated(a, token, now).0.db.sessions == a.db.sessions
  {
  }

  lemma {:induction false} RunKeepsInv(events: seq<Event>)
    requires Run(events).Some?
    ensures Inv(Run(events).value)
  {
    hide Apply, Enabled;
    if events != [] {
      hide Inv;
      RunKeepsInv(events[..|events| - 1]);
      StepKeepsInv(Run(events[..|events| - 1]).value, events[|events| - 1]);
    }
  }

  // A deleted session stays without a row.
  lemma DeletedHasNoRow(w: World, sid: Sid)
    requires Inv(w) && sid in w.deletedAt
    ensures sid in w.owner && (w.owner[sid], sid) !in w.sessions
  {
    forall key | key in w.sessions ensures key.1 != sid {
      assert RowOk(w, key);
    }
  }

  // No server validates a token of a deleted session later than SessionStateTTL
  // after the deletion, and none rotates it, whichever server handled the deletion.
  lemma RevocationReachesEveryServer(events: seq<Event>, e: Event, token: Token)
    requires Run(events).Some? && token.sid in Run(events).value.deletedAt
    requires Enabled(Run(events).value, e) && e.rpc == Validate(token)
    requires e.now > Run(events).value.deletedAt[token.sid] + SESSION_STATE_TTL
    ensures Validated(Seen(Run(events).value, e), token, e.now).1.Some?
  {
    hide Run;
    var w := Run(events).value;
    RunKeepsInv(events);
    DeletedHasNoRow(w, token.sid);
    if e.server in w.caches {
      assert CacheOk(w, e.server);
    }
  }
}
