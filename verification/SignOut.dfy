// Signing out one session: what it removes, and what every process still grants
// after it, in every later state of a run.
// Source: services/auth/internal/service/auth_service.go.
module SignOut {
  import opened Common
  import opened AuthService
  import opened AuthRuns

  // ---------------------------------------------------------------- replacements

  // The replacements a call may add are kept for ROTATED_TOKEN_TTL, and only while
  // the row is there.
  ghost predicate KeepsPairs(a: Auth, b: Auth, uid: Uid, sid: Sid, now: int) {
    forall k :: k in b.cache.rotated ==>
      || (k in a.cache.rotated && b.cache.rotated[k] == a.cache.rotated[k])
      || (k.0 == sid && (uid, sid) in b.db.sessions && b.cache.rotated[k].until == now + ROTATED_TOKEN_TTL)
  }

  lemma RotatedKeepsPairs(a: Auth, token: Token, globalVer: nat, now: int, mints: bool, warm: bool)
    ensures KeepsPairs(a, Rotated(a, token, globalVer, now, mints, warm).0, token.uid, token.sid, now)
  {
  }

  lemma ColdRefreshedKeepsPairs(a: Auth, token: Token, now: int, mints: bool)
    ensures KeepsPairs(a, ColdRefreshed(a, token, now, mints).0, token.uid, token.sid, now)
  {
    hide Rotated;
    RotatedKeepsPairs(a.(db := Asked(a.db, 2)), token, GlobalVerOf(a.db, token.uid), now, mints, false);
  }

  lemma RefreshedKeepsPairs(a: Auth, token: Token, now: int, mints: bool)
    ensures KeepsPairs(a, Refreshed(a, token, now, mints).0, token.uid, token.sid, now)
  {
    hide Rotated, ColdRefreshed;
    ColdRefreshedKeepsPairs(a, token, now, mints);
    if StateOf(a.cache, token.sid, now).Some? {
      RotatedKeepsPairs(a, token, StateOf(a.cache, token.sid, now).value.minGlobalVer, now, mints, true);
    }
  }

  // ---------------------------------------------------------------- invariant

  // The last moment a replacement can be kept to.
  function Overlap(w: World, sid: Sid): int {
    (if sid in w.deletedAt then w.deletedAt[sid] else w.clock) + ROTATED_TOKEN_TTL
  }

  ghost predicate PairsOk(w: World, q: nat)
    requires q in w.caches
  {
    forall k :: k in w.caches[q].rotated ==> k.0 in w.owner && w.caches[q].rotated[k].until <= Overlap(w, k.0)
  }

  // A session a client holds a token of has its row, or was deleted.
  ghost predicate Accounted(w: World) {
    && (forall sid :: sid in w.newest ==> sid in w.owner && ((w.owner[sid], sid) in w.sessions || sid in w.deletedAt))
    && (forall q :: q in w.caches ==> PairsOk(w, q))
  }

  lemma CallAccountsForRows(w: World, e: Event, b: Auth, v: World, uid: Uid, sid: Sid)
    requires Accounted(w) && Calls(w, e, b, v, uid, sid) && v.newest.Keys <= w.newest.Keys + {sid} && sid in w.newest
    ensures forall k :: k in v.newest ==> k in v.owner && ((v.owner[k], k) in v.sessions || k in v.deletedAt)
  {
    hide CacheOf, PairsOk;
  }

  // Later worlds never shorten what a replacement may be kept to.
  lemma OverlapGrows(w: World, e: Event, b: Auth, v: World, uid: Uid, sid: Sid, k: Sid)
    requires Inv(w) && Calls(w, e, b, v, uid, sid) && k in w.owner
    ensures Overlap(w, k) <= Overlap(v, k)
  {
    hide CacheOf, CacheOk, Touches;
    if (uid, sid) in w.sessions {
      assert RowOk(w, (uid, sid));
    }
  }

  // A row that is there after the call keeps the moment open.
  lemma NewPair(w: World, e: Event, b: Auth, v: World, uid: Uid, sid: Sid)
    requires Inv(w) && Calls(w, e, b, v, uid, sid) && (uid, sid) in b.db.sessions
    ensures e.now + ROTATED_TOKEN_TTL == Overlap(v, sid)
  {
    hide CacheOf, CacheOk;
    assert RowOk(w, (uid, sid));
  }

  lemma OldPair(w: World, q: nat, k: (Sid, nat))
    requires Accounted(w) && q in w.caches && k in w.caches[q].rotated
    ensures k.0 in w.owner && w.caches[q].rotated[k].until <= Overlap(w, k.0)
  {
    hide Overlap;
    assert PairsOk(w, q);
  }

  lemma PairStaysOk(w: World, e: Event, b: Auth, v: World, uid: Uid, sid: Sid, q: nat, k: (Sid, nat))
    requires Inv(w) && Accounted(w) && Calls(w, e, b, v, uid, sid) && KeepsPairs(Seen(w, e), b, uid, sid, e.now)
    requires q in v.caches && k in v.caches[q].rotated
    ensures k.0 in v.owner && v.caches[q].rotated[k].until <= Overlap(v, k.0)
  {
    hide Inv, Accounted, Touches, Overlap;
    if q in w.caches && k in w.caches[q].rotated && w.caches[q].rotated[k] == v.caches[q].rotated[k] {
      OldPair(w, q, k);
      OverlapGrows(w, e, b, v, uid, sid, k.0);
    } else {
      NewPair(w, e, b, v, uid, sid);
    }
  }

  // A call with a token of one session.
  lemma CallKeepsAccounted(w: World, e: Event, b: Auth, v: World, uid: Uid, sid: Sid)
    requires Inv(w) && Accounted(w) && Calls(w, e, b, v, uid, sid) && KeepsPairs(Seen(w, e), b, uid, sid, e.now)
    requires v.newest.Keys <= w.newest.Keys + {sid} && sid in w.newest
    ensures Accounted(v)
  {
    CallAccountsForRows(w, e, b, v, uid, sid);
    hide Inv, Calls, KeepsPairs, Overlap;
    forall q, k | q in v.caches && k in v.caches[q].rotated
      ensures k.0 in v.owner && v.caches[q].rotated[k].until <= Overlap(v, k.0)
    {
      PairStaysOk(w, e, b, v, uid, sid, q, k);
    }
  }

  lemma RefreshKeepsAccounted(w: World, e: Event)
    requires Inv(w) && Accounted(w) && Enabled(w, e) && e.rpc.Refresh?
    ensures Accounted(Apply(w, e))
  {
    hide Inv, Accounted, Refreshed, Touches, KeepsPairs;
    var a, token := Seen(w, e), e.rpc.token;
    RefreshedTouches(a, token, e.now, e.mints);
    RefreshedKeepsPairs(a, token, e.now, e.mints);
    CallKeepsAccounted(w, e, Refreshed(a, token, e.now, e.mints).0, Apply(w, e), token.uid, token.sid);
  }

  lemma SignOutKeepsAccounted(w: World, e: Event)
    requires Inv(w) && Accounted(w) && Enabled(w, e) && e.rpc.SignOut?
    ensures Accounted(Apply(w, e))
  {
    hide Inv, Accounted, Touches;
    var a, token := Seen(w, e), e.rpc.token;
    LoggedOutTouches(a, token, e.now);
    CallKeepsAccounted(w, e, LoggedOut(a, token), Apply(w, e), token.uid, token.sid);
  }

  lemma ValidateKeepsAccounted(w: World, e: Event)
    requires Inv(w) && Accounted(w) && Enabled(w, e) && e.rpc.Validate?
    ensures Accounted(Apply(w, e))
  {
    hide Inv, Accounted, Touches;
    var a, token := Seen(w, e), e.rpc.token;
    ValidatedTouches(a, token, e.now);
    ValidatedDeletesNothing(a, token, e.now);
    CallKeepsAccounted(w, e, Validated(a, token, e.now).0, Apply(w, e), token.uid, token.sid);
  }

  lemma LoggedInStores(a: Auth, uid: Uid, sid: Sid, now: int, life: int, mints: bool)
    ensures var (b, r) := LoggedIn(a, uid, sid, now, life, mints);
      && b.cache.rotated == a.cache.rotated && a.db.sessions.Keys <= b.db.sessions.Keys
      && (r.Granted? ==> (uid, sid) in b.db.sessions)
  {
  }

  // A call that adds no replacement and keeps every row.
  lemma QuietCallKeepsAccounted(w: World, v: World)
    requires Accounted(w) && w.clock <= v.clock && v.deletedAt == w.deletedAt
    requires w.owner.Keys <= v.owner.Keys && (forall k :: k in w.owner ==> v.owner[k] == w.owner[k])
    requires w.sessions.Keys <= v.sessions.Keys
    requires forall k :: k in v.newest && k !in w.newest ==> k in v.owner && (v.owner[k], k) in v.sessions
    requires forall q, k :: q in v.caches && k in v.caches[q].rotated ==>
      q in w.caches && k in w.caches[q].rotated && w.caches[q].rotated[k] == v.caches[q].rotated[k]
    ensures Accounted(v)
  {
    forall q | q in v.caches ensures PairsOk(v, q) {
      if q in w.caches {
        assert PairsOk(w, q);
      }
    }
  }

  lemma LoginKeepsAccounted(w: World, e: Event)
    requires Inv(w) && Accounted(w) && Enabled(w, e) && e.rpc.Login?
    ensures Accounted(Apply(w, e))
  {
    hide Inv, Accounted, LoggedIn, Refreshed, Validated, LoggedOut;
    var rpc := e.rpc;
    LoggedInStores(Seen(w, e), rpc.uid, rpc.sid, e.now, rpc.life, e.mints);
    QuietCallKeepsAccounted(w, Apply(w, e));
  }

  lemma OtherKeepsAccounted(w: World, e: Event)
    requires Inv(w) && Accounted(w) && Enabled(w, e) && (e.rpc.Forget? || e.rpc.SignOutEverywhere?)
    ensures Accounted(Apply(w, e))
  {
    hide Inv;
    var v := Apply(w, e);
    forall q | q in v.caches ensures PairsOk(v, q) {
      if q in w.caches {
        assert PairsOk(w, q);
      }
    }
  }

  lemma StepKeepsAccounted(w: World, e: Event)
    requires Inv(w) && Accounted(w) && Enabled(w, e)
    ensures Accounted(Apply(w, e))
  {
    hide Inv, Accounted, Apply, Enabled;
    match e.rpc
    case Login(_, _, _) => LoginKeepsAccounted(w, e);
    case Refresh(_) => RefreshKeepsAccounted(w, e);
    case SignOut(_) => SignOutKeepsAccounted(w, e);
    case Validate(_) => ValidateKeepsAccounted(w, e);
    case SignOutEverywhere(_) => OtherKeepsAccounted(w, e);
    case Forget(_, _) => OtherKeepsAccounted(w, e);
  }

  lemma {:induction false} RunsKeepAccounted(events: seq<Event>)
    requires Run(events).Some?
    ensures Accounted(Run(events).value)
  {
    hide Apply, Enabled;
    if events != [] {
      hide Inv, Accounted;
      var front := events[..|events| - 1];
      RunsKeepAccounted(front);
      RunKeepsInv(front);
      StepKeepsAccounted(Run(front).value, events[|events| - 1]);
    }
  }

  // ---------------------------------------------------------------- signing out

  // The session's row is gone for good, since this moment at the latest.
  ghost predicate GoneSince(w: World, uid: Uid, sid: Sid, now: int) {
    && sid in w.owner && w.owner[sid] == uid && (uid, sid) !in w.sessions
    && sid in w.deletedAt && w.deletedAt[sid] <= now
  }

  // A sign-out that reaches the database leaves the session without its row.
  lemma SignOutDeletes(w: World, e: Event)
    requires Inv(w) && Accounted(w) && Enabled(w, e) && e.rpc.SignOut? && e.answers >= 1
    ensures GoneSince(Apply(w, e), e.rpc.token.uid, e.rpc.token.sid, e.now)
  {
    hide CacheOk, PairsOk;
    var token := e.rpc.token;
    assert Genuine(w, token);
  }

  lemma CallKeepsGone(w: World, e: Event, b: Auth, v: World, uid: Uid, sid: Sid, other: Sid, owner: Uid, now: int)
    requires Calls(w, e, b, v, uid, sid) && GoneSince(w, owner, other, now)
    ensures GoneSince(v, owner, other, now)
  {
    hide CacheOf;
  }

  lemma LoginKeepsGone(w: World, e: Event, uid: Uid, sid: Sid, now: int)
    requires Enabled(w, e) && e.rpc.Login? && GoneSince(w, uid, sid, now)
    ensures GoneSince(Apply(w, e), uid, sid, now)
  {
    hide LoggedIn, Refreshed, Validated, LoggedOut;
    LoggedInAdds(Seen(w, e), e.rpc.uid, e.rpc.sid, e.now, e.rpc.life, e.mints);
  }

  lemma StepKeepsGone(w: World, e: Event, uid: Uid, sid: Sid, now: int)
    requires Inv(w) && Enabled(w, e) && GoneSince(w, uid, sid, now)
    ensures GoneSince(Apply(w, e), uid, sid, now)
  {
    hide Inv, Touches, LoggedIn, Refreshed, Validated, LoggedOut;
    var a := Seen(w, e);
    match e.rpc
    case Login(_, _, _) => LoginKeepsGone(w, e, uid, sid, now);
    case Refresh(token) =>
      RefreshedTouches(a, token, e.now, e.mints);
      CallKeepsGone(w, e, Refreshed(a, token, e.now, e.mints).0, Apply(w, e), token.uid, token.sid, sid, uid, now);
    case SignOut(token) =>
      LoggedOutTouches(a, token, e.now);
      CallKeepsGone(w, e, LoggedOut(a, token), Apply(w, e), token.uid, token.sid, sid, uid, now);
    case Validate(token) =>
      ValidatedTouches(a, token, e.now);
      ValidatedDeletesNothing(a, token, e.now);
      CallKeepsGone(w, e, Validated(a, token, e.now).0, Apply(w, e), token.uid, token.sid, sid, uid, now);
    case _ =>
  }

  lemma {:induction false} SignedOutStaysGone(before: seq<Event>, out: Event, later: seq<Event>)
    requires Run(before + [out] + later).Some? && out.rpc.SignOut? && out.answers >= 1
    ensures GoneSince(Run(before + [out] + later).value, out.rpc.token.uid, out.rpc.token.sid, out.now)
    decreases |later|
  {
    hide Apply, Enabled, Inv, Accounted, GoneSince;
    var events := before + [out] + later;
    var front := events[..|events| - 1];
    RunKeepsInv(front);
    if later == [] {
      assert events == before + [out] && front == before;
      RunsKeepAccounted(front);
      SignOutDeletes(Run(front).value, out);
    } else {
      assert front == before + [out] + later[..|later| - 1];
      SignedOutStaysGone(before, out, later[..|later| - 1]);
      StepKeepsGone(Run(front).value, events[|events| - 1], out.rpc.token.uid, out.rpc.token.sid, out.now);
    }
  }

  // After a sign-out that reaches the database, in every later state of the run
  // and on every process: no token of the session is validated without a live
  // cache entry, nor by anyone later than SESSION_STATE_TTL; and none is refreshed,
  // except that a replacement made before the sign-out is handed out again for at
  // most ROTATED_TOKEN_TTL.
  lemma SignOutReachesEveryProcess(before: seq<Event>, out: Event, later: seq<Event>, e: Event, used: Token)
    requires Run(before + [out] + later).Some? && out.rpc.SignOut? && out.answers >= 1
    requires Enabled(Run(before + [out] + later).value, e) && used.sid == out.rpc.token.sid
    ensures var a := Seen(Run(before + [out] + later).value, e);
      e.rpc == Validate(used) && Validated(a, used, e.now).1.None? ==>
        StateOf(a.cache, used.sid, e.now).Some? && e.now <= out.now + SESSION_STATE_TTL
    ensures var a := Seen(Run(before + [out] + later).value, e);
      e.rpc == Refresh(used) && Refreshed(a, used, e.now, e.mints).1.Granted? ==>
        && RotatedOf(a.cache, used.sid, used.gen, e.now) == Some(Refreshed(a, used, e.now, e.mints).1.pair)
        && e.now <= out.now + ROTATED_TOKEN_TTL
  {
    hide Run, Inv, Accounted, TheftHandled;
    var events := before + [out] + later;
    var w := Run(events).value;
    SignedOutStaysGone(before, out, later);
    RunKeepsInv(events);
    RunsKeepAccounted(events);
    EntryIsBounded(w, e.server, used.sid);
    if (used.sid, used.gen) in CacheOf(w, e.server).rotated {
      OldPair(w, e.server, (used.sid, used.gen));
    }
  }

  lemma EntryIsBounded(w: World, q: nat, sid: Sid)
    requires Inv(w)
    ensures sid in CacheOf(w, q).states ==> CacheOf(w, q).states[sid].until <= Horizon(w, sid)
  {
    if q in w.caches {
      assert CacheOk(w, q);
    }
  }
}
