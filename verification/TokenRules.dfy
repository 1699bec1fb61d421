// The rules a caller of the token service can rely on: exactly when a token is
// accepted, rotated or taken for a replay, and what each of these changes.
// Source: services/auth/internal/service/auth_service.go.
module TokenRules {
  import opened Common
  import opened AuthService

  // ---------------------------------------------------------------- accepting

  // The session row is at the token's generation.
  predicate Current(a: Auth, token: Token) {
    (token.uid, token.sid) in a.db.sessions && a.db.sessions[(token.uid, token.sid)].gen == token.gen
  }

  // An access token is accepted exactly when this process remembers the session at
  // its generation with a version it meets, or, not remembering the session, finds
  // its row at that generation and unexpired and the user's version met.
  lemma AcceptedExactlyWhen(a: Auth, token: Token, now: int)
    ensures var live := token.sid in a.cache.states && now <= a.cache.states[token.sid].until;
      Validated(a, token, now).1.None? <==>
        if live then a.cache.states[token.sid].gen == token.gen && a.cache.states[token.sid].minGlobalVer <= token.globalVer
        else
          && a.db.answers >= 2 && Current(a, token)
          && now <= a.db.sessions[(token.uid, token.sid)].expiresAt
          && (token.uid in a.db.revocations ==> a.db.revocations[token.uid] <= token.globalVer)
  {
  }

  // Validating changes no row; a token found good in the store is remembered for
  // SESSION_STATE_TTL, and nothing else in the cache changes.
  lemma AcceptingRemembers(a: Auth, token: Token, now: int)
    ensures var (b, r) := Validated(a, token, now);
      && b.db.sessions == a.db.sessions && b.db.revocations == a.db.revocations
      && b.cache.rotated == a.cache.rotated && b.cache.thefts == a.cache.thefts
      && (r.None? ==>
            && token.sid in b.cache.states && now <= b.cache.states[token.sid].until
            && b.cache.states[token.sid].gen == token.gen && b.cache.states[token.sid].minGlobalVer <= token.globalVer)
      && (b.cache.states != a.cache.states ==>
            && r.None? && b.cache.states[token.sid].until == now + 15 * 60
            && b.cache.states - {token.sid} == a.cache.states - {token.sid})
  {
  }

  // ---------------------------------------------------------------- rotating

  // The answer comes from the replacements kept in this process.
  predicate FromOverlap(a: Auth, token: Token, now: int) {
    (token.sid, token.gen) in a.cache.rotated && now <= a.cache.rotated[(token.sid, token.gen)].until
  }

  // A refresh token gets its successor exactly when the row is at its generation,
  // the version it is held to is met, and the database and the minting work.
  lemma GrantedExactlyWhen(a: Auth, token: Token, now: int, mints: bool)
    ensures var live := token.sid in a.cache.states && now <= a.cache.states[token.sid].until;
      Refreshed(a, token, now, mints).1.Granted? <==>
        || FromOverlap(a, token, now)
        || (mints && Current(a, token)
            && if live then a.db.answers >= 1 && a.cache.states[token.sid].gen == token.gen
                            && a.cache.states[token.sid].minGlobalVer <= token.globalVer
               else a.db.answers >= 3
                    && (token.uid in a.db.revocations ==> a.db.revocations[token.uid] <= token.globalVer))
  {
    hide TheftHandled;
  }

  // What a grant changes: from the overlap nothing; otherwise the row moves up by
  // one, the pair is kept for ROTATED_TOKEN_TTL, and the session is remembered for
  // SESSION_STATE_TTL at the new generation.
  lemma GrantRotates(a: Auth, token: Token, now: int, mints: bool)
    requires Refreshed(a, token, now, mints).1.Granted?
    ensures var (b, r) := Refreshed(a, token, now, mints);
      if FromOverlap(a, token, now) then b == a && r.pair == a.cache.rotated[(token.sid, token.gen)].pair
      else
        var key := (token.uid, token.sid);
        && r.pair.uid == token.uid && r.pair.sid == token.sid && r.pair.gen == token.gen + 1
        && r.pair.globalVer <= token.globalVer
        && b.db.sessions == a.db.sessions[key := Session(token.gen + 1, a.db.sessions[key].expiresAt)]
        && b.db.revocations == a.db.revocations && b.cache.thefts == a.cache.thefts
        && b.cache.rotated == a.cache.rotated[(token.sid, token.gen) := Kept(r.pair, now + 30)]
        && b.cache.states == a.cache.states[token.sid := Entry(token.gen + 1, r.pair.globalVer, now + 15 * 60)]
  {
    hide TheftHandled;
  }

  // So a client that lost the answer and asks this process again within the
  // overlap, and before it forgets, gets the very same pair.
  lemma OverlapRepeatsTheAnswer(a: Auth, token: Token, now: int, later: int, mints: bool, again: bool, answers: nat)
    requires Refreshed(a, token, now, mints).1.Granted? && !FromOverlap(a, token, now) && now <= later <= now + 30
    ensures var (b, r) := Refreshed(a, token, now, mints);
      Refreshed(b.(db := b.db.(answers := answers)), token, later, again).1 == r
  {
    GrantRotates(a, token, now, mints);
  }

  // ---------------------------------------------------------------- refusing

  // The generation this process compares a token with, when it can.
  function Known(a: Auth, token: Token, now: int): Option<nat> {
    if token.sid in a.cache.states && now <= a.cache.states[token.sid].until then Some(a.cache.states[token.sid].gen)
    else if a.db.answers >= 1 && (token.uid, token.sid) in a.db.sessions then Some(a.db.sessions[(token.uid, token.sid)].gen)
    else None
  }

  // A refresh is taken for a replay exactly when no replacement is at hand and the
  // generation this process knows is not the token's; the session is then forgotten
  // here, and deleted if the database answers on.
  lemma ReplayedExactlyWhen(a: Auth, token: Token, now: int, mints: bool)
    ensures Refreshed(a, token, now, mints).1 == Refused(ReplayDetected) <==>
      !FromOverlap(a, token, now) && Known(a, token, now).Some? && Known(a, token, now).value != token.gen
    ensures Refreshed(a, token, now, mints).1 == Refused(ReplayDetected) ==>
      var b := Refreshed(a, token, now, mints).0;
      && b.cache.states == a.cache.states - {token.sid} && b.cache.rotated == a.cache.rotated
      && (a.db.answers >= 4 ==> b.db.sessions == a.db.sessions - {(token.uid, token.sid)})
      && (forall key :: key in a.db.sessions && key != (token.uid, token.sid) ==>
            key in b.db.sessions && b.db.sessions[key] == a.db.sessions[key])
  {
    hide Rotated;
    TheftTakesOneRow(a, token, now);
    TheftTakesOneRow(a.(db := Asked(a.db, 1)), token, now);
    RotatedIsNoReplay(a, token, now, mints);
  }

  lemma RotatedIsNoReplay(a: Auth, token: Token, now: int, mints: bool)
    ensures forall b: Auth, globalVer: nat, warm: bool :: Rotated(b, token, globalVer, now, mints, warm).1 != Refused(ReplayDetected)
  {
  }

  lemma TheftTakesOneRow(a: Auth, token: Token, now: int)
    ensures var b := TheftHandled(a, token, now);
      && (a.db.answers >= 3 ==> b.db.sessions == a.db.sessions - {(token.uid, token.sid)})
      && (b.db.sessions == a.db.sessions || b.db.sessions == a.db.sessions - {(token.uid, token.sid)})
  {
  }

  // ---------------------------------------------------------------- thefts

  // The third replay within the hour signs the user out everywhere: the first two
  // leave the user's version alone, the third raises it by one, and the count
  // starts afresh.
  lemma ThirdReplayRaisesTheVersion(a: Auth, one: Token, two: Token, three: Token, now: int)
    requires one.uid == two.uid == three.uid && a.db.answers >= 5
    requires one.uid in a.cache.thefts ==> a.cache.thefts[one.uid].until < now
    ensures GlobalVerOf(TheftHandled(a, one, now).db, one.uid) == GlobalVerOf(a.db, one.uid)
    ensures GlobalVerOf(TheftHandled(TheftHandled(a, one, now), two, now).db, one.uid) == GlobalVerOf(a.db, one.uid)
    ensures var b := TheftHandled(TheftHandled(TheftHandled(a, one, now), two, now), three, now);
      && GlobalVerOf(b.db, one.uid) == GlobalVerOf(a.db, one.uid) + 1
      && one.uid !in b.cache.thefts
      && b.db.sessions == a.db.sessions - {(one.uid, one.sid), (one.uid, two.sid), (one.uid, three.sid)}
  {
    var key1, key2, key3 := (one.uid, one.sid), (one.uid, two.sid), (one.uid, three.sid);
    assert a.db.sessions - {key1} - {key2} - {key3} == a.db.sessions - {key1, key2, key3};
  }

  // ---------------------------------------------------------------- logging in

  // A login stores a row at generation 1 that ends a lifetime from now, and hands
  // out its token with the user's version; a failed one hands out nothing.
  lemma LoginStarts(a: Auth, uid: Uid, sid: Sid, now: int, life: int, mints: bool)
    ensures var (b, r) := LoggedIn(a, uid, sid, now, life, mints);
      && (r.Granted? <==> mints && a.db.answers >= 2)
      && (a.db.answers >= 1 ==> b.db.sessions == a.db.sessions[(uid, sid) := Session(1, now + life)])
      && (a.db.answers == 0 ==> b.db.sessions == a.db.sessions)
      && b.db.revocations == a.db.revocations && b.cache.rotated == a.cache.rotated && b.cache.thefts == a.cache.thefts
      && (r.Granted? ==>
            && r.pair == Token(uid, sid, 1, GlobalVerOf(a.db, uid))
            && b.cache.states == a.cache.states[sid := Entry(1, r.pair.globalVer, now + 15 * 60)])
      && (!r.Granted? ==> b.cache.states == a.cache.states)
  {
  }
}
