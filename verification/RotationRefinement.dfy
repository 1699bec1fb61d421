// A refresh, sign-out, login or validation handled as a whole is a sequence of the
// single accesses of SessionRotation: for any failure inside it, the session's row,
// this process's entries and the answer end as some run of those accesses leaves
// them. Source: services/auth/internal/service/auth_service.go.
module RotationRefinement {
  import opened Common
  import opened AuthService
  import S = SessionRotation

  // ---------------------------------------------------------------- matching

  // One session as one process sees it, in both pictures. An entry that has
  // expired is one the cache has forgotten.
  ghost predicate Mirrors(a: Auth, now: int, w: S.World, q: nat, uid: Uid, sid: Sid) {
    && ((uid, sid) in a.db.sessions <==> sid in w.rows)
    && (sid in w.rows ==> w.rows[sid] == a.db.sessions[(uid, sid)].gen)
    && (StateOf(a.cache, sid, now).Some? <==> (q, sid) in w.sessions)
    && ((q, sid) in w.sessions ==> w.sessions[(q, sid)] == StateOf(a.cache, sid, now).value.gen)
    && (forall g: nat :: RotatedOf(a.cache, sid, g, now).Some? <==> (q, sid, g) in w.rotated)
    && (forall g: nat :: (q, sid, g) in w.rotated ==> w.rotated[(q, sid, g)].gen == RotatedOf(a.cache, sid, g, now).value.gen)
  }

  // The process executes n accesses on end.
  function Drive(w: S.World, p: nat, n: nat): S.World {
    if n == 0 then w
    else
      var v := Drive(w, p, n - 1);
      if p in v.procs then S.Execute(v, p, v.procs[p]) else v
  }

  lemma DriveOnce(w: S.World, p: nat, n: nat)
    ensures var v := Drive(w, p, n);
      Drive(w, p, n + 1) == if p in v.procs then S.Execute(v, p, v.procs[p]) else v
  {
  }

  function CallOf(q: nat, token: Token): S.Call {
    S.Call(q, token.sid, token.gen)
  }

  // What an access does depends on no process but its own.
  predicate Refreshing(a: S.Proc) {
    a.Looking? || a.Checking? || a.Loading? || a.Gating? || a.Swapping? || a.Warming? || a.Minting? || a.Keeping? || a.Renewing?
  }

  lemma RefreshIgnoresItself(x: S.World, p: nat, a: S.Proc)
    requires Refreshing(a)
    ensures S.Execute(S.Continue(x, p, a), p, a) == S.Execute(x, p, a)
  {
    assert x.procs[p := a] - {p} == x.procs - {p};
    forall b ensures S.Continue(S.Continue(x, p, a), p, b) == S.Continue(x, p, b) {
      assert x.procs[p := a][p := b] == x.procs[p := b];
    }
    match a
    case Looking(_) =>
    case Checking(_) =>
    case Loading(_) =>
    case Swapping(_, _) =>
    case _ =>
  }

  lemma RestIgnoresItself(x: S.World, p: nat, a: S.Proc)
    requires !Refreshing(a)
    ensures S.Execute(S.Continue(x, p, a), p, a) == S.Execute(x, p, a)
  {
    assert x.procs[p := a] - {p} == x.procs - {p};
    forall b ensures S.Continue(S.Continue(x, p, a), p, b) == S.Continue(x, p, b) {
      assert x.procs[p := a][p := b] == x.procs[p := b];
    }
    match a
    case Vacating(_) =>
    case Reusing(_) =>
    case Validating(_) =>
    case Reading(_) =>
    case _ =>
  }

  lemma ExecuteIgnoresItself(x: S.World, p: nat, a: S.Proc)
    ensures S.Execute(S.Continue(x, p, a), p, a) == S.Execute(x, p, a)
  {
    hide S.Execute, S.Continue;
    if Refreshing(a) {
      RefreshIgnoresItself(x, p, a);
    } else {
      RestIgnoresItself(x, p, a);
    }
  }

  // The world in which the session's row has moved up.
  function Swapped(w: S.World, call: S.Call): S.World {
    w.(rows := w.rows[call.sid := call.gen + 1], wins := w.wins + {(call.sid, call.gen)})
  }

  function PairOf(w: S.World, call: S.Call): S.Pair {
    S.Pair(call.sid, call.gen + 1, |w.mints|)
  }

  // What the accesses that write leave behind.
  lemma Writes(x: S.World, p: nat, call: S.Call, pair: S.Pair, warm: bool)
    ensures call.sid in x.rows && x.rows[call.sid] == call.gen ==>
      S.Execute(x, p, S.Swapping(call, warm)) ==
        S.Continue(Swapped(x, call), p, if warm then S.Minting(call, true) else S.Warming(call))
    ensures S.Execute(x, p, S.Warming(call)) ==
      S.Continue(x.(sessions := x.sessions[S.SlotOf(call) := call.gen + 1]), p, S.Minting(call, false))
    ensures S.Execute(x, p, S.Minting(call, warm)) ==
      S.Continue(x.(mints := x.mints + [PairOf(x, call)]), p, S.Keeping(call, PairOf(x, call), warm))
    ensures S.Execute(x, p, S.Renewing(call, pair)) ==
      S.Answer(x.(sessions := x.sessions[S.SlotOf(call) := call.gen + 1]), p, call, pair)
  {
  }

  lemma KeepsThePair(x: S.World, p: nat, call: S.Call, pair: S.Pair)
    ensures var v := x.(rotated := x.rotated[S.OverlapOf(call) := pair]);
      && S.Execute(x, p, S.Keeping(call, pair, true)) == S.Continue(v, p, S.Renewing(call, pair))
      && S.Execute(x, p, S.Keeping(call, pair, false)) == S.Answer(v, p, call, pair)
  {
  }

  // And those that delete.
  lemma Removes(x: S.World, p: nat, call: S.Call, logout: bool)
    ensures S.Execute(x, p, S.Revoking(call, logout)) ==
      S.Continue(x.(rows := x.rows - {call.sid}, deleted := x.deleted + {call.sid}), p, S.Evicting(call, logout))
    ensures var v := x.(sessions := x.sessions - {S.SlotOf(call)});
      S.Execute(x, p, S.Evicting(call, logout)) == if logout then S.Continue(v, p, S.Forgetting(call)) else S.Stop(v, p)
    ensures S.Execute(x, p, S.Forgetting(call)) == S.Stop(x.(rotated := x.rotated - {S.OverlapOf(call)}), p)
  {
  }

  lemma LosesAndLooks(x: S.World, p: nat, call: S.Call, warm: bool)
    ensures !(call.sid in x.rows && x.rows[call.sid] == call.gen) ==>
      S.Execute(x, p, S.Swapping(call, warm)) == S.Continue(x, p, S.Vacating(call))
    ensures S.Execute(x, p, S.Vacating(call)) ==
      if call.sid !in x.rows then S.Continue(x, p, S.Evicting(call, true)) else S.Continue(x, p, S.Reusing(call))
    ensures S.OverlapOf(call) !in x.rotated ==> S.Execute(x, p, S.Reusing(call)) == S.Stop(x, p)
  {
  }

  // One more access.
  lemma Go(w: S.World, p: nat, n: nat, x: S.World, a: S.Proc)
    requires Drive(w, p, n) == S.Continue(x, p, a)
    ensures Drive(w, p, n + 1) == S.Execute(x, p, a)
  {
    hide S.Execute;
    DriveOnce(w, p, n);
    ExecuteIgnoresItself(x, p, a);
  }

  lemma Starts(w: S.World, p: nat, a: S.Proc)
    requires p in w.procs && w.procs[p] == a
    ensures Drive(w, p, 0) == S.Continue(w, p, a)
  {
    assert w.procs[p := a] == w.procs;
  }

  // ---------------------------------------------------------------- whole calls

  // A refresh that is answered from the overlap.
  lemma OverlapAnswers(w: S.World, p: nat, call: S.Call)
    requires p in w.procs && w.procs[p] == S.Looking(call) && S.OverlapOf(call) in w.rotated
    ensures Drive(w, p, 1) == S.Answer(w, p, call, w.rotated[S.OverlapOf(call)])
  {
    Starts(w, p, S.Looking(call));
    Go(w, p, 0, w, S.Looking(call));
  }

  lemma LooksUp(w: S.World, p: nat, call: S.Call)
    requires p in w.procs && w.procs[p] == S.Looking(call) && S.OverlapOf(call) !in w.rotated
    ensures Drive(w, p, 2) ==
      if S.SlotOf(call) !in w.sessions then S.Continue(w, p, S.Loading(call))
      else if w.sessions[S.SlotOf(call)] != call.gen then S.Continue(w, p, S.Revoking(call, false))
      else S.Continue(w, p, S.Swapping(call, true))
  {
    Starts(w, p, S.Looking(call));
    Go(w, p, 0, w, S.Looking(call));
    Go(w, p, 1, w, S.Checking(call));
  }

  // The world after a rotation that came to its end.
  function RotatedTo(w: S.World, p: nat, call: S.Call): S.World {
    var pair := PairOf(w, call);
    w.(rows := w.rows[call.sid := call.gen + 1], wins := w.wins + {(call.sid, call.gen)},
       mints := w.mints + [pair], rotated := w.rotated[(call.server, call.sid, call.gen) := pair],
       sessions := w.sessions[(call.server, call.sid) := call.gen + 1],
       answers := w.answers + {(call.sid, call.gen, pair)}, procs := w.procs - {p})
  }

  lemma WarmSwaps(w: S.World, p: nat, n: nat, call: S.Call)
    requires Drive(w, p, n) == S.Continue(w, p, S.Swapping(call, true))
    requires call.sid in w.rows && w.rows[call.sid] == call.gen
    ensures Drive(w, p, n + 1) == S.Continue(Swapped(w, call), p, S.Minting(call, true))
    ensures Drive(w, p, n + 4) == RotatedTo(w, p, call)
  {
    hide S.Execute, Drive;
    var one, pair := Swapped(w, call), PairOf(w, call);
    var two := one.(mints := w.mints + [pair]);
    var three := two.(rotated := w.rotated[S.OverlapOf(call) := pair]);
    Writes(w, p, call, pair, true);
    Go(w, p, n, w, S.Swapping(call, true));
    Writes(one, p, call, pair, true);
    Go(w, p, n + 1, one, S.Minting(call, true));
    KeepsThePair(two, p, call, pair);
    Go(w, p, n + 2, two, S.Keeping(call, pair, true));
    Writes(three, p, call, pair, true);
    Go(w, p, n + 3, three, S.Renewing(call, pair));
  }

  lemma ColdSwaps(w: S.World, p: nat, n: nat, call: S.Call)
    requires Drive(w, p, n) == S.Continue(w, p, S.Swapping(call, false))
    requires call.sid in w.rows && w.rows[call.sid] == call.gen
    ensures Drive(w, p, n + 2) ==
      S.Continue(Swapped(w, call).(sessions := w.sessions[S.SlotOf(call) := call.gen + 1]), p, S.Minting(call, false))
    ensures Drive(w, p, n + 4) == RotatedTo(w, p, call)
  {
    hide S.Execute, Drive;
    var one, pair := Swapped(w, call), PairOf(w, call);
    var two := one.(sessions := w.sessions[S.SlotOf(call) := call.gen + 1]);
    var three := two.(mints := w.mints + [pair]);
    Writes(w, p, call, pair, false);
    Go(w, p, n, w, S.Swapping(call, false));
    Writes(one, p, call, pair, false);
    Go(w, p, n + 1, one, S.Warming(call));
    Writes(two, p, call, pair, false);
    Go(w, p, n + 2, two, S.Minting(call, false));
    KeepsThePair(three, p, call, pair);
    Go(w, p, n + 3, three, S.Keeping(call, pair, false));
  }

  // A swap that is lost: the row is gone, and so this process forgets the session,
  // or it is at another generation.
  lemma LosesTheSwap(w: S.World, p: nat, n: nat, call: S.Call, warm: bool)
    requires Drive(w, p, n) == S.Continue(w, p, S.Swapping(call, warm))
    requires call.sid in w.rows ==> w.rows[call.sid] != call.gen
    requires S.OverlapOf(call) !in w.rotated
    ensures Drive(w, p, n + 1) == S.Continue(w, p, S.Vacating(call))
    ensures call.sid !in w.rows ==>
      Drive(w, p, n + 4) == w.(sessions := w.sessions - {S.SlotOf(call)}, rotated := w.rotated - {S.OverlapOf(call)}, procs := w.procs - {p})
    ensures call.sid in w.rows ==> Drive(w, p, n + 3) == S.Stop(w, p)
  {
    hide S.Execute, Drive;
    LosesAndLooks(w, p, call, warm);
    Go(w, p, n, w, S.Swapping(call, warm));
    Go(w, p, n + 1, w, S.Vacating(call));
    if call.sid !in w.rows {
      Removes(w, p, call, true);
      Removes(w.(sessions := w.sessions - {S.SlotOf(call)}), p, call, true);
      Go(w, p, n + 2, w, S.Evicting(call, true));
      Go(w, p, n + 3, w.(sessions := w.sessions - {S.SlotOf(call)}), S.Forgetting(call));
    } else {
      Go(w, p, n + 2, w, S.Reusing(call));
    }
  }

  // A replay or a sign-out whose delete works.
  lemma Revokes(w: S.World, p: nat, n: nat, call: S.Call, logout: bool)
    requires Drive(w, p, n) == S.Continue(w, p, S.Revoking(call, logout))
    ensures var gone := w.(rows := w.rows - {call.sid}, deleted := w.deleted + {call.sid},
                           sessions := w.sessions - {S.SlotOf(call)}, procs := w.procs - {p});
      && (!logout ==> Drive(w, p, n + 2) == gone)
      && (logout ==> Drive(w, p, n + 3) == gone.(rotated := w.rotated - {S.OverlapOf(call)}))
  {
    hide S.Execute, Drive;
    var one := w.(rows := w.rows - {call.sid}, deleted := w.deleted + {call.sid});
    Removes(w, p, call, logout);
    Go(w, p, n, w, S.Revoking(call, logout));
    Removes(one, p, call, logout);
    Go(w, p, n + 1, one, S.Evicting(call, logout));
    if logout {
      Removes(one.(sessions := w.sessions - {S.SlotOf(call)}), p, call, logout);
      Go(w, p, n + 2, one.(sessions := w.sessions - {S.SlotOf(call)}), S.Forgetting(call));
    }
  }

  // The store is asked: its row decides.
  lemma Loads(w: S.World, p: nat, n: nat, call: S.Call)
    requires Drive(w, p, n) == S.Continue(w, p, S.Loading(call)) && call.sid in w.rows
    ensures w.rows[call.sid] != call.gen ==> Drive(w, p, n + 1) == S.Continue(w, p, S.Revoking(call, false))
    ensures w.rows[call.sid] == call.gen ==>
      && Drive(w, p, n + 1) == S.Continue(w, p, S.Gating(call))
      && Drive(w, p, n + 2) == S.Continue(w, p, S.Swapping(call, false))
  {
    Go(w, p, n, w, S.Loading(call));
    if w.rows[call.sid] == call.gen {
      Go(w, p, n + 1, w, S.Gating(call));
    }
  }

  // ---------------------------------------------------------------- refinement

  // How far a process gets, and whether the cache then forgets the session's entry
  // and the replacement of the token.
  datatype Way = Way(n: nat, forgets: bool, drops: bool)

  // The process stops where it is, and the cache forgets.
  function Settled(w: S.World, p: nat, call: S.Call, way: Way): S.World {
    w.(procs := w.procs - {p},
       sessions := if way.forgets then w.sessions - {S.SlotOf(call)} else w.sessions,
       rotated := if way.drops then w.rotated - {S.OverlapOf(call)} else w.rotated)
  }

  // Nothing but this session on this process has changed.
  ghost predicate OtherwiseSame(w: S.World, v: S.World, p: nat, q: nat, sid: Sid) {
    && v.rows - {sid} == w.rows - {sid} && v.procs == w.procs - {p} && w.mints <= v.mints
    && v.sessions - {(q, sid)} == w.sessions - {(q, sid)}
    && forall o: S.Overlap :: !(o.0 == q && o.1 == sid) ==> (o in v.rotated <==> o in w.rotated) && (o in v.rotated ==> v.rotated[o] == w.rotated[o])
  }

  // What the client was told is what the run answered.
  ghost predicate SameAnswer(w: S.World, v: S.World, token: Token, r: Answer) {
    match r
    case Granted(pair) => exists given: S.Pair :: given.gen == pair.gen && v.answers == w.answers + {(token.sid, token.gen, given)}
    case Refused(_) => v.answers == w.answers
  }

  ghost predicate Refines(w: S.World, v: S.World, p: nat, q: nat, now: int, token: Token, b: Auth, r: Answer) {
    && Mirrors(b, now, v, q, token.uid, token.sid)
    && OtherwiseSame(w, v, p, q, token.sid)
    && SameAnswer(w, v, token, r)
  }

  function Left(w: S.World, p: nat, call: S.Call, way: Way): S.World {
    Settled(Drive(w, p, way.n), p, call, way)
  }

  // Nothing of the session changes: the process dies.
  lemma Unchanged(a: Auth, b: Auth, now: int, w: S.World, p: nat, q: nat, token: Token, n: nat, x: S.Proc, error: Error)
    requires Mirrors(a, now, w, q, token.uid, token.sid) && Drive(w, p, n) == S.Continue(w, p, x)
    requires b.db.sessions == a.db.sessions && b.cache == a.cache
    ensures Refines(w, Left(w, p, CallOf(q, token), Way(n, false, false)), p, q, now, token, b, Refused(error))
  {
    assert w.procs[p := x] - {p} == w.procs - {p};
  }

  // A swap that works, and the pair minted or not.
  lemma SwapIsAccesses(a: Auth, token: Token, globalVer: nat, now: int, mints: bool, warm: bool, w: S.World, p: nat, q: nat, n: nat)
      returns (way: Way)
    requires Mirrors(a, now, w, q, token.uid, token.sid) && RotatedOf(a.cache, token.sid, token.gen, now).None?
    requires Drive(w, p, n) == S.Continue(w, p, S.Swapping(CallOf(q, token), warm)) && warm == StateOf(a.cache, token.sid, now).Some?
    requires a.db.answers >= 1 && token.sid in w.rows && w.rows[token.sid] == token.gen
    ensures var (b, r) := Rotated(a, token, globalVer, now, mints, warm);
      Refines(w, Left(w, p, CallOf(q, token), way), p, q, now, token, b, r)
  {
    hide Drive;
    var call := CallOf(q, token);
    way := Way(if mints then n + 4 else if warm then n + 1 else n + 2, false, false);
    if warm {
      WarmSwaps(w, p, n, call);
    } else {
      ColdSwaps(w, p, n, call);
    }
    if mints {
      MintedIsMirrored(a, token, globalVer, now, warm, w, p, q);
    } else {
      UnmintedIsMirrored(a, token, globalVer, now, warm, w, p, q);
    }
  }

  lemma MintedIsMirrored(a: Auth, token: Token, globalVer: nat, now: int, warm: bool, w: S.World, p: nat, q: nat)
    requires Mirrors(a, now, w, q, token.uid, token.sid)
    requires a.db.answers >= 1 && token.sid in w.rows && w.rows[token.sid] == token.gen
    ensures var (b, r) := Rotated(a, token, globalVer, now, true, warm);
      Refines(w, Settled(RotatedTo(w, p, CallOf(q, token)), p, CallOf(q, token), Way(0, false, false)), p, q, now, token, b, r)
  {
    var v := Settled(RotatedTo(w, p, CallOf(q, token)), p, CallOf(q, token), Way(0, false, false));
    assert v.procs == w.procs - {p};
    assert v.answers == w.answers + {(token.sid, token.gen, PairOf(w, CallOf(q, token)))};
  }

  lemma UnmintedIsMirrored(a: Auth, token: Token, globalVer: nat, now: int, warm: bool, w: S.World, p: nat, q: nat)
    requires Mirrors(a, now, w, q, token.uid, token.sid) && warm == StateOf(a.cache, token.sid, now).Some?
    requires a.db.answers >= 1 && token.sid in w.rows && w.rows[token.sid] == token.gen
    ensures var (b, r) := Rotated(a, token, globalVer, now, false, warm);
      var call, x := CallOf(q, token), S.Minting(CallOf(q, token), warm);
      var v := if warm then Swapped(w, call) else Swapped(w, call).(sessions := w.sessions[(q, token.sid) := token.gen + 1]);
      Refines(w, Settled(S.Continue(v, p, x), p, CallOf(q, token), Way(0, false, false)), p, q, now, token, b, r)
  {
    assert w.procs[p := S.Minting(CallOf(q, token), warm)] - {p} == w.procs - {p};
  }

  // A swap that is lost on this process.
  lemma LostSwapIsAccesses(a: Auth, token: Token, globalVer: nat, now: int, mints: bool, w: S.World, p: nat, q: nat, n: nat)
      returns (way: Way)
    requires Mirrors(a, now, w, q, token.uid, token.sid) && RotatedOf(a.cache, token.sid, token.gen, now).None?
    requires Drive(w, p, n) == S.Continue(w, p, S.Swapping(CallOf(q, token), true))
    requires a.db.answers >= 1 && (token.sid in w.rows ==> w.rows[token.sid] != token.gen)
    ensures var (b, r) := Rotated(a, token, globalVer, now, mints, true);
      Refines(w, Left(w, p, CallOf(q, token), way), p, q, now, token, b, r)
  {
    hide Drive;
    var call := CallOf(q, token);
    LosesTheSwap(w, p, n, call, true);
    if token.sid !in w.rows && a.db.answers >= 2 {
      way := Way(n + 4, false, false);
      EvictedIsMirrored(a, token, now, w, p, q);
    } else {
      way := Way(n + 1, false, false);
      hide Refines;
      Unchanged(a, Rotated(a, token, globalVer, now, mints, true).0, now, w, p, q, token, n + 1, S.Vacating(call), ConcurrentRotation);
    }
  }

  lemma EvictedIsMirrored(a: Auth, token: Token, now: int, w: S.World, p: nat, q: nat)
    requires Mirrors(a, now, w, q, token.uid, token.sid)
    ensures var call := CallOf(q, token);
      var v := w.(sessions := w.sessions - {S.SlotOf(call)}, rotated := w.rotated - {S.OverlapOf(call)}, procs := w.procs - {p});
      forall b: Auth, error :: b.db.sessions == a.db.sessions && b.cache == Evict(a.cache, token.sid, token.gen) ==>
        Refines(w, Settled(v, p, CallOf(q, token), Way(0, false, false)), p, q, now, token, b, Refused(error))
  {
  }

  lemma TheftForgets(a: Auth, token: Token, now: int)
    ensures var b := TheftHandled(a, token, now);
      && b.cache.states == a.cache.states - {token.sid} && b.cache.rotated == a.cache.rotated
      && (b.db.sessions == a.db.sessions || b.db.sessions == a.db.sessions - {(token.uid, token.sid)})
  {
  }

  // A session this process has forgotten, with or without its row.
  lemma ForgottenIsMirrored(a: Auth, b: Auth, token: Token, now: int, w: S.World, v: S.World, p: nat, q: nat, error: Error)
    requires Mirrors(a, now, w, q, token.uid, token.sid)
    requires b.cache.states == a.cache.states - {token.sid} && b.cache.rotated == a.cache.rotated
    requires v.sessions == w.sessions - {(q, token.sid)} && v.rotated == w.rotated && v.procs == w.procs - {p}
    requires v.mints == w.mints && v.answers == w.answers
    requires || (v.rows == w.rows && b.db.sessions == a.db.sessions)
             || (v.rows == w.rows - {token.sid} && b.db.sessions == a.db.sessions - {(token.uid, token.sid)})
    ensures Refines(w, v, p, q, now, token, b, Refused(error))
  {
  }

  // The theft response, whether its delete works or not.
  lemma TheftIsAccesses(a: Auth, token: Token, now: int, w: S.World, p: nat, q: nat, n: nat) returns (way: Way)
    requires Mirrors(a, now, w, q, token.uid, token.sid)
    requires Drive(w, p, n) == S.Continue(w, p, S.Revoking(CallOf(q, token), false))
    ensures Refines(w, Left(w, p, CallOf(q, token), way), p, q, now, token, TheftHandled(a, token, now), Refused(ReplayDetected))
  {
    hide Drive, TheftHandled, Mirrors, Refines;
    var b := TheftHandled(a, token, now);
    var call := CallOf(q, token);
    TheftForgets(a, token, now);
    if b.db.sessions == a.db.sessions {
      way := Way(n, true, false);
      assert w.procs[p := S.Revoking(call, false)] - {p} == w.procs - {p};
    } else {
      Revokes(w, p, n, call, false);
      way := Way(n + 2, false, false);
      assert w.procs - {p} - {p} == w.procs - {p};
    }
    ForgottenIsMirrored(a, b, token, now, w, Left(w, p, CallOf(q, token), way), p, q, ReplayDetected);
  }

  // A refresh on a process that remembers the session.
  lemma WarmRefreshIsAccesses(a: Auth, token: Token, now: int, mints: bool, w: S.World, p: nat, q: nat) returns (way: Way)
    requires Mirrors(a, now, w, q, token.uid, token.sid) && p in w.procs && w.procs[p] == S.Looking(CallOf(q, token))
    requires RotatedOf(a.cache, token.sid, token.gen, now).None? && StateOf(a.cache, token.sid, now).Some?
    ensures var (b, r) := Refreshed(a, token, now, mints);
      Refines(w, Left(w, p, CallOf(q, token), way), p, q, now, token, b, r)
  {
    hide Drive, TheftHandled, Rotated, ColdRefreshed, Refines;
    var call, entry := CallOf(q, token), StateOf(a.cache, token.sid, now).value;
    var (b, r) := Refreshed(a, token, now, mints);
    LooksUp(w, p, call);
    if token.gen != entry.gen {
      way := TheftIsAccesses(a, token, now, w, p, q, 2);
    } else if token.globalVer < entry.minGlobalVer || a.db.answers == 0 {
      way := Way(2, false, false);
      SwapUnanswered(a, token, entry.minGlobalVer, now, mints, true);
      Unchanged(a, b, now, w, p, q, token, 2, S.Swapping(call, true), r.error);
    } else if token.sid in w.rows && w.rows[token.sid] == token.gen {
      way := SwapIsAccesses(a, token, entry.minGlobalVer, now, mints, true, w, p, q, 2);
    } else {
      way := LostSwapIsAccesses(a, token, entry.minGlobalVer, now, mints, w, p, q, 2);
    }
  }

  lemma SwapUnanswered(a: Auth, token: Token, globalVer: nat, now: int, mints: bool, warm: bool)
    ensures a.db.answers == 0 ==> Rotated(a, token, globalVer, now, mints, warm) == (a, Refused(StoreFailed))
  {
  }

  // And on one that does not.
  lemma ColdRefreshIsAccesses(a: Auth, token: Token, now: int, mints: bool, w: S.World, p: nat, q: nat) returns (way: Way)
    requires Mirrors(a, now, w, q, token.uid, token.sid) && p in w.procs && w.procs[p] == S.Looking(CallOf(q, token))
    requires RotatedOf(a.cache, token.sid, token.gen, now).None? && StateOf(a.cache, token.sid, now).None?
    ensures var (b, r) := Refreshed(a, token, now, mints);
      Refines(w, Left(w, p, CallOf(q, token), way), p, q, now, token, b, r)
  {
    hide Drive, TheftHandled, Rotated, Refines;
    var call := CallOf(q, token);
    var (b, r) := Refreshed(a, token, now, mints);
    LooksUp(w, p, call);
    if a.db.answers == 0 || token.sid !in w.rows {
      way := Way(2, false, false);
      Unchanged(a, b, now, w, p, q, token, 2, S.Loading(call), SessionNotFound);
    } else {
      Loads(w, p, 2, call);
      var loaded, gated := a.(db := Asked(a.db, 1)), a.(db := Asked(a.db, 2));
      if token.gen != w.rows[token.sid] {
        OnlyAsked(a, 1, now, w, q, token);
        way := TheftIsAccesses(loaded, token, now, w, p, q, 3);
      } else if a.db.answers == 1 || token.globalVer < GlobalVerOf(a.db, token.uid) || a.db.answers == 2 {
        way := Way(3, false, false);
        SwapUnanswered(gated, token, GlobalVerOf(a.db, token.uid), now, mints, false);
        Unchanged(a, b, now, w, p, q, token, 3, S.Gating(call), r.error);
      } else {
        OnlyAsked(a, 2, now, w, q, token);
        way := SwapIsAccesses(gated, token, GlobalVerOf(a.db, token.uid), now, mints, false, w, p, q, 4);
      }
    }
  }

  lemma OnlyAsked(a: Auth, n: nat, now: int, w: S.World, q: nat, token: Token)
    requires Mirrors(a, now, w, q, token.uid, token.sid)
    ensures Mirrors(a.(db := Asked(a.db, n)), now, w, q, token.uid, token.sid)
  {
  }

  // A refresh from start to end, whatever fails inside it.
  lemma RefreshIsAccesses(a: Auth, token: Token, now: int, mints: bool, w: S.World, p: nat, q: nat) returns (way: Way)
    requires Mirrors(a, now, w, q, token.uid, token.sid) && p in w.procs && w.procs[p] == S.Looking(CallOf(q, token))
    ensures var (b, r) := Refreshed(a, token, now, mints);
      Refines(w, Left(w, p, CallOf(q, token), way), p, q, now, token, b, r)
  {
    if RotatedOf(a.cache, token.sid, token.gen, now).Some? {
      way := Way(1, false, false);
      OverlapAnswers(w, p, CallOf(q, token));
      OverlapIsMirrored(a, token, now, w, p, q);
    } else if StateOf(a.cache, token.sid, now).Some? {
      way := WarmRefreshIsAccesses(a, token, now, mints, w, p, q);
    } else {
      way := ColdRefreshIsAccesses(a, token, now, mints, w, p, q);
    }
  }

  lemma OverlapIsMirrored(a: Auth, token: Token, now: int, w: S.World, p: nat, q: nat)
    requires Mirrors(a, now, w, q, token.uid, token.sid) && RotatedOf(a.cache, token.sid, token.gen, now).Some?
    ensures var call := CallOf(q, token);
      && S.OverlapOf(call) in w.rotated
      && Refines(w, Settled(S.Answer(w, p, call, w.rotated[S.OverlapOf(call)]), p, CallOf(q, token), Way(0, false, false)), p, q, now, token, a,
                 Granted(RotatedOf(a.cache, token.sid, token.gen, now).value))
  {
    assert S.OverlapOf(CallOf(q, token)) == (q, token.sid, token.gen);
    assert w.procs - {p} - {p} == w.procs - {p};
  }

  // ---------------------------------------------------------------- other calls

  // A session whose entry and replacement this process has dropped.
  lemma DroppedIsMirrored(a: Auth, b: Auth, token: Token, now: int, w: S.World, v: S.World, p: nat, q: nat)
    requires Mirrors(a, now, w, q, token.uid, token.sid) && b.cache == Evict(a.cache, token.sid, token.gen)
    requires v.sessions == w.sessions - {(q, token.sid)} && v.rotated == w.rotated - {(q, token.sid, token.gen)}
    requires v.procs == w.procs - {p} && v.mints == w.mints
    requires || (v.rows == w.rows && b.db.sessions == a.db.sessions)
             || (v.rows == w.rows - {token.sid} && b.db.sessions == a.db.sessions - {(token.uid, token.sid)})
    ensures Mirrors(b, now, v, q, token.uid, token.sid) && OtherwiseSame(w, v, p, q, token.sid)
  {
  }

  // A sign-out; when the delete fails, only this process forgets the session.
  lemma LogoutIsAccesses(a: Auth, token: Token, now: int, w: S.World, p: nat, q: nat) returns (way: Way)
    requires Mirrors(a, now, w, q, token.uid, token.sid) && p in w.procs && w.procs[p] == S.Revoking(CallOf(q, token), true)
    ensures var v := Left(w, p, CallOf(q, token), way);
      && Mirrors(LoggedOut(a, token), now, v, q, token.uid, token.sid) && OtherwiseSame(w, v, p, q, token.sid)
      && v.mints == w.mints && v.answers == w.answers
  {
    hide Drive, Mirrors, OtherwiseSame;
    var call := CallOf(q, token);
    Starts(w, p, S.Revoking(call, true));
    if a.db.answers == 0 {
      way := Way(0, true, true);
      assert w.procs[p := S.Revoking(call, true)] - {p} == w.procs - {p};
    } else {
      Revokes(w, p, 0, call, true);
      way := Way(3, false, false);
      assert w.procs - {p} - {p} == w.procs - {p};
    }
    DroppedIsMirrored(a, LoggedOut(a, token), token, now, w, Left(w, p, call, way), p, q);
  }

  // The accesses of a validation.
  lemma Looks(x: S.World, p: nat, call: S.Call)
    ensures S.Execute(x, p, S.Validating(call)) ==
      if S.SlotOf(call) in x.sessions then S.Stop(x, p) else S.Continue(x, p, S.Reading(call))
    ensures S.Execute(x, p, S.Reading(call)) ==
      if call.sid in x.rows && x.rows[call.sid] == call.gen then S.Continue(x, p, S.Admitting(call)) else S.Stop(x, p)
    ensures S.Execute(x, p, S.Admitting(call)) == S.Stop(x.(sessions := x.sessions[S.SlotOf(call) := call.gen]), p)
  {
  }

  lemma Validates(w: S.World, p: nat, call: S.Call)
    requires p in w.procs && w.procs[p] == S.Validating(call)
    ensures S.SlotOf(call) in w.sessions ==> Drive(w, p, 1) == S.Stop(w, p)
    ensures S.SlotOf(call) !in w.sessions ==>
      && Drive(w, p, 1) == S.Continue(w, p, S.Reading(call))
      && (call.sid in w.rows && w.rows[call.sid] == call.gen ==>
            Drive(w, p, 3) == S.Stop(w.(sessions := w.sessions[S.SlotOf(call) := call.gen]), p))
  {
    hide S.Execute, Drive, S.Continue, S.Stop;
    Looks(w, p, call);
    Starts(w, p, S.Validating(call));
    Go(w, p, 0, w, S.Validating(call));
    if S.SlotOf(call) !in w.sessions {
      Go(w, p, 1, w, S.Reading(call));
      if call.sid in w.rows && w.rows[call.sid] == call.gen {
        Go(w, p, 2, w, S.Admitting(call));
      }
    }
  }

  // A session found good in the store, and remembered.
  lemma AdmittedIsMirrored(a: Auth, token: Token, now: int, w: S.World, v: S.World, p: nat, q: nat)
    requires Mirrors(a, now, w, q, token.uid, token.sid)
    requires StateOf(a.cache, token.sid, now).None? && Validated(a, token, now).1.None?
    requires v == w.(sessions := w.sessions[(q, token.sid) := token.gen], procs := w.procs - {p})
    ensures Mirrors(Validated(a, token, now).0, now, v, q, token.uid, token.sid) && OtherwiseSame(w, v, p, q, token.sid)
  {
  }

  lemma NotAdmitted(a: Auth, token: Token, now: int)
    ensures var (b, r) := Validated(a, token, now);
      && (StateOf(a.cache, token.sid, now).Some? || r.Some? ==> b.db.sessions == a.db.sessions && b.cache == a.cache)
      && (StateOf(a.cache, token.sid, now).None? && r.None? ==>
            (token.uid, token.sid) in a.db.sessions && a.db.sessions[(token.uid, token.sid)].gen == token.gen)
      && (StateOf(a.cache, token.sid, now).Some? && r.None? ==> StateOf(a.cache, token.sid, now).value.gen == token.gen)
  {
  }

  lemma SameIsMirrored(a: Auth, b: Auth, token: Token, now: int, w: S.World, v: S.World, p: nat, q: nat)
    requires Mirrors(a, now, w, q, token.uid, token.sid) && b.db.sessions == a.db.sessions && b.cache == a.cache
    requires v == w.(procs := w.procs - {p})
    ensures Mirrors(b, now, v, q, token.uid, token.sid) && OtherwiseSame(w, v, p, q, token.sid)
  {
  }

  // A validation; accepting from the store leaves the session remembered.
  lemma ValidationIsAccesses(a: Auth, token: Token, now: int, w: S.World, p: nat, q: nat) returns (way: Way)
    requires Mirrors(a, now, w, q, token.uid, token.sid) && p in w.procs && w.procs[p] == S.Validating(CallOf(q, token))
    ensures var (b, r) := Validated(a, token, now);
      var v := Left(w, p, CallOf(q, token), way);
      && Mirrors(b, now, v, q, token.uid, token.sid) && OtherwiseSame(w, v, p, q, token.sid)
      && v.mints == w.mints && v.answers == w.answers && v.rows == w.rows
      && (r.None? ==> (q, token.sid) in v.sessions && v.sessions[(q, token.sid)] == token.gen)
  {
    hide Drive, Validated, OtherwiseSame;
    var call, cold := CallOf(q, token), StateOf(a.cache, token.sid, now).None?;
    var (b, r) := Validated(a, token, now);
    Validates(w, p, call);
    NotAdmitted(a, token, now);
    assert w.procs - {p} - {p} == w.procs - {p};
    assert w.procs[p := S.Reading(call)] - {p} == w.procs - {p};
    way := Way(if cold && r.None? then 3 else 1, false, false);
    if cold && r.None? {
      hide Mirrors;
      AdmittedIsMirrored(a, token, now, w, Left(w, p, call, way), p, q);
    } else {
      SameIsMirrored(a, b, token, now, w, Left(w, p, call, way), p, q);
    }
  }

  // The session after its row was stored, and after its pair was minted.
  function StoredIn(w: S.World, sid: S.Sid): S.World {
    w.(rows := w.rows[sid := 1])
  }

  function GrantedIn(w: S.World, sid: S.Sid): S.World {
    w.(rows := w.rows[sid := 1], mints := w.mints + [S.Pair(sid, 1, |w.mints|)])
  }

  lemma Creates(w: S.World, p: nat, q: nat, sid: S.Sid)
    ensures S.Execute(w, p, S.Storing(q, sid)) == S.Continue(StoredIn(w, sid), p, S.Granting(q, sid))
    ensures S.Execute(StoredIn(w, sid), p, S.Granting(q, sid)) == S.Continue(GrantedIn(w, sid), p, S.Caching(q, sid))
    ensures S.Execute(GrantedIn(w, sid), p, S.Caching(q, sid)) ==
      S.Stop(GrantedIn(w, sid).(sessions := w.sessions[(q, sid) := 1]), p)
  {
  }

  lemma LogsIn(w: S.World, p: nat, q: nat, sid: S.Sid)
    requires p in w.procs && w.procs[p] == S.Storing(q, sid)
    ensures Drive(w, p, 1) == S.Continue(StoredIn(w, sid), p, S.Granting(q, sid))
    ensures Drive(w, p, 3) == S.Stop(GrantedIn(w, sid).(sessions := w.sessions[(q, sid) := 1]), p)
  {
    hide S.Execute, Drive, S.Continue, S.Stop, StoredIn, GrantedIn;
    Creates(w, p, q, sid);
    Starts(w, p, S.Storing(q, sid));
    Go(w, p, 0, w, S.Storing(q, sid));
    Go(w, p, 1, StoredIn(w, sid), S.Granting(q, sid));
    Go(w, p, 2, GrantedIn(w, sid), S.Caching(q, sid));
  }

  // The new session, remembered if its pair was minted.
  lemma LoginIsMirrored(a: Auth, uid: Uid, sid: Sid, now: int, life: int, mints: bool, w: S.World, v: S.World, p: nat, q: nat)
    requires Mirrors(a, now, w, q, uid, sid) && a.db.answers >= 1
    requires v.rows == w.rows[sid := 1] && v.procs == w.procs - {p} && w.mints <= v.mints && v.rotated == w.rotated
    requires v.sessions ==
      if LoggedIn(a, uid, sid, now, life, mints).1.Granted? then w.sessions[(q, sid) := 1] else w.sessions
    ensures Mirrors(LoggedIn(a, uid, sid, now, life, mints).0, now, v, q, uid, sid) && OtherwiseSame(w, v, p, q, sid)
  {
  }

  // A login with a session id drawn for it.
  lemma LoginIsAccesses(a: Auth, uid: Uid, sid: Sid, now: int, life: int, mints: bool, w: S.World, p: nat, q: nat)
      returns (n: nat)
    requires Mirrors(a, now, w, q, uid, sid) && p in w.procs && w.procs[p] == S.Storing(q, sid)
    ensures var (b, r) := LoggedIn(a, uid, sid, now, life, mints);
      var v := S.Stop(Drive(w, p, n), p);
      && Mirrors(b, now, v, q, uid, sid) && OtherwiseSame(w, v, p, q, sid)
      && (r.Granted? ==> v.mints == w.mints + [S.Pair(sid, 1, |w.mints|)])
      && (r.Refused? ==> v.mints == w.mints)
  {
    hide Drive;
    Starts(w, p, S.Storing(q, sid));
    assert w.procs - {p} - {p} == w.procs - {p};
    if a.db.answers == 0 {
      n := 0;
      assert w.procs[p := S.Storing(q, sid)] - {p} == w.procs - {p};
    } else {
      hide Mirrors, OtherwiseSame;
      LogsIn(w, p, q, sid);
      n := if LoggedIn(a, uid, sid, now, life, mints).1.Granted? then 3 else 1;
      assert w.procs[p := S.Granting(q, sid)] - {p} == w.procs - {p};
      LoginIsMirrored(a, uid, sid, now, life, mints, w, S.Stop(Drive(w, p, n), p), p, q);
    }
  }

  // ---------------------------------------------------------------- runs

  lemma RunSnoc(steps: seq<S.Step>, step: S.Step)
    requires S.Run(steps).Some? && S.Enabled(S.Run(steps).value, step)
    ensures S.Run(steps + [step]) == Some(S.Apply(S.Run(steps).value, step))
  {
    assert (steps + [step])[..|steps + [step]| - 1] == steps;
  }

  lemma {:induction false} DriveIsARun(steps: seq<S.Step>, p: nat, n: nat) returns (more: seq<S.Step>)
    requires S.Run(steps).Some?
    ensures S.Run(steps + more) == Some(Drive(S.Run(steps).value, p, n))
  {
    hide S.Execute, S.Run;
    more := [];
    assert steps + more == steps;
    if n > 0 {
      more := DriveIsARun(steps, p, n - 1);
      var v := Drive(S.Run(steps).value, p, n - 1);
      if p in v.procs {
        RunSnoc(steps + more, S.Go(p));
        assert steps + more + [S.Go(p)] == steps + (more + [S.Go(p)]);
        more := more + [S.Go(p)];
      }
    }
  }

  // What a process leaves is a state of the run as well.
  lemma LeavingIsARun(steps: seq<S.Step>, p: nat, call: S.Call, way: Way) returns (more: seq<S.Step>)
    requires S.Run(steps).Some?
    ensures S.Run(steps + more) == Some(Left(S.Run(steps).value, p, call, way))
  {
    hide S.Execute, S.Run, Drive;
    more := DriveIsARun(steps, p, way.n);
    var v := Drive(S.Run(steps).value, p, way.n);
    if p in v.procs {
      RunSnoc(steps + more, S.Die(p));
      assert steps + more + [S.Die(p)] == steps + (more + [S.Die(p)]);
      more := more + [S.Die(p)];
    } else {
      assert v.procs - {p} == v.procs;
    }
    if way.forgets {
      var step := S.ForgetSession(S.SlotOf(call));
      RunSnoc(steps + more, step);
      assert steps + more + [step] == steps + (more + [step]);
      more := more + [step];
    }
    if way.drops {
      var step := S.ForgetRotated(S.OverlapOf(call));
      RunSnoc(steps + more, step);
      assert steps + more + [step] == steps + (more + [step]);
      more := more + [step];
    }
  }

  // In any run of single accesses: a refresh handled as a whole, with any failure
  // of the database or of minting inside, ends as some continuation of the run
  // does, with the same answer. So what SessionRotation proves of every run holds
  // of the calls of the service.
  lemma HandledRefreshIsARun(steps: seq<S.Step>, p: nat, q: nat, a: Auth, token: Token, now: int, mints: bool)
      returns (more: seq<S.Step>)
    requires S.Run(steps).Some? && p !in S.Run(steps).value.procs && S.Issued(S.Run(steps).value.mints, CallOf(q, token))
    requires Mirrors(a, now, S.Run(steps).value, q, token.uid, token.sid)
    ensures S.Run(steps + more).Some?
    ensures var (b, r) := Refreshed(a, token, now, mints);
      Refines(S.Run(steps).value, S.Run(steps + more).value, p, q, now, token, b, r)
  {
    hide S.Run, Refreshed, S.Issued, Drive;
    var w := S.Run(steps).value;
    var begin := S.BeginRefresh(p, CallOf(q, token));
    RunSnoc(steps, begin);
    var w1 := S.Apply(w, begin);
    var way := RefreshIsAccesses(a, token, now, mints, w1, p, q);
    var rest := LeavingIsARun(steps + [begin], p, CallOf(q, token), way);
    more := [begin] + rest;
    assert steps + [begin] + rest == steps + more;
    assert w1.procs - {p} == w.procs - {p};
  }

  lemma HandledLogoutIsARun(steps: seq<S.Step>, p: nat, q: nat, a: Auth, token: Token, now: int) returns (more: seq<S.Step>)
    requires S.Run(steps).Some? && p !in S.Run(steps).value.procs && S.Issued(S.Run(steps).value.mints, CallOf(q, token))
    requires Mirrors(a, now, S.Run(steps).value, q, token.uid, token.sid)
    ensures S.Run(steps + more).Some?
    ensures var w, v := S.Run(steps).value, S.Run(steps + more).value;
      && Mirrors(LoggedOut(a, token), now, v, q, token.uid, token.sid) && OtherwiseSame(w, v, p, q, token.sid)
      && v.mints == w.mints && v.answers == w.answers
  {
    hide S.Run, S.Issued, Drive;
    var w := S.Run(steps).value;
    var begin := S.BeginLogout(p, CallOf(q, token));
    RunSnoc(steps, begin);
    var w1 := S.Apply(w, begin);
    var way := LogoutIsAccesses(a, token, now, w1, p, q);
    var rest := LeavingIsARun(steps + [begin], p, CallOf(q, token), way);
    more := [begin] + rest;
    assert steps + [begin] + rest == steps + more;
    assert w1.procs - {p} == w.procs - {p};
  }

  lemma HandledValidationIsARun(steps: seq<S.Step>, p: nat, q: nat, a: Auth, token: Token, now: int) returns (more: seq<S.Step>)
    requires S.Run(steps).Some? && p !in S.Run(steps).value.procs && S.Issued(S.Run(steps).value.mints, CallOf(q, token))
    requires Mirrors(a, now, S.Run(steps).value, q, token.uid, token.sid)
    ensures S.Run(steps + more).Some?
    ensures var w, v := S.Run(steps).value, S.Run(steps + more).value;
      && Mirrors(Validated(a, token, now).0, now, v, q, token.uid, token.sid) && OtherwiseSame(w, v, p, q, token.sid)
      && v.mints == w.mints && v.answers == w.answers && v.rows == w.rows
  {
    hide S.Run, S.Issued, Drive, Validated;
    var w := S.Run(steps).value;
    var begin := S.BeginValidate(p, CallOf(q, token));
    RunSnoc(steps, begin);
    var w1 := S.Apply(w, begin);
    var way := ValidationIsAccesses(a, token, now, w1, p, q);
    var rest := LeavingIsARun(steps + [begin], p, CallOf(q, token), way);
    more := [begin] + rest;
    assert steps + [begin] + rest == steps + more;
    assert w1.procs - {p} == w.procs - {p};
  }

  lemma HandledLoginIsARun(steps: seq<S.Step>, p: nat, q: nat, a: Auth, uid: Uid, sid: Sid, now: int, life: int, mints: bool)
      returns (more: seq<S.Step>)
    requires S.Run(steps).Some? && p !in S.Run(steps).value.procs && sid !in S.Run(steps).value.used
    requires Mirrors(a, now, S.Run(steps).value, q, uid, sid)
    ensures S.Run(steps + more).Some?
    ensures var (b, r) := LoggedIn(a, uid, sid, now, life, mints);
      var w, v := S.Run(steps).value, S.Run(steps + more).value;
      && Mirrors(b, now, v, q, uid, sid) && OtherwiseSame(w, v, p, q, sid)
      && v.mints == if r.Granted? then w.mints + [S.Pair(sid, 1, |w.mints|)] else w.mints
  {
    hide S.Run, Drive, LoggedIn;
    var w := S.Run(steps).value;
    var begin := S.BeginLogin(p, q, sid);
    RunSnoc(steps, begin);
    var w1 := S.Apply(w, begin);
    var n := LoginIsAccesses(a, uid, sid, now, life, mints, w1, p, q);
    var rest := LeavingIsARun(steps + [begin], p, S.Call(q, sid, 0), Way(n, false, false));
    more := [begin] + rest;
    assert steps + [begin] + rest == steps + more;
    assert w1.procs - {p} == w.procs - {p};
    match LoggedIn(a, uid, sid, now, life, mints).1
    case Granted(_) =>
    case Refused(_) =>
  }
}
