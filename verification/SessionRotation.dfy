// Refresh-token rotation at the granularity of single store and cache accesses:
// any number of server processes, each with its own cache that may forget any
// entry at any time, run refreshes, logins, logouts, validations and theft
// responses that interleave at will and can stop between any two accesses.
// Sources: services/auth/internal/service/auth_service.go,
// services/auth/internal/scyllastore/session_store.go.
module SessionRotation {
  import opened Common

  type Sid = string

  // An access and refresh token of the same generation; `serial` tells apart
  // pairs minted for the same generation.
  datatype Pair = Pair(sid: Sid, gen: nat, serial: nat)

  // A request with a token of generation gen, running on one server.
  datatype Call = Call(server: nat, sid: Sid, gen: nat)

  datatype Proc =
    // RefreshToken
    | Looking(call: Call)                            // rotated-pair cache
    | Checking(call: Call)                           // session cache
    | Loading(call: Call)                            // GetSession
    | Gating(call: Call)                             // GetUserRevocation
    | Swapping(call: Call, warm: bool)               // AtomicBumpGen, from the cache if warm
    | Warming(call: Call)                            // cache the new generation (cold path)
    | Minting(call: Call, warm: bool)
    | Keeping(call: Call, pair: Pair, warm: bool)    // cache the replacement pair
    | Renewing(call: Call, pair: Pair)               // cache the new generation (warm path)
    | Vacating(call: Call)                           // sessionVacated, after a lost swap
    | Reusing(call: Call)                            // rotated-pair cache, after a lost swap
    // Logout and handleTheftDetected
    | Revoking(call: Call, logout: bool)             // DeleteSession
    | Evicting(call: Call, logout: bool)             // session cache
    | Forgetting(call: Call)                         // rotated-pair cache
    // mintSessionTokenPair
    | Storing(server: nat, sid: Sid)
    | Granting(server: nat, sid: Sid)
    | Caching(server: nat, sid: Sid)
    // ValidateToken
    | Validating(call: Call)                         // session cache
    | Reading(call: Call)                            // GetSession
    | Admitting(call: Call)                          // GetUserRevocation, then cache

  type Slot = (nat, Sid)             // one server's cache entry for a session
  type Overlap = (nat, Sid, nat)     // one server's replacement pair for a generation

  datatype World = World(
    rows: map<Sid, nat>,             // user_sessions: the generation of each session
    sessions: map<Slot, nat>,        // SessionKey entries
    rotated: map<Overlap, Pair>,     // RotatedTokenKey entries
    procs: map<nat, Proc>,
    used: set<Sid>,                  // session ids ever drawn
    deleted: set<Sid>,               // sessions ever deleted
    wins: set<(Sid, nat)>,           // compare-and-sets that applied
    mints: seq<Pair>,                // pairs in the order they were minted
    answers: set<(Sid, nat, Pair)>)  // pairs returned for a token

  datatype Step =
    | BeginRefresh(p: nat, call: Call)
    | BeginLogout(p: nat, call: Call)
    | BeginValidate(p: nat, call: Call)
    | BeginLogin(p: nat, server: nat, sid: Sid)
    | Go(p: nat)
    | Die(p: nat)
    | ForgetSession(slot: Slot)
    | ForgetRotated(overlap: Overlap)

  function Init(): World {
    World(map[], map[], map[], map[], {}, {}, {}, [], {})
  }

  // Tokens are signed, so a call can only carry one that was minted.
  ghost predicate Issued(mints: seq<Pair>, call: Call) {
    exists pair :: pair in mints && pair.sid == call.sid && pair.gen == call.gen
  }

  ghost predicate Enabled(w: World, step: Step) {
    match step
    case BeginRefresh(p, call) => p !in w.procs && Issued(w.mints, call)
    case BeginLogout(p, call) => p !in w.procs && Issued(w.mints, call)
    case BeginValidate(p, call) => p !in w.procs && Issued(w.mints, call)
    case BeginLogin(p, _, sid) => p !in w.procs && sid !in w.used
    case Go(p) => p in w.procs
    case Die(p) => p in w.procs
    case ForgetSession(_) => true
    case ForgetRotated(_) => true
  }

  ghost function Apply(w: World, step: Step): World
    requires Enabled(w, step)
  {
    match step
    case BeginRefresh(p, call) => Continue(w, p, Looking(call))
    case BeginLogout(p, call) => Continue(w, p, Revoking(call, true))
    case BeginValidate(p, call) => Continue(w, p, Validating(call))
    case BeginLogin(p, server, sid) => Continue(w.(used := w.used + {sid}), p, Storing(server, sid))
    case Go(p) => Execute(w, p, w.procs[p])
    case Die(p) => Stop(w, p)
    case ForgetSession(slot) => w.(sessions := w.sessions - {slot})
    case ForgetRotated(overlap) => w.(rotated := w.rotated - {overlap})
  }

  function Continue(w: World, p: nat, proc: Proc): World {
    w.(procs := w.procs[p := proc])
  }

  function Stop(w: World, p: nat): World {
    w.(procs := w.procs - {p})
  }

  function SlotOf(call: Call): Slot { (call.server, call.sid) }

  function OverlapOf(call: Call): Overlap { (call.server, call.sid, call.gen) }

  // Return a pair to the client.
  function Answer(w: World, p: nat, call: Call, pair: Pair): World {
    Stop(w.(answers := w.answers + {(call.sid, call.gen, pair)}), p)
  }

  function NextPair(w: World, sid: Sid, gen: nat): Pair {
    Pair(sid, gen, |w.mints|)
  }

  function Execute(w: World, p: nat, proc: Proc): World {
    match proc
    case Looking(call) =>
      if OverlapOf(call) in w.rotated then Answer(w, p, call, w.rotated[OverlapOf(call)])
      else Continue(w, p, Checking(call))
    case Checking(call) =>
      if SlotOf(call) !in w.sessions then Continue(w, p, Loading(call))
      else if w.sessions[SlotOf(call)] != call.gen then Continue(w, p, Revoking(call, false))
      else Continue(w, p, Swapping(call, true))
    case Loading(call) =>
      if call.sid !in w.rows then Stop(w, p)
      else if w.rows[call.sid] != call.gen then Continue(w, p, Revoking(call, false))
      else Continue(w, p, Gating(call))
    case Gating(call) => Continue(w, p, Swapping(call, false))
    case Swapping(call, warm) =>
      if call.sid in w.rows && w.rows[call.sid] == call.gen then
        Continue(w.(rows := w.rows[call.sid := call.gen + 1], wins := w.wins + {(call.sid, call.gen)}),
                 p, if warm then Minting(call, true) else Warming(call))
      else Continue(w, p, Vacating(call))
    case Warming(call) =>
      Continue(w.(sessions := w.sessions[SlotOf(call) := call.gen + 1]), p, Minting(call, false))
    case Minting(call, warm) =>
      var pair := NextPair(w, call.sid, call.gen + 1);
      Continue(w.(mints := w.mints + [pair]), p, Keeping(call, pair, warm))
    case Keeping(call, pair, warm) =>
      var v := w.(rotated := w.rotated[OverlapOf(call) := pair]);
      if warm then Continue(v, p, Renewing(call, pair)) else Answer(v, p, call, pair)
    case Renewing(call, pair) =>
      Answer(w.(sessions := w.sessions[SlotOf(call) := call.gen + 1]), p, call, pair)
    case Vacating(call) =>
      if call.sid !in w.rows then Continue(w, p, Evicting(call, true)) else Continue(w, p, Reusing(call))
    case Reusing(call) =>
      if OverlapOf(call) in w.rotated then Answer(w, p, call, w.rotated[OverlapOf(call)]) else Stop(w, p)
    case Revoking(call, logout) =>
      Continue(w.(rows := w.rows - {call.sid}, deleted := w.deleted + {call.sid}), p, Evicting(call, logout))
    case Evicting(call, logout) =>
      var v := w.(sessions := w.sessions - {SlotOf(call)});
      if logout then Continue(v, p, Forgetting(call)) else Stop(v, p)
    case Forgetting(call) => Stop(w.(rotated := w.rotated - {OverlapOf(call)}), p)
    case Storing(server, sid) => Continue(w.(rows := w.rows[sid := 1]), p, Granting(server, sid))
    case Granting(server, sid) =>
      Continue(w.(mints := w.mints + [NextPair(w, sid, 1)]), p, Caching(server, sid))
    case Caching(server, sid) => Stop(w.(sessions := w.sessions[(server, sid) := 1]), p)
    case Validating(call) =>
      if SlotOf(call) in w.sessions then Stop(w, p) else Continue(w, p, Reading(call))
    case Reading(call) =>
      if call.sid !in w.rows || w.rows[call.sid] != call.gen then Stop(w, p) else Continue(w, p, Admitting(call))
    case Admitting(call) => Stop(w.(sessions := w.sessions[SlotOf(call) := call.gen]), p)
  }

  ghost function Run(steps: seq<Step>): Option<World> {
    if steps == [] then Some(Init())
    else
      match Run(steps[..|steps| - 1])
      case None => None
      case Some(w) =>
        var step := steps[|steps| - 1];
        if Enabled(w, step) then Some(Apply(w, step)) else None
  }

  // ---------------------------------------------------------------- invariant

  // The generation whose token a pair replaces.
  function Replaced(pair: Pair): (Sid, int) {
    (pair.sid, pair.gen - 1)
  }

  // The generation a process is about to mint a replacement for.
  function Owes(proc: Proc): Option<(Sid, int)> {
    match proc
    case Warming(call) => Some((call.sid, call.gen))
    case Minting(call, _) => Some((call.sid, call.gen))
    case Storing(_, sid) => Some((sid, 0))
    case Granting(_, sid) => Some((sid, 0))
    case _ => None
  }

  function CallOf(proc: Proc): Option<Call> {
    match proc
    case Looking(call) => Some(call)
    case Checking(call) => Some(call)
    case Loading(call) => Some(call)
    case Gating(call) => Some(call)
    case Swapping(call, _) => Some(call)
    case Warming(call) => Some(call)
    case Minting(call, _) => Some(call)
    case Keeping(call, _, _) => Some(call)
    case Renewing(call, _) => Some(call)
    case Vacating(call) => Some(call)
    case Reusing(call) => Some(call)
    case Revoking(call, _) => Some(call)
    case Evicting(call, _) => Some(call)
    case Forgetting(call) => Some(call)
    case Validating(call) => Some(call)
    case Reading(call) => Some(call)
    case Admitting(call) => Some(call)
    case _ => None
  }

  // The pair is the one minted for this generation of this session.
  ghost predicate Replaces(mints: seq<Pair>, pair: Pair, sid: Sid, gen: nat) {
    pair in mints && Replaced(pair) == (sid, gen as int)
  }

  ghost predicate Unborn(w: World, sid: Sid) {
    && sid !in w.rows && sid !in w.deleted
    && (forall won :: won in w.wins ==> won.0 != sid)
    && (forall pair :: pair in w.mints ==> pair.sid != sid)
  }

  ghost predicate ProcOk(w: World, proc: Proc) {
    && (CallOf(proc).Some? ==> Issued(w.mints, CallOf(proc).value))
    && (proc.Keeping? ==> Replaces(w.mints, proc.pair, proc.call.sid, proc.call.gen))
    && (proc.Renewing? ==> Replaces(w.mints, proc.pair, proc.call.sid, proc.call.gen))
    && (proc.Warming? || proc.Minting? ==> (proc.call.sid, proc.call.gen) in w.wins)
    && (proc.Storing? || proc.Granting? ==> proc.sid in w.used)
    && (proc.Storing? ==> Unborn(w, proc.sid))
  }

  // Nobody else is minting, or has minted, what this process owes.
  ghost predicate OwedOnce(w: World, p: nat)
    requires p in w.procs
  {
    Owes(w.procs[p]).Some? ==>
      && (forall pair :: pair in w.mints ==> Replaced(pair) != Owes(w.procs[p]).value)
      && (forall q :: q in w.procs && q != p ==> Owes(w.procs[q]) != Owes(w.procs[p]))
  }

  ghost predicate RowOk(w: World, sid: Sid)
    requires sid in w.rows
  {
    sid in w.used && sid !in w.deleted && w.rows[sid] >= 1
  }

  // A generation that was rotated away is never current again.
  ghost predicate WinOk(w: World, won: (Sid, nat)) {
    won.0 in w.used && won.1 >= 1 && (won.0 in w.rows ==> w.rows[won.0] > won.1)
  }

  ghost predicate MintOk(w: World, pair: Pair) {
    pair.sid in w.used && pair.gen >= 1 && (pair.gen > 1 ==> (pair.sid, pair.gen - 1) in w.wins)
  }

  ghost predicate MintedOnce(mints: seq<Pair>) {
    forall i, j :: 0 <= i < j < |mints| ==> Replaced(mints[i]) != Replaced(mints[j])
  }

  ghost predicate Inv(w: World) {
    && (forall sid :: sid in w.rows ==> RowOk(w, sid))
    && (forall won :: won in w.wins ==> WinOk(w, won))
    && (forall pair :: pair in w.mints ==> MintOk(w, pair))
    && MintedOnce(w.mints)
    && w.deleted <= w.used
    && (forall o :: o in w.rotated ==> Replaces(w.mints, w.rotated[o], o.1, o.2))
    && (forall a :: a in w.answers ==> Replaces(w.mints, a.2, a.0, a.1))
    && (forall p :: p in w.procs ==> ProcOk(w, w.procs[p]))
    && (forall p :: p in w.procs ==> OwedOnce(w, p))
  }

  // ---------------------------------------------------------------- preservation

  ghost predicate OnlyMoves(w: World, v: World, p: nat) {
    forall q :: q in v.procs && q != p ==> q in w.procs && v.procs[q] == w.procs[q]
  }

  // Accesses that leave the store and the mints alone.
  ghost predicate Quiet(w: World, v: World) {
    && v.rows == w.rows && v.used == w.used && v.deleted == w.deleted && v.wins == w.wins && v.mints == w.mints
  }

  lemma QuietStep(w: World, v: World, p: nat)
    requires Inv(w) && Quiet(w, v) && OnlyMoves(w, v, p)
    requires p in v.procs ==> ProcOk(v, v.procs[p])
    requires p in v.procs && Owes(v.procs[p]).Some? ==> p in w.procs && Owes(v.procs[p]) == Owes(w.procs[p])
    requires forall o :: o in v.rotated ==> Replaces(w.mints, v.rotated[o], o.1, o.2)
    requires forall a :: a in v.answers ==> Replaces(w.mints, a.2, a.0, a.1)
    ensures Inv(v)
  {
    hide Issued, Owes, CallOf, Replaced, Replaces;
    forall q | q in v.procs ensures ProcOk(v, v.procs[q]) {
      if q != p {
        assert ProcOk(w, w.procs[q]);
      }
    }
    forall q | q in v.procs ensures OwedOnce(v, q) {
      if q in w.procs {
        assert OwedOnce(w, q);
      }
      if p in w.procs {
        assert OwedOnce(w, p);
      }
    }
    forall won | won in v.wins ensures WinOk(v, won) {
      assert WinOk(w, won);
    }
    forall pair | pair in v.mints ensures MintOk(v, pair) {
      assert MintOk(w, pair);
    }
    forall sid | sid in v.rows ensures RowOk(v, sid) {
      assert RowOk(w, sid);
    }
  }

  lemma IssuedStays(mints: seq<Pair>, more: seq<Pair>, call: Call)
    requires Issued(mints, call) && mints <= more
    ensures Issued(more, call)
  {
    var pair :| pair in mints && pair.sid == call.sid && pair.gen == call.gen;
    assert pair in more;
  }

  lemma ReplacesStays(mints: seq<Pair>, more: seq<Pair>, pair: Pair, sid: Sid, gen: nat)
    requires Replaces(mints, pair, sid, gen) && mints <= more
    ensures Replaces(more, pair, sid, gen)
  {
  }

  lemma ProcStaysOk(w: World, v: World, proc: Proc)
    requires ProcOk(w, proc) && w.mints <= v.mints && w.wins <= v.wins && w.used <= v.used
    requires proc.Storing? ==> Unborn(v, proc.sid)
    ensures ProcOk(v, proc)
  {
    hide Issued, Replaces, Unborn;
    if CallOf(proc).Some? {
      IssuedStays(w.mints, v.mints, CallOf(proc).value);
    }
    if proc.Keeping? || proc.Renewing? {
      ReplacesStays(w.mints, v.mints, proc.pair, proc.call.sid, proc.call.gen);
    }
  }

  // What the invariant says of a process.
  lemma ProcessIsOk(w: World, p: nat)
    requires Inv(w) && p in w.procs
    ensures ProcOk(w, w.procs[p]) && OwedOnce(w, p)
  {
  }

  lemma IssuedIsUsed(w: World, call: Call)
    requires Inv(w) && Issued(w.mints, call)
    ensures call.sid in w.used && call.gen >= 1
    ensures !Unborn(w, call.sid)
  {
    var pair :| pair in w.mints && pair.sid == call.sid && pair.gen == call.gen;
    assert MintOk(w, pair);
  }

  // Whatever is owed was won, or is the first pair of a session being created.
  lemma OwedWasWon(w: World, p: nat)
    requires Inv(w) && p in w.procs && Owes(w.procs[p]).Some?
    ensures var owed := Owes(w.procs[p]).value;
      owed.0 in w.used && (owed.1 == 0 || (owed.1 >= 1 && (owed.0, owed.1 as nat) in w.wins))
  {
    hide Issued, Unborn;
    ProcessIsOk(w, p);
    var proc := w.procs[p];
    if proc.Warming? || proc.Minting? {
      assert WinOk(w, (proc.call.sid, proc.call.gen));
    }
  }

  // The current generation was not rotated away yet: nobody owes or has minted
  // its replacement.
  lemma CurrentIsUnowed(w: World, sid: Sid)
    requires Inv(w) && sid in w.rows
    ensures w.rows[sid] >= 1 && (sid, w.rows[sid]) !in w.wins
    ensures forall pair :: pair in w.mints ==> Replaced(pair) != (sid, w.rows[sid])
    ensures forall q :: q in w.procs ==> Owes(w.procs[q]) != Some((sid, w.rows[sid] as int))
  {
    hide ProcOk, OwedOnce, Owes;
    assert RowOk(w, sid);
    var g := w.rows[sid];
    forall won | won in w.wins ensures won != (sid, g) {
      assert WinOk(w, won);
    }
    forall pair | pair in w.mints ensures Replaced(pair) != (sid, g as int) {
      assert MintOk(w, pair);
    }
    forall q | q in w.procs ensures Owes(w.procs[q]) != Some((sid, g as int)) {
      if Owes(w.procs[q]).Some? {
        OwedWasWon(w, q);
      }
    }
  }

  lemma SwapKeepsInv(w: World, p: nat, call: Call, warm: bool)
    requires Inv(w) && p in w.procs && w.procs[p] == Swapping(call, warm)
    requires call.sid in w.rows && w.rows[call.sid] == call.gen
    ensures Inv(Execute(w, p, w.procs[p]))
  {
    hide Issued, Replaces;
    var v := Execute(w, p, w.procs[p]);
    ProcessIsOk(w, p);
    CurrentIsUnowed(w, call.sid);
    forall q | q in v.procs ensures ProcOk(v, v.procs[q]) {
      if q != p {
        ProcessIsOk(w, q);
        ProcStaysOk(w, v, w.procs[q]);
      }
    }
    forall q | q in v.procs ensures OwedOnce(v, q) {
      if q != p {
        ProcessIsOk(w, q);
      }
    }
    forall won | won in v.wins ensures WinOk(v, won) {
      if won in w.wins {
        assert WinOk(w, won);
      }
    }
    forall pair | pair in v.mints ensures MintOk(v, pair) {
      assert MintOk(w, pair);
    }
  }

  lemma LostSwapKeepsInv(w: World, p: nat, call: Call, warm: bool)
    requires Inv(w) && p in w.procs && w.procs[p] == Swapping(call, warm)
    requires call.sid !in w.rows || w.rows[call.sid] != call.gen
    ensures Inv(Execute(w, p, w.procs[p]))
  {
    hide Inv, Issued, Replaces, Unborn, OwedOnce;
    ProcessIsOk(w, p);
    StillKeepsInv(w, Execute(w, p, w.procs[p]), p);
  }

  // Whoever mints a pair owed it, and then owes nothing.
  lemma MintKeepsInv(w: World, v: World, p: nat, pair: Pair)
    requires Inv(w) && p in w.procs && Owes(w.procs[p]) == Some(Replaced(pair)) && !w.procs[p].Storing?
    requires v == w.(mints := w.mints + [pair], procs := v.procs) && OnlyMoves(w, v, p)
    requires p in v.procs ==> ProcOk(v, v.procs[p]) && Owes(v.procs[p]).None?
    ensures Inv(v)
  {
    hide Issued;
    ProcessIsOk(w, p);
    OwedWasWon(w, p);
    forall q | q in v.procs ensures ProcOk(v, v.procs[q]) {
      if q != p {
        ProcessIsOk(w, q);
        ProcStaysOk(w, v, w.procs[q]);
      }
    }
    forall q | q in v.procs ensures OwedOnce(v, q) {
      if q != p {
        ProcessIsOk(w, q);
      }
    }
    forall made | made in v.mints ensures MintOk(v, made) {
      if made in w.mints {
        assert MintOk(w, made);
      }
    }
    forall won | won in v.wins ensures WinOk(v, won) {
      assert WinOk(w, won);
    }
    forall i, j | 0 <= i < j < |v.mints| ensures Replaced(v.mints[i]) != Replaced(v.mints[j]) {
      assert v.mints[i] == w.mints[i] && v.mints[i] in w.mints;
    }
  }

  lemma StoreKeepsInv(w: World, p: nat, server: nat, sid: Sid)
    requires Inv(w) && p in w.procs && w.procs[p] == Storing(server, sid)
    ensures Inv(Execute(w, p, w.procs[p]))
  {
    hide Issued, Replaces;
    var v := Execute(w, p, w.procs[p]);
    ProcessIsOk(w, p);
    forall q | q in v.procs ensures ProcOk(v, v.procs[q]) {
      if q != p {
        ProcessIsOk(w, q);
        ProcStaysOk(w, v, w.procs[q]);
      }
    }
    forall q | q in v.procs ensures OwedOnce(v, q) {
      if q != p {
        ProcessIsOk(w, q);
      }
    }
    forall won | won in v.wins ensures WinOk(v, won) {
      assert WinOk(w, won);
    }
    forall pair | pair in v.mints ensures MintOk(v, pair) {
      assert MintOk(w, pair);
    }
    forall k | k in v.rows ensures RowOk(v, k) {
      if k != sid {
        assert RowOk(w, k);
      }
    }
  }

  lemma RevokeKeepsInv(w: World, p: nat, call: Call, logout: bool)
    requires Inv(w) && p in w.procs && w.procs[p] == Revoking(call, logout)
    ensures Inv(Execute(w, p, w.procs[p]))
  {
    hide Issued, Replaces;
    var v := Execute(w, p, w.procs[p]);
    ProcessIsOk(w, p);
    IssuedIsUsed(w, call);
    forall q | q in v.procs ensures ProcOk(v, v.procs[q]) {
      if q != p {
        ProcessIsOk(w, q);
        ProcStaysOk(w, v, w.procs[q]);
      }
    }
    forall q | q in v.procs ensures OwedOnce(v, q) {
      if q != p {
        ProcessIsOk(w, q);
      }
    }
    forall won | won in v.wins ensures WinOk(v, won) {
      assert WinOk(w, won);
    }
    forall pair | pair in v.mints ensures MintOk(v, pair) {
      assert MintOk(w, pair);
    }
    forall k | k in v.rows ensures RowOk(v, k) {
      assert RowOk(w, k);
    }
  }

  lemma LoginKeepsInv(w: World, p: nat, server: nat, sid: Sid)
    requires Inv(w) && p !in w.procs && sid !in w.used
    ensures Inv(Continue(w.(used := w.used + {sid}), p, Storing(server, sid)))
  {
    hide Issued, Replaces;
    var v := Continue(w.(used := w.used + {sid}), p, Storing(server, sid));
    forall won | won in v.wins ensures WinOk(v, won) && won.0 != sid {
      assert WinOk(w, won);
    }
    forall pair | pair in v.mints ensures MintOk(v, pair) && pair.sid != sid {
      assert MintOk(w, pair);
    }
    forall k | k in v.rows ensures RowOk(v, k) && k != sid {
      assert RowOk(w, k);
    }
    forall q | q in v.procs ensures ProcOk(v, v.procs[q]) {
      if q != p {
        ProcessIsOk(w, q);
        ProcStaysOk(w, v, w.procs[q]);
      }
    }
    forall q | q in v.procs ensures OwedOnce(v, q) {
      if q != p {
        ProcessIsOk(w, q);
        if Owes(w.procs[q]).Some? {
          OwedWasWon(w, q);
        }
      } else {
        forall r | r in w.procs ensures Owes(w.procs[r]) != Owes(v.procs[p]) {
          if Owes(w.procs[r]).Some? {
            OwedWasWon(w, r);
          }
        }
      }
    }
  }

  lemma GrantKeepsInv(w: World, p: nat, server: nat, sid: Sid)
    requires Inv(w) && p in w.procs && w.procs[p] == Granting(server, sid)
    ensures Inv(Execute(w, p, w.procs[p]))
  {
    hide Inv, Issued, Replaces;
    MintKeepsInv(w, Execute(w, p, w.procs[p]), p, NextPair(w, sid, 1));
  }

  lemma PairKeepsInv(w: World, p: nat, call: Call, warm: bool)
    requires Inv(w) && p in w.procs && w.procs[p] == Minting(call, warm)
    ensures Inv(Execute(w, p, w.procs[p]))
  {
    hide Inv, Issued;
    var v := Execute(w, p, w.procs[p]);
    var pair := NextPair(w, call.sid, call.gen + 1);
    ProcessIsOk(w, p);
    IssuedStays(w.mints, v.mints, call);
    assert pair in v.mints;
    MintKeepsInv(w, v, p, pair);
  }

  lemma AnswerKeepsInv(w: World, v: World, p: nat, call: Call, pair: Pair)
    requires Inv(w) && Quiet(w, v) && v.rotated == w.rotated
    requires Replaces(w.mints, pair, call.sid, call.gen)
    requires v.answers == w.answers && OnlyMoves(w, v, p)
    ensures Inv(Answer(v, p, call, pair))
  {
    hide Issued, Replaces, ProcOk, Owes;
    QuietStep(w, Answer(v, p, call, pair), p);
  }

  lemma CachedReplaces(w: World, o: Overlap)
    requires Inv(w) && o in w.rotated
    ensures Replaces(w.mints, w.rotated[o], o.1, o.2)
  {
  }

  lemma CachedReplaceAll(w: World)
    requires Inv(w)
    ensures forall o :: o in w.rotated ==> Replaces(w.mints, w.rotated[o], o.1, o.2)
    ensures forall a :: a in w.answers ==> Replaces(w.mints, a.2, a.0, a.1)
  {
  }

  lemma ReplyKeepsInv(w: World, p: nat)
    requires Inv(w) && p in w.procs
    requires var proc := w.procs[p]; proc.Looking? || proc.Reusing? || proc.Renewing?
    ensures Inv(Execute(w, p, w.procs[p]))
  {
    hide Inv, Issued, Replaces;
    var proc := w.procs[p];
    ProcessIsOk(w, p);
    if proc.Renewing? {
      AnswerKeepsInv(w, w.(sessions := w.sessions[SlotOf(proc.call) := proc.call.gen + 1]), p, proc.call, proc.pair);
    } else if OverlapOf(proc.call) in w.rotated {
      CachedReplaces(w, OverlapOf(proc.call));
      AnswerKeepsInv(w, w, p, proc.call, w.rotated[OverlapOf(proc.call)]);
    } else {
      StillKeepsInv(w, Execute(w, p, proc), p);
    }
  }

  // Accesses that change at most session entries and which access comes next.
  lemma StillKeepsInv(w: World, v: World, p: nat)
    requires Inv(w) && Quiet(w, v) && v.answers == w.answers && OnlyMoves(w, v, p)
    requires forall o :: o in v.rotated ==> o in w.rotated && v.rotated[o] == w.rotated[o]
    requires p in v.procs ==> ProcOk(v, v.procs[p])
    requires p in v.procs && Owes(v.procs[p]).Some? ==> p in w.procs && Owes(v.procs[p]) == Owes(w.procs[p])
    ensures Inv(v)
  {
    hide Issued, Replaces, ProcOk, Owes;
    QuietStep(w, v, p);
  }

  lemma KeepKeepsInv(w: World, p: nat, call: Call, pair: Pair, warm: bool)
    requires Inv(w) && p in w.procs && w.procs[p] == Keeping(call, pair, warm)
    ensures Inv(Execute(w, p, w.procs[p]))
  {
    hide Inv, Issued, Replaces, Unborn, OwedOnce;
    CachedReplaceAll(w);
    ProcessIsOk(w, p);
    QuietStep(w, Execute(w, p, w.procs[p]), p);
  }

  // Accesses that only read.
  lemma RefreshReadKeepsInv(w: World, p: nat)
    requires Inv(w) && p in w.procs
    requires w.procs[p].Checking? || w.procs[p].Loading? || w.procs[p].Gating?
    ensures Inv(Execute(w, p, w.procs[p]))
  {
    hide Inv, Issued, Replaces, Unborn, OwedOnce;
    ProcessIsOk(w, p);
    StillKeepsInv(w, Execute(w, p, w.procs[p]), p);
  }

  lemma ReadKeepsInv(w: World, p: nat)
    requires Inv(w) && p in w.procs
    requires w.procs[p].Vacating? || w.procs[p].Validating? || w.procs[p].Reading?
    ensures Inv(Execute(w, p, w.procs[p]))
  {
    hide Inv, Issued, Replaces, Unborn, OwedOnce;
    ProcessIsOk(w, p);
    StillKeepsInv(w, Execute(w, p, w.procs[p]), p);
  }

  // Accesses that write or drop a cache entry other than a replacement pair.
  lemma CacheKeepsInv(w: World, p: nat)
    requires Inv(w) && p in w.procs
    requires var proc := w.procs[p];
      proc.Warming? || proc.Evicting? || proc.Forgetting? || proc.Caching? || proc.Admitting?
    ensures Inv(Execute(w, p, w.procs[p]))
  {
    hide Inv, Issued, Replaces, Unborn;
    ProcessIsOk(w, p);
    StillKeepsInv(w, Execute(w, p, w.procs[p]), p);
  }

  lemma StatementKeepsInv(w: World, p: nat)
    requires Inv(w) && p in w.procs
    ensures Inv(Execute(w, p, w.procs[p]))
  {
    hide Inv, Execute;
    match w.procs[p]
    case Looking(_) => ReplyKeepsInv(w, p);
    case Reusing(_) => ReplyKeepsInv(w, p);
    case Renewing(_, _) => ReplyKeepsInv(w, p);
    case Swapping(call, warm) =>
      if call.sid in w.rows && w.rows[call.sid] == call.gen {
        SwapKeepsInv(w, p, call, warm);
      } else {
        LostSwapKeepsInv(w, p, call, warm);
      }
    case Minting(call, warm) => PairKeepsInv(w, p, call, warm);
    case Keeping(call, pair, warm) => KeepKeepsInv(w, p, call, pair, warm);
    case Revoking(call, logout) => RevokeKeepsInv(w, p, call, logout);
    case Storing(server, sid) => StoreKeepsInv(w, p, server, sid);
    case Granting(server, sid) => GrantKeepsInv(w, p, server, sid);
    case Checking(_) => RefreshReadKeepsInv(w, p);
    case Loading(_) => RefreshReadKeepsInv(w, p);
    case Gating(_) => RefreshReadKeepsInv(w, p);
    case Vacating(_) => ReadKeepsInv(w, p);
    case Validating(_) => ReadKeepsInv(w, p);
    case Reading(_) => ReadKeepsInv(w, p);
    case _ => CacheKeepsInv(w, p);
  }

  lemma StepKeepsInv(w: World, step: Step)
    requires Inv(w) && Enabled(w, step)
    ensures Inv(Apply(w, step))
  {
    hide Inv, Execute, Issued;
    match step
    case Go(p) => StatementKeepsInv(w, p);
    case BeginLogin(p, server, sid) => LoginKeepsInv(w, p, server, sid);
    case BeginRefresh(p, _) => StillKeepsInv(w, Apply(w, step), p);
    case BeginLogout(p, _) => StillKeepsInv(w, Apply(w, step), p);
    case BeginValidate(p, _) => StillKeepsInv(w, Apply(w, step), p);
    case Die(p) => StillKeepsInv(w, Apply(w, step), p);
    case ForgetSession(_) =>
      SomeStill(w, Apply(w, step));
    case ForgetRotated(_) =>
      SomeStill(w, Apply(w, step));
  }

  lemma SomeStill(w: World, v: World)
    requires Inv(w) && Quiet(w, v) && v.answers == w.answers && v.procs == w.procs
    requires forall o :: o in v.rotated ==> o in w.rotated && v.rotated[o] == w.rotated[o]
    ensures Inv(v)
  {
    hide Issued, Replaces, Owes;
    forall p | p in v.procs ensures ProcOk(v, v.procs[p]) && OwedOnce(v, p) {
      ProcessIsOk(w, p);
    }
    if v.procs != map[] {
      var p :| p in v.procs;
      StillKeepsInv(w, v, p);
    } else {
      StillKeepsInv(w, v, 0);
    }
  }

  lemma {:induction false} RunKeepsInv(steps: seq<Step>)
    requires Run(steps).Some?
    ensures Inv(Run(steps).value)
  {
    hide Apply, Enabled;
    if steps != [] {
      hide Inv;
      RunKeepsInv(steps[..|steps| - 1]);
      StepKeepsInv(Run(steps[..|steps| - 1]).value, steps[|steps| - 1]);
    }
  }

  // ---------------------------------------------------------------- theorems

  // From each generation of each session at most one token pair is ever minted,
  // across all servers.
  lemma OnePairPerGeneration(steps: seq<Step>, i: nat, j: nat)
    requires Run(steps).Some? && i < j < |Run(steps).value.mints|
    ensures var mints := Run(steps).value.mints;
      (mints[i].sid, mints[i].gen) != (mints[j].sid, mints[j].gen)
  {
    hide Run, RowOk, WinOk, MintOk, ProcOk, OwedOnce, Replaces;
    RunKeepsInv(steps);
    assert Replaced(Run(steps).value.mints[i]) != Replaced(Run(steps).value.mints[j]);
  }

  // A replacement pair in a cache is the one minted from exactly that generation,
  // whatever the caches have dropped.
  lemma CachedPairIsTheReplacement(steps: seq<Step>, o: Overlap)
    requires Run(steps).Some? && o in Run(steps).value.rotated
    ensures var w := Run(steps).value;
      w.rotated[o] in w.mints && w.rotated[o].sid == o.1 && w.rotated[o].gen == o.2 + 1
  {
    hide Run;
    RunKeepsInv(steps);
    CachedReplaces(Run(steps).value, o);
  }

  // Whoever presents the same refresh token, on any server and at any time, is
  // never answered with two different pairs.
  lemma SameTokenSameAnswer(steps: seq<Step>, sid: Sid, gen: nat, a: Pair, b: Pair)
    requires Run(steps).Some?
    requires (sid, gen, a) in Run(steps).value.answers && (sid, gen, b) in Run(steps).value.answers
    ensures a == b
  {
    hide Run;
    var w := Run(steps).value;
    RunKeepsInv(steps);
    AnswerIsMinted(w, (sid, gen, a));
    AnswerIsMinted(w, (sid, gen, b));
    var i :| 0 <= i < |w.mints| && w.mints[i] == a;
    var j :| 0 <= j < |w.mints| && w.mints[j] == b;
  }

  lemma AnswerIsMinted(w: World, answer: (Sid, nat, Pair))
    requires Inv(w) && answer in w.answers
    ensures Replaces(w.mints, answer.2, answer.0, answer.1)
  {
  }

  // Once a session row is deleted it stays deleted, and no rotation of the session
  // wins its compare-and-set.
  lemma StatementAfterDelete(w: World, p: nat, sid: Sid)
    requires Inv(w) && p in w.procs && sid in w.deleted
    ensures var v := Execute(w, p, w.procs[p]);
      sid in v.deleted && sid !in v.rows && forall g :: (sid, g) in v.wins ==> (sid, g) in w.wins
  {
    hide Issued, Replaces, OwedOnce, Owes;
    ProcessIsOk(w, p);
    forall k | k in w.rows ensures k != sid {
      assert RowOk(w, k);
    }
  }

  lemma StepAfterDelete(w: World, step: Step, sid: Sid)
    requires Inv(w) && Enabled(w, step) && sid in w.deleted
    ensures var v := Apply(w, step);
      sid in v.deleted && sid !in v.rows && forall g :: (sid, g) in v.wins ==> (sid, g) in w.wins
  {
    hide Execute, Issued, ProcOk, OwedOnce;
    if step.Go? {
      StatementAfterDelete(w, step.p, sid);
    } else {
      forall k | k in w.rows ensures k != sid {
        assert RowOk(w, k);
      }
    }
  }

  lemma {:induction false} NoRotationAfterDelete(before: seq<Step>, after: seq<Step>, sid: Sid)
    requires Run(before + after).Some?
    ensures Run(before).Some?
    ensures var w, v := Run(before).value, Run(before + after).value;
      sid in w.deleted ==> sid !in v.rows && sid in v.deleted && forall g :: (sid, g) in v.wins ==> (sid, g) in w.wins
    decreases |after|
  {
    hide Apply, Enabled, Inv;
    if after == [] {
      assert before + after == before;
      RunKeepsInv(before);
      DeletedHasNoRow(Run(before).value, sid);
    } else {
      var front, last := after[..|after| - 1], after[|after| - 1];
      assert (before + after)[..|before + after| - 1] == before + front;
      assert (before + after)[|before + after| - 1] == last;
      NoRotationAfterDelete(before, front, sid);
      RunKeepsInv(before + front);
      if sid in Run(before).value.deleted {
        StepAfterDelete(Run(before + front).value, last, sid);
      }
    }
  }

  lemma DeletedHasNoRow(w: World, sid: Sid)
    requires Inv(w)
    ensures sid in w.deleted ==> sid !in w.rows
  {
    if sid in w.rows {
      assert RowOk(w, sid);
    }
  }
}
