// Two facts about the same machine that concern its retry bookkeeping: an
// attempts value is claimed once, and the work list never shows a job later
// than its row does. Sources: repository/purge_repo.go, purge/sweeper.go.
module PurgeSchedule {
  import opened Common
  import opened PurgeBatches
  import opened PurgeTables
  import opened SweepWindow
  import opened PurgeSaga

  // ---------------------------------------------------------------- claims

  // The attempts counter of a row only rises, and exactly at the logged claims.
  ghost predicate Counts(w: World, v: World) {
    && (forall id :: id in w.t.jobs ==> id in v.t.jobs && w.t.jobs[id].attempts <= v.t.jobs[id].attempts)
    && (v.claims == w.claims || exists id :: Logs(w, v, id))
  }

  ghost predicate Logs(w: World, v: World, id: JobId) {
    && id in w.t.jobs && id in v.t.jobs
    && v.claims == w.claims + [(id, w.t.jobs[id].attempts)]
    && v.t.jobs[id].attempts == w.t.jobs[id].attempts + 1
  }

  lemma StatementCounts(w: World, p: nat, proc: Proc, cfg: Config)
    ensures Counts(w, Execute(w, p, proc, cfg))
  {
    hide BatchCount, MessageOf, Decodes, Lo, Backoff, InvalidNote, ExhaustedNote, U32, Bucket, Dispatch, PublishRequest, AllDone;
    var v := Execute(w, p, proc, cfg);
    if proc.Claiming? && proc.pre.id in w.t.jobs && w.t.jobs[proc.pre.id].attempts == proc.pre.attempts {
      assert Logs(w, v, proc.pre.id);
    }
  }

  lemma StepCounts(w: World, step: Step, cfg: Config)
    requires Enabled(w, step)
    ensures Counts(w, Apply(w, step, cfg))
  {
    hide Execute;
    if step.Go? {
      StatementCounts(w, step.p, w.procs[step.p], cfg);
    }
  }

  // Every claim in the log is below its row's counter, and no two are the same.
  ghost predicate ClaimsOk(w: World) {
    && (forall k :: 0 <= k < |w.claims| ==>
          w.claims[k].0 in w.t.jobs && w.claims[k].1 < w.t.jobs[w.claims[k].0].attempts)
    && Distinct(w.claims)
  }

  lemma CountsKeepClaimsOk(w: World, v: World)
    requires Counts(w, v) && ClaimsOk(w)
    ensures ClaimsOk(v)
  {
    if v.claims != w.claims {
      var id :| Logs(w, v, id);
      forall k | 0 <= k < |v.claims|
        ensures v.claims[k].0 in v.t.jobs && v.claims[k].1 < v.t.jobs[v.claims[k].0].attempts
      {
        if k < |w.claims| {
          assert v.claims[k] == w.claims[k];
        }
      }
      forall i, j | 0 <= i < j < |v.claims| ensures v.claims[i] != v.claims[j] {
        assert v.claims[i] == w.claims[i];
      }
    } else {
      forall k | 0 <= k < |v.claims|
        ensures v.claims[k].0 in v.t.jobs && v.claims[k].1 < v.t.jobs[v.claims[k].0].attempts
      {
        assert v.claims[k] == w.claims[k];
      }
    }
  }

  // However many sweepers race, no attempts value of a job is ever claimed twice.
  lemma {:induction false} EachAttemptIsClaimedOnce(steps: seq<Step>, cfg: Config)
    requires Run(steps, cfg).Some?
    ensures ClaimsOk(Run(steps, cfg).value)
  {
    hide Apply, Enabled;
    if steps != [] {
      var w := Run(steps[..|steps| - 1], cfg).value;
      EachAttemptIsClaimedOnce(steps[..|steps| - 1], cfg);
      StepCounts(w, steps[|steps| - 1], cfg);
      CountsKeepClaimsOk(w, Run(steps, cfg).value);
    }
  }

  // ---------------------------------------------------------------- schedule

  // Only sweeper instance s sweeps.
  predicate OneSweeper(steps: seq<Step>, s: nat) {
    forall k :: 0 <= k < |steps| ==>
      (steps[k].BeginSweep? ==> steps[k].p == s) && (steps[k].BeginRecovery? ==> steps[k].p == s)
  }

  // When the current sweep took its list.
  function SweepNow(w: World, s: nat): int {
    if s in w.sweeps then w.sweeps[s].now else 0
  }

  ghost predicate RowTimed(w: World, s: nat, id: JobId, cfg: Config)
    requires id in w.t.jobs
  {
    var j := w.t.jobs[id];
    && j.id == id
    && j.createdAt <= w.clock
    && j.createdAt <= j.nextAttemptAt
    && (if j.attempts == 0 then j.nextAttemptAt == j.createdAt
        else j.nextAttemptAt <= SweepNow(w, s) + Backoff(j.attempts - 1, cfg))
  }

  // A copy of a row carries a schedule the row once had.
  ghost predicate CopyTimed(t: Tables, job: Job) {
    && job.id in t.jobs
    && job.createdAt == t.jobs[job.id].createdAt
    && job.createdAt <= job.nextAttemptAt <= t.jobs[job.id].nextAttemptAt
  }

  ghost predicate EntryTimed(t: Tables, key: ActiveKey)
    requires key in t.active
  {
    && key.1 in t.jobs
    && key.0 == Bucket(t.jobs[key.1].createdAt)
    && t.jobs[key.1].createdAt <= t.active[key].nextAttemptAt <= t.jobs[key.1].nextAttemptAt
  }

  // The job existed when the sweep took its list.
  ghost predicate KnownTo(t: Tables, id: JobId, now: int) {
    id in t.jobs && t.jobs[id].createdAt <= now
  }

  ghost predicate ProcTimed(w: World, s: nat, p: nat, proc: Proc) {
    match proc
    case Inserting(job) => job.attempts == 0 && job.nextAttemptAt == job.createdAt <= w.clock
    case Indexing(job) => CopyTimed(w.t, job)
    case Rereading(id) => true
    case Counting(job, _) => CopyTimed(w.t, job)
    case Publishing(job, _, _, _, _) => CopyTimed(w.t, job)
    case Writing(job, _, _) => CopyTimed(w.t, job)
    case Listing(job, _) => CopyTimed(w.t, job)
    case Removing(job) => CopyTimed(w.t, job)
    case Loading(c) => true
    case Recording(job, _) => CopyTimed(w.t, job)
    case Checking(job, _) => CopyTimed(w.t, job)
    case Peeking(id, now) => p == s && s in w.sweeps && now == SweepNow(w, s) && KnownTo(w.t, id, now)
    case Claiming(pre, now) => p == s && s in w.sweeps && now == SweepNow(w, s) && KnownTo(w.t, pre.id, now)
    case Dispatching(id) => true
  }

  ghost predicate Timed(w: World, s: nat, cfg: Config) {
    && w.clock >= 0
    && w.sweeps.Keys <= {s}
    && SweepNow(w, s) <= w.clock
    && (s in w.sweeps ==> forall id :: id in w.sweeps[s].refs ==> KnownTo(w.t, id, SweepNow(w, s)))
    && (forall id :: id in w.t.jobs ==> RowTimed(w, s, id, cfg))
    && (forall key :: key in w.t.active ==> EntryTimed(w.t, key))
    && (forall p :: p in w.procs ==> ProcTimed(w, s, p, w.procs[p]))
  }

  // Rows keep their creation time and are only ever postponed; time moves on.
  ghost predicate Later(w: World, v: World, s: nat, cfg: Config) {
    && w.clock <= v.clock
    && SweepNow(w, s) <= SweepNow(v, s) <= v.clock
    && v.sweeps.Keys <= {s}
    && (forall id :: id in w.t.jobs ==>
          && id in v.t.jobs
          && v.t.jobs[id].createdAt == w.t.jobs[id].createdAt
          && w.t.jobs[id].nextAttemptAt <= v.t.jobs[id].nextAttemptAt)
    && (forall id :: id in v.t.jobs ==> RowTimed(v, s, id, cfg))
  }

  lemma ProcStaysTimed(w: World, v: World, s: nat, p: nat, proc: Proc, cfg: Config)
    requires Later(w, v, s, cfg) && ProcTimed(w, s, p, proc)
    requires p == s ==> v.sweeps == w.sweeps || (!proc.Peeking? && !proc.Claiming?)
    ensures ProcTimed(v, s, p, proc)
  {
    hide RowTimed;
  }

  lemma EntryStaysTimed(w: World, v: World, s: nat, key: ActiveKey, cfg: Config)
    requires Later(w, v, s, cfg) && key in w.t.active && EntryTimed(w.t, key)
    requires key in v.t.active && v.t.active[key] == w.t.active[key]
    ensures EntryTimed(v.t, key)
  {
    hide RowTimed;
  }

  // A step that touches process p and, in the work list, at most entry `key`.
  lemma TimedFrame(w: World, v: World, s: nat, p: nat, key: ActiveKey, cfg: Config)
    requires Timed(w, s, cfg) && Later(w, v, s, cfg)
    requires OnlyMoves(w, v, p)
    requires p in v.procs ==> ProcTimed(v, s, p, v.procs[p])
    requires p == s || v.sweeps == w.sweeps
    requires s in v.sweeps ==> forall id :: id in v.sweeps[s].refs ==> KnownTo(v.t, id, SweepNow(v, s))
    requires forall k :: k in v.t.active && k != key ==> k in w.t.active && v.t.active[k] == w.t.active[k]
    requires key in v.t.active ==> EntryTimed(v.t, key)
    ensures Timed(v, s, cfg)
  {
    hide RowTimed;
    forall q | q in v.procs ensures ProcTimed(v, s, q, v.procs[q]) {
      if q != p {
        ProcStaysTimed(w, v, s, q, w.procs[q], cfg);
      }
    }
    forall k | k in v.t.active ensures EntryTimed(v.t, k) {
      if k != key {
        EntryStaysTimed(w, v, s, k, cfg);
      }
    }
  }

  // No row's identity or schedule changed, and no time has passed.
  ghost predicate SameTimes(w: World, v: World) {
    && v.clock == w.clock && v.sweeps == w.sweeps && v.t.jobs.Keys == w.t.jobs.Keys
    && forall id :: id in w.t.jobs ==>
         && v.t.jobs[id].id == w.t.jobs[id].id
         && v.t.jobs[id].createdAt == w.t.jobs[id].createdAt
         && v.t.jobs[id].attempts == w.t.jobs[id].attempts
         && v.t.jobs[id].nextAttemptAt == w.t.jobs[id].nextAttemptAt
  }

  lemma SameTimesAreLater(w: World, v: World, s: nat, cfg: Config)
    requires Timed(w, s, cfg) && SameTimes(w, v)
    ensures Later(w, v, s, cfg)
    ensures s in v.sweeps ==> forall id :: id in v.sweeps[s].refs ==> KnownTo(v.t, id, SweepNow(v, s))
    ensures forall job :: CopyTimed(w.t, job) ==> CopyTimed(v.t, job)
  {
    hide Backoff;
    forall id | id in v.t.jobs ensures RowTimed(v, s, id, cfg) {
      assert RowTimed(w, s, id, cfg);
    }
  }

  lemma EntryIsTimed(w: World, s: nat, key: ActiveKey, cfg: Config)
    requires Timed(w, s, cfg) && key in w.t.active
    ensures EntryTimed(w.t, key)
  {
  }

  lemma ProcIsTimed(w: World, s: nat, p: nat, cfg: Config)
    requires Timed(w, s, cfg) && p in w.procs
    ensures ProcTimed(w, s, p, w.procs[p])
  {
  }

  lemma RowIsTimed(w: World, s: nat, id: JobId, cfg: Config)
    requires Timed(w, s, cfg) && id in w.t.jobs
    ensures RowTimed(w, s, id, cfg)
  {
  }

  lemma SweepFacts(w: World, s: nat, cfg: Config)
    requires Timed(w, s, cfg)
    ensures w.clock >= 0 && w.sweeps.Keys <= {s} && SweepNow(w, s) <= w.clock
    ensures s in w.sweeps ==> forall id :: id in w.sweeps[s].refs ==> KnownTo(w.t, id, SweepNow(w, s))
  {
  }

  // A step between statements: the tables and the streams' readers are as they
  // were, at most the clock or the sweep has moved.
  lemma BetweenStatements(w: World, v: World, s: nat, p: nat, cfg: Config)
    requires Timed(w, s, cfg) && v.t == w.t && w.clock <= v.clock
    requires v.sweeps.Keys <= {s} && SweepNow(w, s) <= SweepNow(v, s) <= v.clock
    requires p == s || v.sweeps == w.sweeps
    requires OnlyMoves(w, v, p)
    requires p in v.procs ==> ProcTimed(v, s, p, v.procs[p])
    requires s in v.sweeps ==> forall id :: id in v.sweeps[s].refs ==> KnownTo(v.t, id, SweepNow(v, s))
    ensures Timed(v, s, cfg)
  {
    hide Backoff;
    forall id | id in v.t.jobs ensures RowTimed(v, s, id, cfg) {
      assert RowTimed(w, s, id, cfg);
    }
    var key: ActiveKey := (0, "");
    TimedFrame(w, v, s, p, key, cfg);
  }

  // A statement that leaves all times and the work list alone.
  lemma QuietStatement(w: World, v: World, s: nat, p: nat, cfg: Config)
    requires Timed(w, s, cfg) && SameTimes(w, v) && v.t.active == w.t.active
    requires OnlyMoves(w, v, p)
    requires p in v.procs ==> ProcTimed(v, s, p, v.procs[p])
    ensures Timed(v, s, cfg)
  {
    hide Timed, RowTimed, ProcTimed, EntryTimed, Later;
    SameTimesAreLater(w, v, s, cfg);
    var key: ActiveKey := (0, "");
    if key in v.t.active {
      EntryIsTimed(w, s, key, cfg);
      EntryStaysTimed(w, v, s, key, cfg);
    }
    TimedFrame(w, v, s, p, key, cfg);
  }

  // A statement that writes or drops one work-list entry.
  lemma EntryStatement(w: World, v: World, s: nat, p: nat, job: Job, entry: Option<JobState>, cfg: Config)
    requires Timed(w, s, cfg) && CopyTimed(w.t, job)
    requires v.t == if entry.Some? then PutActive(w.t, job, entry.value) else DropActive(w.t, job)
    requires v.clock == w.clock && v.sweeps == w.sweeps
    requires OnlyMoves(w, v, p)
    requires p in v.procs ==> ProcTimed(v, s, p, v.procs[p])
    ensures Timed(v, s, cfg)
  {
    hide Timed, RowTimed, ProcTimed, Later, Bucket;
    SameTimesAreLater(w, v, s, cfg);
    TimedFrame(w, v, s, p, KeyOf(job), cfg);
  }

  // One row postponed, everything else as it was.
  lemma ClaimedRowIsLater(w: World, v: World, s: nat, id: JobId, cfg: Config)
    requires Timed(w, s, cfg) && v.clock == w.clock && v.sweeps == w.sweeps
    requires id in w.t.jobs && id in v.t.jobs && v.t.jobs == w.t.jobs[id := v.t.jobs[id]]
    requires v.t.jobs[id].createdAt == w.t.jobs[id].createdAt
    requires w.t.jobs[id].nextAttemptAt <= v.t.jobs[id].nextAttemptAt
    requires RowTimed(v, s, id, cfg)
    ensures Later(w, v, s, cfg)
    ensures s in v.sweeps ==> forall k :: k in v.sweeps[s].refs ==> KnownTo(v.t, k, SweepNow(v, s))
  {
    hide Backoff;
    forall k | k in v.t.jobs ensures RowTimed(v, s, k, cfg) {
      if k != id {
        assert RowTimed(w, s, k, cfg);
      }
    }
  }

  // The claim: the new time is not before the old one.
  lemma ClaimPostpones(w: World, s: nat, p: nat, pre: Job, cfg: Config)
    requires Usable(cfg) && Timed(w, s, cfg) && ProcTimed(w, s, p, Claiming(pre, SweepNow(w, s)))
    requires w.t.jobs[pre.id].attempts == pre.attempts
    ensures w.t.jobs[pre.id].nextAttemptAt <= SweepNow(w, s) + Backoff(pre.attempts, cfg)
  {
    hide Timed, Backoff;
    RowIsTimed(w, s, pre.id, cfg);
    BackoffIsMonotoneAndCapped(pre.attempts, pre.attempts, cfg);
    if pre.attempts > 0 {
      BackoffIsMonotoneAndCapped(pre.attempts - 1, pre.attempts, cfg);
    }
  }

  lemma ClaimStatement(w: World, s: nat, p: nat, pre: Job, now: int, cfg: Config)
    requires Usable(cfg) && Timed(w, s, cfg) && ProcTimed(w, s, p, Claiming(pre, now))
    ensures Timed(ClaimIt(w, p, pre, now, cfg), s, cfg)
  {
    hide Timed, Backoff, CopyTimed, EntryTimed, Later;
    var v := ClaimIt(w, p, pre, now, cfg);
    if w.t.jobs[pre.id].attempts == pre.attempts {
      RowIsTimed(w, s, pre.id, cfg);
      ClaimPostpones(w, s, p, pre, cfg);
      ClaimedRowIsLater(w, v, s, pre.id, cfg);
      var key: ActiveKey := (0, "");
      if key in v.t.active {
        EntryIsTimed(w, s, key, cfg);
        EntryStaysTimed(w, v, s, key, cfg);
      }
      TimedFrame(w, v, s, p, key, cfg);
    } else {
      QuietStatement(w, v, s, p, cfg);
    }
  }

  lemma InsertStatement(w: World, s: nat, p: nat, job: Job, cfg: Config)
    requires Timed(w, s, cfg) && ProcTimed(w, s, p, Inserting(job))
    ensures Timed(Insert(w, p, job), s, cfg)
  {
    hide Backoff;
    var v := Insert(w, p, job);
    if job.id in w.t.jobs {
      QuietStatement(w, v, s, p, cfg);
    } else {
      forall k | k in v.t.jobs ensures RowTimed(v, s, k, cfg) {
        if k != job.id {
          assert RowTimed(w, s, k, cfg);
        }
      }
      var key: ActiveKey := (0, "");
      if key in v.t.active {
        EntryStaysTimed(w, v, s, key, cfg);
      }
      TimedFrame(w, v, s, p, key, cfg);
    }
  }

  lemma CopyIsTimed(w: World, s: nat, id: JobId, cfg: Config)
    requires Timed(w, s, cfg) && id in w.t.jobs
    ensures CopyTimed(w.t, w.t.jobs[id]) && w.t.jobs[id].id == id
  {
    RowIsTimed(w, s, id, cfg);
  }

  lemma CountStatement(w: World, s: nat, p: nat, job: Job, advance: Option<string>, cfg: Config)
    requires Timed(w, s, cfg) && ProcTimed(w, s, p, Counting(job, advance))
    ensures Timed(Count(w, p, job, advance), s, cfg)
  {
    hide Timed, BatchCount;
    QuietStatement(w, Count(w, p, job, advance), s, p, cfg);
  }

  lemma WriteStatement(w: World, s: nat, p: nat, job: Job, state: JobState, lastError: string, cfg: Config)
    requires Timed(w, s, cfg) && ProcTimed(w, s, p, Writing(job, state, lastError))
    ensures Timed(Write(w, p, job, state, lastError), s, cfg)
  {
    hide Timed;
    QuietStatement(w, Write(w, p, job, state, lastError), s, p, cfg);
  }

  lemma RecordStatement(w: World, s: nat, p: nat, job: Job, c: Completion, cfg: Config)
    requires Timed(w, s, cfg) && ProcTimed(w, s, p, Recording(job, c))
    ensures Timed(Record(w, p, job, c), s, cfg)
  {
    hide Timed;
    QuietStatement(w, Record(w, p, job, c), s, p, cfg);
  }

  lemma PublishStatement(w: World, s: nat, p: nat, job: Job, batch: nat, count: nat, attempt: Option<nat>, advance: Option<string>, cfg: Config)
    requires Timed(w, s, cfg) && ProcTimed(w, s, p, Publishing(job, batch, count, attempt, advance))
    ensures Timed(Publish(w, p, job, batch, count, attempt, advance), s, cfg)
  {
    hide Timed, Decodes, MessageOf, Lo, CopyTimed;
    SweepFacts(w, s, cfg);
    BetweenStatements(w, Publish(w, p, job, batch, count, attempt, advance), s, p, cfg);
  }

  lemma RereadStatement(w: World, s: nat, p: nat, id: JobId, cfg: Config)
    requires Timed(w, s, cfg) && ProcTimed(w, s, p, Rereading(id))
    ensures Timed(Reread(w, p, id), s, cfg)
  {
    hide Timed;
    if id in w.t.jobs {
      CopyIsTimed(w, s, id, cfg);
    }
    QuietStatement(w, Reread(w, p, id), s, p, cfg);
  }

  lemma RemoveStatement(w: World, s: nat, p: nat, job: Job, cfg: Config)
    requires Timed(w, s, cfg) && ProcTimed(w, s, p, Removing(job))
    ensures Timed(Remove(w, p, job), s, cfg)
  {
    hide Timed;
    QuietStatement(w, Remove(w, p, job), s, p, cfg);
  }

  lemma CheckStatement(w: World, s: nat, p: nat, job: Job, c: Completion, cfg: Config)
    requires Timed(w, s, cfg) && ProcTimed(w, s, p, Checking(job, c))
    ensures Timed(Check(w, p, job), s, cfg)
  {
    hide Timed, InvalidNote, AllDone;
    QuietStatement(w, Check(w, p, job), s, p, cfg);
  }

  lemma PeekStatement(w: World, s: nat, p: nat, id: JobId, now: int, cfg: Config)
    requires Timed(w, s, cfg) && ProcTimed(w, s, p, Peeking(id, now))
    ensures Timed(Peek(w, p, id, now), s, cfg)
  {
    hide Timed;
    if id in w.t.jobs {
      CopyIsTimed(w, s, id, cfg);
    }
    QuietStatement(w, Peek(w, p, id, now), s, p, cfg);
  }

  lemma LoadStatement(w: World, s: nat, p: nat, c: Completion, cfg: Config)
    requires Timed(w, s, cfg) && ProcTimed(w, s, p, Loading(c))
    ensures Timed(Load(w, p, c), s, cfg)
  {
    hide Timed, U32;
    if c.job in w.t.jobs {
      CopyIsTimed(w, s, c.job, cfg);
    }
    QuietStatement(w, Load(w, p, c), s, p, cfg);
  }

  lemma DispatchStatement(w: World, s: nat, p: nat, id: JobId, cfg: Config)
    requires Timed(w, s, cfg) && ProcTimed(w, s, p, Dispatching(id))
    ensures Timed(DispatchIt(w, p, id, cfg), s, cfg)
  {
    hide Timed, ExhaustedNote;
    if id in w.t.jobs {
      CopyIsTimed(w, s, id, cfg);
    }
    QuietStatement(w, DispatchIt(w, p, id, cfg), s, p, cfg);
  }

  lemma IndexStatement(w: World, s: nat, p: nat, job: Job, cfg: Config)
    requires Timed(w, s, cfg) && ProcTimed(w, s, p, Indexing(job))
    ensures Timed(Index(w, p, job), s, cfg)
  {
    hide Timed, KeyOf;
    EntryStatement(w, Index(w, p, job), s, p, job, Some(Pending), cfg);
  }

  lemma ListStatement(w: World, s: nat, p: nat, job: Job, state: JobState, cfg: Config)
    requires Timed(w, s, cfg) && ProcTimed(w, s, p, Listing(job, state))
    ensures Timed(List(w, p, job, state), s, cfg)
  {
    hide Timed, KeyOf;
    EntryStatement(w, List(w, p, job, state), s, p, job, if state.Complete? then None else Some(state), cfg);
  }

  lemma StatementKeepsTimed(w: World, s: nat, p: nat, proc: Proc, cfg: Config)
    requires Usable(cfg) && Timed(w, s, cfg) && ProcTimed(w, s, p, proc)
    ensures Timed(Execute(w, p, proc, cfg), s, cfg)
  {
    hide Timed, ProcTimed, Insert, Index, Reread, Count, Publish, Write, List, Remove, Load, Record, Check, Peek, ClaimIt, DispatchIt;
    match proc
    case Inserting(job) => InsertStatement(w, s, p, job, cfg);
    case Claiming(pre, now) => ClaimStatement(w, s, p, pre, now, cfg);
    case Counting(job, advance) => CountStatement(w, s, p, job, advance, cfg);
    case Writing(job, state, lastError) => WriteStatement(w, s, p, job, state, lastError, cfg);
    case Recording(job, c) => RecordStatement(w, s, p, job, c, cfg);
    case Publishing(job, batch, count, attempt, advance) =>
      PublishStatement(w, s, p, job, batch, count, attempt, advance, cfg);
    case Indexing(job) => IndexStatement(w, s, p, job, cfg);
    case Listing(job, state) => ListStatement(w, s, p, job, state, cfg);
    case Rereading(id) => RereadStatement(w, s, p, id, cfg);
    case Removing(job) => RemoveStatement(w, s, p, job, cfg);
    case Checking(job, c) => CheckStatement(w, s, p, job, c, cfg);
    case Peeking(id, now) => PeekStatement(w, s, p, id, now, cfg);
    case Loading(c) => LoadStatement(w, s, p, c, cfg);
    case Dispatching(id) => DispatchStatement(w, s, p, id, cfg);
  }

  // ---------------------------------------------------------------- steps

  // A job listed now was created by now.
  lemma ListedIsKnown(w: World, s: nat, window: set<int>, id: JobId, cfg: Config)
    requires Timed(w, s, cfg) && id in Listed(w.t, window, w.clock)
    ensures KnownTo(w.t, id, w.clock)
  {
    hide RowTimed, ProcTimed;
    var key :| key in w.t.active && key.0 in window && w.t.active[key].nextAttemptAt <= w.clock && key.1 == id;
    assert EntryTimed(w.t, key);
  }

  lemma StepKeepsTimed(w: World, step: Step, s: nat, cfg: Config)
    requires Usable(cfg) && Timed(w, s, cfg) && Enabled(w, step) && OneSweeper([step], s)
    ensures Timed(Apply(w, step, cfg), s, cfg)
  {
    hide Timed, Execute, RowTimed, EntryTimed, Listed;
    var v := Apply(w, step, cfg);
    assert step == [step][0];
    SweepFacts(w, s, cfg);
    match step
    case Go(p) =>
      ProcIsTimed(w, s, p, cfg);
      StatementKeepsTimed(w, s, p, w.procs[p], cfg);
    case NoteError(id, lastError) =>
      var q := SomeOther(w.procs.Keys);
      QuietStatement(w, v, s, q, cfg);
    case Work(r, invalid) =>
      var q := SomeOther(w.procs.Keys);
      BetweenStatements(w, v, s, q, cfg);
    case BeginRequest(p, _, _) => BetweenStatements(w, v, s, p, cfg);
    case BeginDelivery(p, _) => BetweenStatements(w, v, s, p, cfg);
    case BeginSweep(p, window) =>
      forall id | id in Listed(w.t, window, w.clock) ensures KnownTo(w.t, id, w.clock) {
        ListedIsKnown(w, s, window, id, cfg);
      }
      BetweenStatements(w, v, s, p, cfg);
    case BeginRecovery(p, id) => BetweenStatements(w, v, s, p, cfg);
    case Die(p) => BetweenStatements(w, v, s, p, cfg);
    case Tick(_) =>
      var q := SomeOther(w.procs.Keys);
      BetweenStatements(w, v, s, q, cfg);
  }

  lemma {:induction false} RunKeepsTimed(steps: seq<Step>, s: nat, cfg: Config)
    requires Usable(cfg) && Run(steps, cfg).Some? && OneSweeper(steps, s)
    ensures Timed(Run(steps, cfg).value, s, cfg)
  {
    hide Apply, Enabled;
    if steps != [] {
      hide Timed;
      var front, last := steps[..|steps| - 1], steps[|steps| - 1];
      forall k | 0 <= k < |front| ensures front[k] == steps[k] {
      }
      RunKeepsTimed(front, s, cfg);
      StepKeepsTimed(Run(front, cfg).value, last, s, cfg);
    }
  }

  // With one sweeper and a clock that does not run backwards, the work list never
  // hides a job: whatever else interleaves or dies, each of its entries sits in
  // the bucket of the job's creation and is due whenever the job row is due.
  lemma WorkListIsNeverLate(steps: seq<Step>, s: nat, cfg: Config, key: ActiveKey)
    requires Usable(cfg) && Run(steps, cfg).Some? && OneSweeper(steps, s)
    requires key in Run(steps, cfg).value.t.active
    ensures var t := Run(steps, cfg).value.t;
      && key.1 in t.jobs
      && key == KeyOf(t.jobs[key.1])
      && t.active[key].nextAttemptAt <= t.jobs[key.1].nextAttemptAt
  {
    hide Run;
    var w := Run(steps, cfg).value;
    RunKeepsTimed(steps, s, cfg);
    EntryIsTimed(w, s, key, cfg);
    RowIsTimed(w, s, key.1, cfg);
  }

  // So every sweep lists a due job that has a work-list entry, for as long as the
  // job can still retry and the retry cap is a whole number of hours.
  lemma DueJobIsListed(steps: seq<Step>, s: nat, cfg: Config, id: JobId, window: set<int>, now: int)
    requires Usable(cfg) && cfg.maxDelay % HOUR == 0 && Run(steps, cfg).Some? && OneSweeper(steps, s)
    requires var t := Run(steps, cfg).value.t;
      id in t.jobs && KeyOf(t.jobs[id]) in t.active && t.jobs[id].nextAttemptAt <= now
    requires now - Run(steps, cfg).value.t.jobs[id].createdAt <= Lifetime(cfg)
    requires forall b :: Bucket(now) - Lookback(cfg) <= b <= Bucket(now) ==> b in window
    ensures id in Listed(Run(steps, cfg).value.t, window, now)
  {
    hide Run, Lifetime, Lookback, Bucket;
    var w := Run(steps, cfg).value;
    var job := w.t.jobs[id];
    RunKeepsTimed(steps, s, cfg);
    RowIsTimed(w, s, id, cfg);
    WholeHourCapsAreCovered(job.createdAt, now, cfg);
    WorkListIsNeverLate(steps, s, cfg, KeyOf(job));
  }
}
