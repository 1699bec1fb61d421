// The purge saga at the granularity of single statements: any number of
// requests, completion handlers and sweepers interleave; any of them can die
// between two statements; messages are lost, duplicated and reordered at will.
// Sources: purge/coordinator.go, purge/sweeper.go, repository/purge_repo.go.
module PurgeSaga {
  import opened Common
  import opened PurgeBatches
  import opened PurgeTables
  import opened SweepWindow
  import opened Decimal

  // A blocks.v2.decref.completed message.
  datatype Completion = Completion(job: JobId, batch: nat, count: nat, invalid: set<nat>)

  // What a running goroutine will do next, with what it holds in its variables.
  datatype Proc =
    // Coordinator.Request: create or find the job
    | Inserting(job: Job)
    | Indexing(job: Job)
    | Rereading(id: JobId)
    // publishRequestV2 and PublishRequestRedrive; `advance` carries the
    // last_error with which the state is moved to DECREMENT_REQUESTED afterwards
    | Counting(job: Job, advance: Option<string>)
    | Publishing(job: Job, batch: nat, count: nat, attempt: Option<nat>, advance: Option<string>)
    // UpdateState: first the row, then the work list
    | Writing(job: Job, state: JobState, lastError: string)
    | Listing(job: Job, state: JobState)
    // RemoveMetadataAndComplete
    | Removing(job: Job)
    // handleCompletion
    | Loading(completion: Completion)
    | Recording(job: Job, completion: Completion)
    | Checking(job: Job, completion: Completion)
    // Sweeper.recover
    | Peeking(id: JobId, now: int)
    | Claiming(pre: Job, now: int)
    | Dispatching(id: JobId)

  // The list one sweepOnce works through, and the time it was taken.
  datatype Sweep = Sweep(now: int, refs: set<JobId>)

  datatype World = World(
    t: Tables,
    published: set<Request>,       // requests the stream ever accepted
    completions: set<Completion>,  // completions the stream ever accepted
    procs: map<nat, Proc>,
    sweeps: map<nat, Sweep>,
    clock: int,
    removed: set<JobId>,           // jobs whose run began to remove metadata
    claims: seq<(JobId, nat)>)     // successful claims: job and attempts value

  datatype Step =
    | Tick(d: nat)
    | BeginRequest(p: nat, id: JobId, blocks: seq<string>)
    | BeginDelivery(p: nat, completion: Completion)
    | BeginSweep(p: nat, window: set<int>)
    | BeginRecovery(p: nat, id: JobId)
    | Go(p: nat)                                  // one statement
    | Die(p: nat)                                 // crash, or an error return
    | Work(request: Request, invalid: set<nat>)   // the decrement worker finishes a batch
    | NoteError(id: JobId, lastError: string)     // RecordError

  function Init(): World {
    World(Tables(map[], map[]), {}, {}, map[], map[], 0, {}, [])
  }

  function Listed(t: Tables, window: set<int>, now: int): set<JobId> {
    set key | key in t.active && key.0 in window && t.active[key].nextAttemptAt <= now :: key.1
  }

  function Occurrences(ops: seq<Op>): set<nat> {
    set op | op in ops :: op.occurrence
  }

  predicate Enabled(w: World, step: Step) {
    match step
    case Tick(_) => true
    case BeginRequest(p, _, _) => p !in w.procs
    case BeginDelivery(p, c) => p !in w.procs && c in w.completions
    case BeginSweep(p, _) => p !in w.procs
    case BeginRecovery(p, id) => p !in w.procs && p in w.sweeps && id in w.sweeps[p].refs
    case Go(p) => p in w.procs
    case Die(p) => p in w.procs
    case Work(r, invalid) => r in w.published && 1 <= |r.ops| <= MAX_OPS && invalid <= Occurrences(r.ops)
    case NoteError(id, _) => id in w.t.jobs
  }

  function Apply(w: World, step: Step, cfg: Config): World
    requires Enabled(w, step)
  {
    match step
    case Tick(d) => w.(clock := w.clock + d)
    case BeginRequest(p, id, blocks) => Continue(w, p, Inserting(FreshJob(id, blocks, w.clock)))
    case BeginDelivery(p, c) => Continue(w, p, Loading(c))
    case BeginSweep(p, window) => w.(sweeps := w.sweeps[p := Sweep(w.clock, Listed(w.t, window, w.clock))])
    case BeginRecovery(p, id) =>
      var sweep := w.sweeps[p];
      Continue(w.(sweeps := w.sweeps[p := sweep.(refs := sweep.refs - {id})]), p, Peeking(id, sweep.now))
    case Go(p) => Execute(w, p, w.procs[p], cfg)
    case Die(p) => Stop(w, p)
    case Work(r, invalid) => w.(completions := w.completions + {Completion(r.job, r.batch, r.count, invalid)})
    case NoteError(id, lastError) => w.(t := WriteError(w.t, id, lastError))
  }

  function Continue(w: World, p: nat, proc: Proc): World {
    w.(procs := w.procs[p := proc])
  }

  function Stop(w: World, p: nat): World {
    w.(procs := w.procs - {p})
  }

  // The last_error of a job whose decrements have all landed, from the handler's
  // copy of the row.
  function InvalidNote(job: Job): string {
    if |job.invalidOps| > 0 then Print(|job.invalidOps|) + " invalid ops recorded" else ""
  }

  // The last_error of a job that has used up its attempts.
  function ExhaustedNote(job: Job, cfg: Config): string {
    "max attempts (" + Print(Max(cfg.maxAttempts, 0)) + ") exceeded; last: " + job.lastError
  }

  // The next statement of process p.
  function Execute(w: World, p: nat, proc: Proc, cfg: Config): World {
    match proc
    case Inserting(job) => Insert(w, p, job)
    case Indexing(job) => Index(w, p, job)
    case Rereading(id) => Reread(w, p, id)
    case Counting(job, advance) => Count(w, p, job, advance)
    case Publishing(job, batch, count, attempt, advance) => Publish(w, p, job, batch, count, attempt, advance)
    case Writing(job, state, lastError) => Write(w, p, job, state, lastError)
    case Listing(job, state) => List(w, p, job, state)
    case Removing(job) => Remove(w, p, job)
    case Loading(c) => Load(w, p, c)
    case Recording(job, c) => Record(w, p, job, c)
    case Checking(job, c) => Check(w, p, job)
    case Peeking(id, now) => Peek(w, p, id, now)
    case Claiming(pre, now) => ClaimIt(w, p, pre, now, cfg)
    case Dispatching(id) => DispatchIt(w, p, id, cfg)
  }

  function Insert(w: World, p: nat, job: Job): World {
    Continue(w.(t := InsertJob(w.t, job)), p, if job.id in w.t.jobs then Rereading(job.id) else Indexing(job))
  }

  function Index(w: World, p: nat, job: Job): World {
    Continue(w.(t := PutActive(w.t, job, Pending)), p, Counting(job, Some("")))
  }

  function Reread(w: World, p: nat, id: JobId): World {
    if id in w.t.jobs && w.t.jobs[id].state.Pending? then Continue(w, p, Counting(w.t.jobs[id], Some("")))
    else if id in w.t.jobs && w.t.jobs[id].state.Requested? then Continue(w, p, Counting(w.t.jobs[id], None))
    else Stop(w, p)
  }

  function Count(w: World, p: nat, job: Job, advance: Option<string>): World {
    if job.id !in w.t.jobs then Stop(w, p)
    else
      var count := BatchCount(|job.blocks|);
      Continue(w.(t := WriteBatchCount(w.t, job.id, count)), p, Publishing(job, 0, count, None, advance))
  }

  // Offer one batch to the stream, or skip it, or finish the loop.
  function Publish(w: World, p: nat, job: Job, batch: nat, count: nat, attempt: Option<nat>, advance: Option<string>): World {
    if batch >= count then
      if advance.Some? then Continue(w, p, Writing(job, Requested, advance.value)) else Stop(w, p)
    else if attempt.Some? && batch in job.batchesDone then
      Continue(w, p, Publishing(job, batch + 1, count, attempt, advance))
    else if (attempt.Some? && Lo(batch) >= |job.blocks|) || !Decodes(job.blocks, batch) then
      Stop(w, p)
    else
      var request := MessageOf(job.id, job.blocks, count, batch, attempt).value.body;
      Continue(w.(published := w.published + {request}), p, Publishing(job, batch + 1, count, attempt, advance))
  }

  function Write(w: World, p: nat, job: Job, state: JobState, lastError: string): World {
    if job.id !in w.t.jobs then Stop(w, p)
    else Continue(w.(t := WriteState(w.t, job.id, state, lastError)), p, Listing(job, state))
  }

  function List(w: World, p: nat, job: Job, state: JobState): World {
    var v := w.(t := ReflectState(w.t, job, state));
    if state.Decremented? then Continue(v, p, Removing(job.(state := Decremented))) else Stop(v, p)
  }

  function Remove(w: World, p: nat, job: Job): World {
    if job.state.Complete? then Stop(w, p)
    else Continue(w.(removed := w.removed + {job.id}), p, Writing(job, Complete, job.lastError))
  }

  function Load(w: World, p: nat, c: Completion): World {
    if c.job !in w.t.jobs then Stop(w, p)
    else
      var job := w.t.jobs[c.job];
      if job.state.Complete? || job.state.Decremented? || job.state.Failed? then Stop(w, p)
      else if c.count > 0 && job.batchCount > 0 && c.count != U32(job.batchCount) then Stop(w, p)
      else Continue(w, p, Recording(job, c))
  }

  function Record(w: World, p: nat, job: Job, c: Completion): World {
    if job.id !in w.t.jobs then Stop(w, p)
    else Continue(w.(t := AddBatch(w.t, job.id, c.batch, c.invalid)), p, Checking(job, c))
  }

  function Check(w: World, p: nat, job: Job): World {
    if job.id !in w.t.jobs || !AllDone(w.t.jobs[job.id]) then Stop(w, p)
    else Continue(w, p, Writing(job, Decremented, InvalidNote(job)))
  }

  function Peek(w: World, p: nat, id: JobId, now: int): World {
    if id !in w.t.jobs then Stop(w, p) else Continue(w, p, Claiming(w.t.jobs[id], now))
  }

  function ClaimIt(w: World, p: nat, pre: Job, now: int, cfg: Config): World {
    if pre.id !in w.t.jobs || w.t.jobs[pre.id].attempts != pre.attempts then Stop(w, p)
    else
      Continue(w.(t := Claim(w.t, pre.id, pre.attempts, now + Backoff(pre.attempts, cfg)),
                  claims := w.claims + [(pre.id, pre.attempts)]), p, Dispatching(pre.id))
  }

  function DispatchIt(w: World, p: nat, id: JobId, cfg: Config): World {
    if id !in w.t.jobs then Stop(w, p)
    else
      match Dispatch(w.t.jobs[id], cfg)
      case None => Stop(w, p)
      case Some(next) => Continue(w, p, next)
  }

  // Sweeper.dispatch: what the post-claim row calls for.
  function Dispatch(job: Job, cfg: Config): Option<Proc> {
    if job.attempts >= cfg.maxAttempts then Some(Writing(job, Failed, ExhaustedNote(job, cfg)))
    else
      match job.state
      case Pending => Some(PublishRequest(job, Some(job.lastError)))
      case Requested => Some(PublishRequest(job, None))
      case Decremented => Some(Removing(job))
      case Failed => None
      case Complete => None
  }

  function PublishRequest(job: Job, advance: Option<string>): Proc {
    if job.batchCount == 0 then Counting(job, advance)
    else Publishing(job, 0, job.batchCount, Some(job.attempts), advance)
  }

  // The world after a sequence of steps; None if one of them was not possible.
  function Run(steps: seq<Step>, cfg: Config): Option<World> {
    if steps == [] then
      Some(Init())
    else
      match Run(steps[..|steps| - 1], cfg)
      case None => None
      case Some(w) =>
        var step := steps[|steps| - 1];
        if Enabled(w, step) then Some(Apply(w, step, cfg)) else None
  }

  // Time passes by steps of any length, and one sweep recovers each job it listed
  // once.
  lemma TimeAndRefs(w: World, d: nat, p: nat, id: JobId, cfg: Config)
    ensures Apply(w, Tick(d), cfg) == w.(clock := w.clock + d)
    ensures Enabled(w, BeginRecovery(p, id)) ==>
      var v := Apply(w, BeginRecovery(p, id), cfg);
      && p in v.sweeps && v.sweeps[p].now == w.sweeps[p].now && v.sweeps[p].refs == w.sweeps[p].refs - {id}
      && !Enabled(Stop(v, p), BeginRecovery(p, id))
  {
  }

  // ---------------------------------------------------------------- invariant

  function AllBatches(job: Job): set<nat> {
    Upto(BatchCount(|job.blocks|))
  }

  ghost predicate Covered(job: Job) {
    job.batchesDone == AllBatches(job)
  }

  // A completion of this batch of this job was published by the worker.
  ghost predicate Reported(completions: set<Completion>, id: JobId, batch: nat) {
    exists c :: c in completions && c.job == id && c.batch == batch
  }

  ghost predicate RowOk(w: World, id: JobId)
    requires id in w.t.jobs
  {
    var j := w.t.jobs[id];
    && j.id == id
    && (j.batchCount == 0 || j.batchCount == BatchCount(|j.blocks|))
    && j.batchesDone <= AllBatches(j)
    && (forall b :: b in j.batchesDone ==> Reported(w.completions, id, b))
    && (j.state.Decremented? || j.state.Complete? ==> Covered(j))
  }

  // A copy of a row that some process still holds.
  ghost predicate CopyOk(t: Tables, job: Job) {
    && job.id in t.jobs
    && job.blocks == t.jobs[job.id].blocks
    && (job.batchCount == 0 || job.batchCount == BatchCount(|job.blocks|))
    && (job.state.Decremented? || job.state.Complete? ==> Covered(t.jobs[job.id]))
  }

  ghost predicate ProcOk(w: World, proc: Proc) {
    match proc
    case Inserting(job) => job.state.Pending? && job.batchCount == 0 && job.batchesDone == {}
    case Indexing(job) => CopyOk(w.t, job)
    case Rereading(id) => true
    case Counting(job, _) => CopyOk(w.t, job)
    case Publishing(job, _, count, _, _) => CopyOk(w.t, job) && count == BatchCount(|job.blocks|)
    case Writing(job, state, _) =>
      CopyOk(w.t, job) && (state.Decremented? || state.Complete? ==> Covered(w.t.jobs[job.id]))
    case Listing(job, state) =>
      CopyOk(w.t, job) && (state.Decremented? || state.Complete? ==> Covered(w.t.jobs[job.id]))
    case Removing(job) => CopyOk(w.t, job) && (job.state.Decremented? || job.state.Complete?)
    case Loading(c) => c in w.completions
    case Recording(job, c) => CopyOk(w.t, job) && c in w.completions && c.job == job.id
    case Checking(job, c) => CopyOk(w.t, job)
    case Peeking(id, _) => true
    case Claiming(pre, _) => CopyOk(w.t, pre)
    case Dispatching(id) => true
  }

  // These ops, under this wire number, are batch b of a block list.
  ghost predicate IsBatch(blocks: seq<string>, b: nat, number: nat, ops: seq<Op>) {
    && b < BatchCount(|blocks|) && number == U32(b)
    && Lo(b) <= |blocks| && BatchOps(blocks, b) == Some(ops)
  }

  // A request on the stream is a batch of its job.
  ghost predicate RequestOk(t: Tables, r: Request) {
    r.job in t.jobs && exists b: nat :: IsBatch(t.jobs[r.job].blocks, b, r.batch, r.ops)
  }

  // A completion on the stream answers a request on the stream.
  ghost predicate CompletionOk(published: set<Request>, c: Completion) {
    exists r :: r in published && r.job == c.job && r.batch == c.batch && r.count == c.count
  }

  ghost predicate Inv(w: World) {
    && (forall id :: id in w.t.jobs ==> RowOk(w, id))
    && (forall p :: p in w.procs ==> ProcOk(w, w.procs[p]))
    && (forall r :: r in w.published ==> RequestOk(w.t, r))
    && (forall c :: c in w.completions ==> CompletionOk(w.published, c))
    && (forall id :: id in w.removed ==> id in w.t.jobs && Covered(w.t.jobs[id]))
  }

  // Rows are only added, keep their block list, and never lose a batch.
  ghost predicate Grows(w: World, v: World) {
    && (forall id :: id in w.t.jobs ==>
          && id in v.t.jobs
          && v.t.jobs[id].blocks == w.t.jobs[id].blocks
          && w.t.jobs[id].batchesDone <= v.t.jobs[id].batchesDone)
    && (forall id :: id in v.t.jobs ==> RowOk(v, id))
    && w.published <= v.published
    && w.completions <= v.completions
  }

  lemma CopyStaysOk(w: World, v: World, job: Job)
    requires Grows(w, v) && CopyOk(w.t, job)
    ensures CopyOk(v.t, job)
    ensures Covered(w.t.jobs[job.id]) ==> Covered(v.t.jobs[job.id])
  {
    assert RowOk(v, job.id);
  }

  lemma ProcStaysOk(w: World, v: World, proc: Proc)
    requires Grows(w, v) && ProcOk(w, proc)
    ensures ProcOk(v, proc)
  {
    match proc
    case Inserting(job) =>
    case Rereading(id) =>
    case Loading(c) =>
    case Peeking(id, _) =>
    case Dispatching(id) =>
    case Indexing(job) => CopyStaysOk(w, v, job);
    case Counting(job, _) => CopyStaysOk(w, v, job);
    case Publishing(job, _, _, _, _) => CopyStaysOk(w, v, job);
    case Writing(job, _, _) => CopyStaysOk(w, v, job);
    case Listing(job, _) => CopyStaysOk(w, v, job);
    case Removing(job) => CopyStaysOk(w, v, job);
    case Recording(job, _) => CopyStaysOk(w, v, job);
    case Checking(job, _) => CopyStaysOk(w, v, job);
    case Claiming(pre, _) => CopyStaysOk(w, v, pre);
  }

  // No process but p has changed what it will do.
  ghost predicate OnlyMoves(w: World, v: World, p: nat) {
    forall q :: q in v.procs && q != p ==> q in w.procs && v.procs[q] == w.procs[q]
  }

  // Everything the invariant says about what a step does not touch.
  lemma Frame(w: World, v: World, p: nat)
    requires Inv(w) && Grows(w, v)
    requires OnlyMoves(w, v, p)
    requires p in v.procs ==> ProcOk(v, v.procs[p])
    requires forall r :: r in v.published - w.published ==> RequestOk(v.t, r)
    requires forall c :: c in v.completions - w.completions ==> CompletionOk(v.published, c)
    requires forall id :: id in v.removed - w.removed ==> id in v.t.jobs && Covered(v.t.jobs[id])
    ensures Inv(v)
  {
    forall q | q in v.procs ensures ProcOk(v, v.procs[q]) {
      if q != p {
        ProcStaysOk(w, v, w.procs[q]);
      }
    }
    forall r | r in v.published ensures RequestOk(v.t, r) {
      if r in w.published {
        assert RequestOk(w.t, r);
      }
    }
    forall c | c in v.completions ensures CompletionOk(v.published, c) {
      if c in w.completions {
        assert CompletionOk(w.published, c);
      }
    }
    forall id | id in v.removed ensures id in v.t.jobs && Covered(v.t.jobs[id]) {
      if id in w.removed {
        assert RowOk(v, id);
      }
    }
  }

  lemma RowsGrow(w: World, v: World)
    requires Inv(w) && v.t.jobs == w.t.jobs
    requires w.published <= v.published && w.completions <= v.completions
    ensures Grows(w, v)
  {
    forall id | id in v.t.jobs ensures RowOk(v, id) {
      assert RowOk(w, id);
    }
  }

  // One row changes, to an acceptable one.
  lemma RowChanges(w: World, v: World, id: JobId)
    requires Inv(w)
    requires id in v.t.jobs && w.t.jobs.Keys <= v.t.jobs.Keys <= w.t.jobs.Keys + {id}
    requires forall k :: k in w.t.jobs && k != id ==> v.t.jobs[k] == w.t.jobs[k]
    requires id in w.t.jobs ==>
      v.t.jobs[id].blocks == w.t.jobs[id].blocks && w.t.jobs[id].batchesDone <= v.t.jobs[id].batchesDone
    requires RowOk(v, id)
    requires w.published <= v.published && w.completions <= v.completions
    ensures Grows(w, v)
  {
    forall k | k in v.t.jobs ensures RowOk(v, k) {
      if k != id {
        assert RowOk(w, k);
      }
    }
  }

  // ---------------------------------------------------------------- preservation

  lemma BatchNumberExists(blocks: seq<string>, b: nat, number: nat, ops: seq<Op>)
    requires IsBatch(blocks, b, number, ops)
    ensures number in Upto(BatchCount(|blocks|))
  {
  }

  // A completion's batch number is one of its job's batches.
  lemma CompletedBatchExists(w: World, c: Completion)
    requires Inv(w) && c in w.completions
    ensures c.job in w.t.jobs && c.batch in AllBatches(w.t.jobs[c.job])
  {
    hide IsBatch, BatchCount;
    assert CompletionOk(w.published, c);
    var r :| r in w.published && r.job == c.job && r.batch == c.batch && r.count == c.count;
    assert RequestOk(w.t, r);
    var b: nat :| IsBatch(w.t.jobs[r.job].blocks, b, r.batch, r.ops);
    BatchNumberExists(w.t.jobs[r.job].blocks, b, r.batch, r.ops);
  }

  lemma RowIsOk(w: World, id: JobId)
    requires Inv(w) && id in w.t.jobs
    ensures RowOk(w, id)
  {
  }

  // A statement that writes one existing row and moves process p on.
  lemma RowStep(w: World, v: World, p: nat, id: JobId)
    requires Inv(w) && id in w.t.jobs && id in v.t.jobs && v.t.jobs == w.t.jobs[id := v.t.jobs[id]]
    requires v.t.jobs[id].blocks == w.t.jobs[id].blocks && w.t.jobs[id].batchesDone <= v.t.jobs[id].batchesDone
    requires RowOk(v, id)
    requires v.published == w.published && v.completions == w.completions && v.removed == w.removed
    requires OnlyMoves(w, v, p)
    requires p in v.procs ==> ProcOk(v, v.procs[p])
    ensures Inv(v)
  {
    hide Inv, Grows, ProcOk, RowOk;
    RowChanges(w, v, id);
    Frame(w, v, p);
  }

  lemma InsertKeepsInv(w: World, p: nat, job: Job)
    requires Inv(w) && ProcOk(w, Inserting(job))
    ensures Inv(Insert(w, p, job))
  {
    hide Inv, Grows, BatchCount;
    var v := Insert(w, p, job);
    if job.id in w.t.jobs {
      RowsGrow(w, v);
    } else {
      RowChanges(w, v, job.id);
    }
    Frame(w, v, p);
  }

  lemma CountKeepsInv(w: World, p: nat, job: Job, advance: Option<string>)
    requires Inv(w) && ProcOk(w, Counting(job, advance))
    ensures Inv(Count(w, p, job, advance))
  {
    hide Inv, BatchCount;
    RowIsOk(w, job.id);
    RowStep(w, Count(w, p, job, advance), p, job.id);
  }

  lemma WriteKeepsInv(w: World, p: nat, job: Job, state: JobState, lastError: string)
    requires Inv(w) && ProcOk(w, Writing(job, state, lastError))
    ensures Inv(Write(w, p, job, state, lastError))
  {
    hide Inv, BatchCount;
    RowIsOk(w, job.id);
    RowStep(w, Write(w, p, job, state, lastError), p, job.id);
  }

  lemma ClaimKeepsInv(w: World, p: nat, pre: Job, now: int, cfg: Config)
    requires Inv(w) && ProcOk(w, Claiming(pre, now))
    ensures Inv(ClaimIt(w, p, pre, now, cfg))
  {
    hide Inv, BatchCount, Backoff;
    RowIsOk(w, pre.id);
    var v := ClaimIt(w, p, pre, now, cfg);
    RowStep(w, v, p, pre.id);
  }

  lemma RecordKeepsInv(w: World, p: nat, job: Job, c: Completion)
    requires Inv(w) && ProcOk(w, Recording(job, c))
    ensures Inv(Record(w, p, job, c))
  {
    hide Inv, BatchCount;
    RowIsOk(w, job.id);
    CompletedBatchExists(w, c);
    assert Reported(w.completions, job.id, c.batch);
    RowStep(w, Record(w, p, job, c), p, job.id);
  }

  // A row that shows as many batches as it has must show all of them.
  lemma CheckKeepsInv(w: World, p: nat, job: Job, c: Completion)
    requires Inv(w) && ProcOk(w, Checking(job, c))
    ensures Inv(Check(w, p, job))
  {
    hide Inv, BatchCount, InvalidNote;
    var row := w.t.jobs[job.id];
    RowIsOk(w, job.id);
    FullWhenCounted(row.batchesDone, BatchCount(|row.blocks|));
    QuietStep(w, Check(w, p, job), p);
  }

  lemma PublishedBatch(job: Job, batch: nat, count: nat, attempt: Option<nat>)
    requires batch < BatchCount(|job.blocks|) && Decodes(job.blocks, batch)
    ensures var r := MessageOf(job.id, job.blocks, count, batch, attempt).value.body;
      r.job == job.id && IsBatch(job.blocks, batch, r.batch, r.ops)
  {
  }

  lemma PublishKeepsInv(w: World, p: nat, job: Job, batch: nat, count: nat, attempt: Option<nat>, advance: Option<string>)
    requires Inv(w) && ProcOk(w, Publishing(job, batch, count, attempt, advance))
    ensures Inv(Publish(w, p, job, batch, count, attempt, advance))
  {
    hide Inv, Grows, IsBatch, BatchCount, Decodes, MessageOf, Lo;
    var v := Publish(w, p, job, batch, count, attempt, advance);
    RowsGrow(w, v);
    if v.published != w.published {
      PublishedBatch(job, batch, count, attempt);
    }
    Frame(w, v, p);
  }

  // A step that leaves the job rows and the streams as they are.
  lemma QuietStep(w: World, v: World, p: nat)
    requires Inv(w) && v.t.jobs == w.t.jobs && v.published == w.published && v.completions == w.completions
    requires OnlyMoves(w, v, p)
    requires p in v.procs ==> ProcOk(v, v.procs[p])
    requires forall id :: id in v.removed - w.removed ==> id in v.t.jobs && Covered(v.t.jobs[id])
    ensures Inv(v)
  {
    hide Inv, Grows, ProcOk;
    RowsGrow(w, v);
    Frame(w, v, p);
  }

  lemma RowCopyOk(w: World, id: JobId)
    requires Inv(w) && id in w.t.jobs
    ensures CopyOk(w.t, w.t.jobs[id]) && w.t.jobs[id].id == id
  {
    hide BatchCount;
    assert RowOk(w, id);
  }

  lemma IndexKeepsInv(w: World, p: nat, job: Job)
    requires Inv(w) && ProcOk(w, Indexing(job))
    ensures Inv(Index(w, p, job))
  {
    hide Inv, BatchCount;
    QuietStep(w, Index(w, p, job), p);
  }

  lemma RereadKeepsInv(w: World, p: nat, id: JobId)
    requires Inv(w) && ProcOk(w, Rereading(id))
    ensures Inv(Reread(w, p, id))
  {
    hide Inv, BatchCount;
    if id in w.t.jobs {
      RowCopyOk(w, id);
    }
    QuietStep(w, Reread(w, p, id), p);
  }

  lemma ListKeepsInv(w: World, p: nat, job: Job, state: JobState)
    requires Inv(w) && ProcOk(w, Listing(job, state))
    ensures Inv(List(w, p, job, state))
  {
    hide Inv, BatchCount;
    QuietStep(w, List(w, p, job, state), p);
  }

  lemma RemoveKeepsInv(w: World, p: nat, job: Job)
    requires Inv(w) && ProcOk(w, Removing(job))
    ensures Inv(Remove(w, p, job))
  {
    hide Inv, BatchCount;
    QuietStep(w, Remove(w, p, job), p);
  }

  lemma LoadKeepsInv(w: World, p: nat, c: Completion)
    requires Inv(w) && ProcOk(w, Loading(c))
    ensures Inv(Load(w, p, c))
  {
    hide Inv, BatchCount, U32;
    if c.job in w.t.jobs {
      RowCopyOk(w, c.job);
    }
    QuietStep(w, Load(w, p, c), p);
  }

  lemma PeekKeepsInv(w: World, p: nat, id: JobId, now: int)
    requires Inv(w) && ProcOk(w, Peeking(id, now))
    ensures Inv(Peek(w, p, id, now))
  {
    hide Inv, BatchCount;
    if id in w.t.jobs {
      RowCopyOk(w, id);
    }
    QuietStep(w, Peek(w, p, id, now), p);
  }

  lemma DispatchKeepsInv(w: World, p: nat, id: JobId, cfg: Config)
    requires Inv(w) && ProcOk(w, Dispatching(id))
    ensures Inv(DispatchIt(w, p, id, cfg))
  {
    hide Inv, BatchCount, ExhaustedNote;
    if id in w.t.jobs {
      RowCopyOk(w, id);
    }
    QuietStep(w, DispatchIt(w, p, id, cfg), p);
  }

  lemma StatementKeepsInv(w: World, p: nat, proc: Proc, cfg: Config)
    requires Inv(w) && ProcOk(w, proc)
    ensures Inv(Execute(w, p, proc, cfg))
  {
    hide Inv, ProcOk, Insert, Index, Reread, Count, Publish, Write, List, Remove, Load, Record, Check, Peek, ClaimIt, DispatchIt;
    match proc
    case Inserting(job) => InsertKeepsInv(w, p, job);
    case Counting(job, advance) => CountKeepsInv(w, p, job, advance);
    case Publishing(job, batch, count, attempt, advance) => PublishKeepsInv(w, p, job, batch, count, attempt, advance);
    case Writing(job, state, lastError) => WriteKeepsInv(w, p, job, state, lastError);
    case Recording(job, c) => RecordKeepsInv(w, p, job, c);
    case Checking(job, c) => CheckKeepsInv(w, p, job, c);
    case Claiming(pre, now) => ClaimKeepsInv(w, p, pre, now, cfg);
    case Indexing(job) => IndexKeepsInv(w, p, job);
    case Rereading(id) => RereadKeepsInv(w, p, id);
    case Listing(job, state) => ListKeepsInv(w, p, job, state);
    case Removing(job) => RemoveKeepsInv(w, p, job);
    case Loading(c) => LoadKeepsInv(w, p, c);
    case Peeking(id, now) => PeekKeepsInv(w, p, id, now);
    case Dispatching(id) => DispatchKeepsInv(w, p, id, cfg);
  }

  // A process number that is not in use.
  lemma {:induction false} SomeOther(used: set<nat>) returns (q: nat)
    ensures q !in used
  {
    q := 0;
    var below: set<nat> := {};
    while q in used
      invariant below <= used && below == Upto(q)
      decreases |used| - q
    {
      below := below + {q};
      SubsetSize(below, used);
      q := q + 1;
    }
  }

  lemma WorkKeepsInv(w: World, r: Request, invalid: set<nat>)
    requires Inv(w) && r in w.published
    ensures Inv(w.(completions := w.completions + {Completion(r.job, r.batch, r.count, invalid)}))
  {
    hide Inv, Grows, ProcOk;
    var c := Completion(r.job, r.batch, r.count, invalid);
    var v := w.(completions := w.completions + {c});
    var q := SomeOther(w.procs.Keys);
    RowsGrow(w, v);
    assert CompletionOk(v.published, c);
    Frame(w, v, q);
  }

  lemma NoteKeepsInv(w: World, id: JobId, lastError: string)
    requires Inv(w) && id in w.t.jobs
    ensures Inv(w.(t := WriteError(w.t, id, lastError)))
  {
    hide Inv, BatchCount;
    var v := w.(t := WriteError(w.t, id, lastError));
    var q := SomeOther(w.procs.Keys);
    RowIsOk(w, id);
    RowStep(w, v, q, id);
  }

  lemma ProcessOk(w: World, p: nat)
    requires Inv(w) && p in w.procs
    ensures ProcOk(w, w.procs[p])
  {
  }

  lemma StepKeepsInv(w: World, step: Step, cfg: Config)
    requires Inv(w) && Enabled(w, step)
    ensures Inv(Apply(w, step, cfg))
  {
    hide Inv, Execute;
    var v := Apply(w, step, cfg);
    match step
    case Go(p) =>
      ProcessOk(w, p);
      StatementKeepsInv(w, p, w.procs[p], cfg);
    case NoteError(id, lastError) => NoteKeepsInv(w, id, lastError);
    case Work(r, invalid) => WorkKeepsInv(w, r, invalid);
    case BeginRequest(p, _, _) => QuietStep(w, v, p);
    case BeginDelivery(p, _) => QuietStep(w, v, p);
    case BeginSweep(p, _) => QuietStep(w, v, p);
    case BeginRecovery(p, _) => QuietStep(w, v, p);
    case Die(p) => QuietStep(w, v, p);
    case Tick(_) =>
      var q := SomeOther(w.procs.Keys);
      QuietStep(w, v, q);
  }

  lemma InitOk()
    ensures Inv(Init())
  {
  }

  lemma {:induction false} RunKeepsInv(steps: seq<Step>, cfg: Config)
    requires Run(steps, cfg).Some?
    ensures Inv(Run(steps, cfg).value)
  {
    hide Apply, Enabled, Inv;
    if steps == [] {
      InitOk();
    } else {
      RunKeepsInv(steps[..|steps| - 1], cfg);
      StepKeepsInv(Run(steps[..|steps| - 1], cfg).value, steps[|steps| - 1], cfg);
    }
  }

  // ---------------------------------------------------------------- theorems

  // The decrement of occurrence i was requested, and the worker reported the
  // batch that carried it.
  ghost predicate Accounted(w: World, id: JobId, i: nat)
    requires id in w.t.jobs && i < |w.t.jobs[id].blocks|
  {
    exists r :: r in w.published && r.job == id && Carries(w.t.jobs[id].blocks, r, i) && Reported(w.completions, id, r.batch)
  }

  ghost predicate Carries(blocks: seq<string>, r: Request, i: nat)
    requires i < |blocks|
  {
    OpAt(blocks, i).Some? && OpAt(blocks, i).value in r.ops
  }

  lemma BatchCarries(blocks: seq<string>, i: nat, ops: seq<Op>) returns (b: nat)
    requires i < |blocks|
    ensures b == i / MAX_OPS && b < BatchCount(|blocks|) && Lo(b) <= |blocks|
    ensures BatchOps(blocks, b) == Some(ops) ==> OpAt(blocks, i).Some? && OpAt(blocks, i).value in ops
  {
    b := i / MAX_OPS;
    BatchCountBounds(|blocks|);
    if BatchOps(blocks, b) == Some(ops) {
      assert OpAt(blocks, Lo(b) + (i - Lo(b))) == Some(ops[i - Lo(b)]);
    }
  }

  // The completion behind a recorded batch, and the request behind that.
  lemma ReportOf(w: World, id: JobId, b: nat) returns (r: Request, k: nat)
    requires Inv(w) && id in w.t.jobs && b in w.t.jobs[id].batchesDone
    ensures r in w.published && r.job == id && r.batch == b && Reported(w.completions, id, b)
    ensures IsBatch(w.t.jobs[id].blocks, k, b, r.ops) && b < WORD
  {
    hide BatchCount, BatchOps, Lo;
    RowIsOk(w, id);
    assert Reported(w.completions, id, b);
    var c :| c in w.completions && c.job == id && c.batch == b;
    assert CompletionOk(w.published, c);
    r :| r in w.published && r.job == c.job && r.batch == c.batch && r.count == c.count;
    assert RequestOk(w.t, r);
    k :| IsBatch(w.t.jobs[id].blocks, k, r.batch, r.ops);
  }

  // Batch numbers travel as 32 bits, so a job with more than 2^32 batches can
  // never have them all recorded; below that, a wire number is the batch number.
  lemma RecordedBatch(w: World, id: JobId, b: nat) returns (r: Request)
    requires Inv(w) && id in w.t.jobs && Covered(w.t.jobs[id]) && b < BatchCount(|w.t.jobs[id].blocks|)
    ensures r in w.published && r.job == id && r.batch == b && Reported(w.completions, id, b)
    ensures IsBatch(w.t.jobs[id].blocks, b, b, r.ops)
  {
    hide Inv, BatchOps, Lo, BatchCount;
    if BatchCount(|w.t.jobs[id].blocks|) > WORD {
      var _, _ := ReportOf(w, id, WORD);
    }
    var k;
    r, k := ReportOf(w, id, b);
    assert k < WORD && U32(k) == k;
  }

  // In every run, whatever is lost, repeated, reordered or killed: once a job's
  // file metadata has begun to be removed, every batch of the job is recorded,
  // and every single block of its list was put in a published request whose
  // batch the worker reported as processed.
  lemma RemovalOnlyAfterEveryBatch(steps: seq<Step>, cfg: Config, id: JobId)
    requires Run(steps, cfg).Some? && id in Run(steps, cfg).value.removed
    ensures var w := Run(steps, cfg).value;
      && id in w.t.jobs
      && w.t.jobs[id].batchesDone == AllBatches(w.t.jobs[id])
      && forall i: nat :: i < |w.t.jobs[id].blocks| ==> Accounted(w, id, i)
  {
    hide Run;
    var w := Run(steps, cfg).value;
    RunKeepsInv(steps, cfg);
    var blocks := w.t.jobs[id].blocks;
    forall i: nat | i < |blocks| ensures Accounted(w, id, i) {
      var b := BatchCarries(blocks, i, []);
      var r := RecordedBatch(w, id, b);
      var _ := BatchCarries(blocks, i, r.ops);
      assert Carries(blocks, r, i);
    }
  }
}
