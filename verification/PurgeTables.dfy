// services/metadata/internal/repository/purge_repo.go: the purge_jobs row, its
// companion in the sweeper's work list, and the statements that change them.
module PurgeTables {
  import opened Common
  import opened PurgeBatches
  import opened SweepWindow

  datatype JobState = Pending | Requested | Decremented | Complete | Failed

  // One purge_jobs row. A batch count of 0 is the null column of a job whose
  // batches were not counted yet.
  datatype Job = Job(
    id: JobId, blocks: seq<string>, state: JobState, attempts: nat, nextAttemptAt: int,
    lastError: string, createdAt: int, batchCount: nat, batchesDone: set<nat>, invalidOps: set<nat>)

  datatype ActiveRow = ActiveRow(state: JobState, nextAttemptAt: int)

  type ActiveKey = (int, JobId)

  datatype Tables = Tables(jobs: map<JobId, Job>, active: map<ActiveKey, ActiveRow>)

  // The row Create inserts.
  function FreshJob(id: JobId, blocks: seq<string>, now: int): Job {
    Job(id, blocks, Pending, 0, now, "", now, 0, {}, {})
  }

  function KeyOf(job: Job): ActiveKey {
    (Bucket(job.createdAt), job.id)
  }

  // ---------------------------------------------------------------- statements
  // Each function is one CQL statement. Only InsertJob and Claim are conditional.

  function InsertJob(t: Tables, job: Job): Tables {
    if job.id in t.jobs then t else t.(jobs := t.jobs[job.id := job])
  }

  function PutActive(t: Tables, job: Job, state: JobState): Tables {
    t.(active := t.active[KeyOf(job) := ActiveRow(state, job.nextAttemptAt)])
  }

  function DropActive(t: Tables, job: Job): Tables {
    t.(active := t.active - {KeyOf(job)})
  }

  function WriteState(t: Tables, id: JobId, state: JobState, lastError: string): Tables
    requires id in t.jobs
  {
    t.(jobs := t.jobs[id := t.jobs[id].(state := state, lastError := lastError)])
  }

  function Claim(t: Tables, id: JobId, expected: nat, next: int): Tables {
    if id !in t.jobs || t.jobs[id].attempts != expected then t
    else t.(jobs := t.jobs[id := t.jobs[id].(attempts := expected + 1, nextAttemptAt := next)])
  }

  function WriteBatchCount(t: Tables, id: JobId, n: nat): Tables
    requires id in t.jobs
  {
    t.(jobs := t.jobs[id := t.jobs[id].(batchCount := n)])
  }

  function AddBatch(t: Tables, id: JobId, batch: nat, invalid: set<nat>): Tables
    requires id in t.jobs
  {
    var j := t.jobs[id];
    t.(jobs := t.jobs[id := j.(batchesDone := j.batchesDone + {batch}, invalidOps := j.invalidOps + invalid)])
  }

  function WriteError(t: Tables, id: JobId, lastError: string): Tables
    requires id in t.jobs
  {
    t.(jobs := t.jobs[id := t.jobs[id].(lastError := lastError)])
  }

  // The re-read of RecordBatch.
  predicate AllDone(j: Job) {
    j.batchCount > 0 && |j.batchesDone| >= j.batchCount
  }

  // UpdateState's second statement: finished jobs leave the work list, every
  // other state is shown in it under the caller's copy of the schedule.
  function ReflectState(t: Tables, job: Job, state: JobState): Tables {
    if state == Complete then DropActive(t, job) else PutActive(t, job, state)
  }

  // ---------------------------------------------------------------- repository

  // The database connection: it answers `answered` more statements, then fails.
  class PurgeRepo {
    var jobs: map<JobId, Job>
    var active: map<ActiveKey, ActiveRow>
    var answered: nat

    constructor (answered: nat)
      ensures View() == Tables(map[], map[]) && this.answered == answered
    {
      jobs := map[];
      active := map[];
      this.answered := answered;
    }

    ghost function View(): Tables
      reads this
    {
      Tables(jobs, active)
    }

    method Answer() returns (ok: bool)
      modifies this`answered
      ensures ok <==> old(answered) > 0
      ensures answered == if ok then old(answered) - 1 else 0
    {
      ok := answered > 0;
      if ok {
        answered := answered - 1;
      }
    }

    method Get(id: JobId) returns (ok: bool, job: Option<Job>)
      modifies this`answered
      ensures ok <==> old(answered) > 0
      ensures ok ==> job == if id in jobs then Some(jobs[id]) else None
      ensures answered == if ok then old(answered) - 1 else 0
    {
      job := None;
      ok := Answer();
      if ok && id in jobs {
        job := Some(jobs[id]);
      }
    }

    // Returns the row that now holds the id: the new one, or the one that was
    // there first.
    method Create(id: JobId, blocks: seq<string>, now: int) returns (ok: bool, job: Job, created: bool)
      modifies this
      ensures created ==> ok && id !in old(jobs) && job == FreshJob(id, blocks, now)
      ensures ok && !created ==> id in old(jobs) && job == old(jobs)[id]
      ensures ok && created ==> View() == PutActive(InsertJob(old(View()), job), job, Pending)
      ensures ok && !created ==> View() == old(View())
      ensures !ok ==> View() == if old(answered) == 0 then old(View()) else InsertJob(old(View()), FreshJob(id, blocks, now))
      ensures ok <==> old(answered) >= 2
      ensures answered == if ok then old(answered) - 2 else 0
      ensures created ==>
        && job == Job(id, blocks, Pending, 0, now, "", now, 0, {}, {}) && id in jobs && jobs[id] == job
        && (Bucket(now), id) in active && active[(Bucket(now), id)] == ActiveRow(Pending, now)
    {
      var row := FreshJob(id, blocks, now);
      created := false;
      job := row;
      ok := Answer();
      if !ok {
        return;
      }
      if id in jobs {
        var existing;
        ok, existing := Get(id);
        if ok {
          job := existing.value;
        }
        return;
      }
      jobs := jobs[id := row];
      ok := Answer();
      if ok {
        active := active[KeyOf(row) := ActiveRow(row.state, row.nextAttemptAt)];
        created := true;
      }
    }

    method UpdateState(job: Job, state: JobState, lastError: string) returns (ok: bool)
      requires job.id in jobs
      modifies this
      ensures ok <==> old(answered) >= 2
      ensures answered == if ok then old(answered) - 2 else 0
      ensures View() ==
        if old(answered) == 0 then old(View())
        else if old(answered) == 1 then WriteState(old(View()), job.id, state, lastError)
        else ReflectState(WriteState(old(View()), job.id, state, lastError), job, state)
      // Afterwards the work list shows every job but a COMPLETE one, at the state
      // written and the time of the caller's copy; no other entry or row changes.
      ensures ok ==>
        && (KeyOf(job) in active <==> state != Complete)
        && (state != Complete ==> active[KeyOf(job)] == ActiveRow(state, job.nextAttemptAt))
        && active - {KeyOf(job)} == old(active) - {KeyOf(job)}
        && jobs == old(jobs)[job.id := old(jobs)[job.id].(state := state, lastError := lastError)]
    {
      ok := Answer();
      if !ok {
        return;
      }
      jobs := jobs[job.id := jobs[job.id].(state := state, lastError := lastError)];
      ok := Answer();
      if !ok {
        return;
      }
      if state == Complete {
        active := active - {KeyOf(job)};
      } else {
        active := active[KeyOf(job) := ActiveRow(state, job.nextAttemptAt)];
      }
    }

    method ClaimJob(id: JobId, expected: nat, next: int) returns (ok: bool, applied: bool)
      modifies this
      ensures ok <==> old(answered) > 0
      ensures answered == if ok then old(answered) - 1 else 0
      ensures applied <==> ok && id in old(jobs) && old(jobs)[id].attempts == expected
      ensures View() == if ok then Claim(old(View()), id, expected, next) else old(View())
      ensures active == old(active)
      ensures jobs == if !applied then old(jobs) else old(jobs)[id := old(jobs)[id].(attempts := expected + 1, nextAttemptAt := next)]
    {
      applied := false;
      ok := Answer();
      if ok && id in jobs && jobs[id].attempts == expected {
        jobs := jobs[id := jobs[id].(attempts := expected + 1, nextAttemptAt := next)];
        applied := true;
      }
    }

    method SetBatchCount(id: JobId, n: nat) returns (ok: bool)
      requires id in jobs
      modifies this
      ensures ok <==> old(answered) > 0
      ensures answered == if ok then old(answered) - 1 else 0
      ensures View() == if ok then WriteBatchCount(old(View()), id, n) else old(View())
      ensures ok ==> active == old(active) && jobs == old(jobs)[id := old(jobs)[id].(batchCount := n)]
    {
      ok := Answer();
      if ok {
        jobs := jobs[id := jobs[id].(batchCount := n)];
      }
    }

    // Unions one completed batch into the row, then reports whether the row now
    // shows every batch.
    method RecordBatch(id: JobId, batch: nat, invalid: set<nat>) returns (ok: bool, allDone: bool)
      requires id in jobs
      modifies this
      ensures ok <==> old(answered) >= 2
      ensures answered == if ok then old(answered) - 2 else 0
      ensures View() == if old(answered) > 0 then AddBatch(old(View()), id, batch, invalid) else old(View())
      ensures ok ==> (allDone <==> AllDone(jobs[id]))
      ensures ok ==>
        && active == old(active) && id in jobs && jobs - {id} == old(jobs) - {id}
        && jobs[id].batchesDone == old(jobs)[id].batchesDone + {batch}
        && jobs[id].invalidOps == old(jobs)[id].invalidOps + invalid
        && jobs[id].state == old(jobs)[id].state
        && (allDone <==> 0 < jobs[id].batchCount <= |jobs[id].batchesDone|)
    {
      allDone := false;
      ok := Answer();
      if !ok {
        return;
      }
      var j := jobs[id];
      jobs := jobs[id := j.(batchesDone := j.batchesDone + {batch}, invalidOps := j.invalidOps + invalid)];
      ok := Answer();
      if !ok {
        return;
      }
      var row := jobs[id];
      if row.batchCount > 0 {
        allDone := |row.batchesDone| >= row.batchCount;
      }
    }

    method RecordError(id: JobId, lastError: string) returns (ok: bool)
      requires id in jobs
      modifies this
      ensures ok <==> old(answered) > 0
      ensures answered == if ok then old(answered) - 1 else 0
      ensures View() == if ok then WriteError(old(View()), id, lastError) else old(View())
      ensures ok ==> active == old(active) && jobs == old(jobs)[id := old(jobs)[id].(lastError := lastError)]
    {
      ok := Answer();
      if ok {
        jobs := jobs[id := jobs[id].(lastError := lastError)];
      }
    }

    // Every work-list entry of the given buckets whose time has come, and no other;
    // one statement a bucket.
    method ListDueActive(buckets: seq<int>, now: int) returns (ok: bool, refs: seq<ActiveKey>)
      requires Distinct(buckets)
      modifies this`answered
      ensures ok <==> old(answered) >= |buckets|
      ensures answered == Max(old(answered) - |buckets|, 0)
      ensures ok ==> forall key :: key in refs <==>
        key in active && key.0 in buckets && active[key].nextAttemptAt <= now
      ensures Distinct(refs)
    {
      refs := [];
      for i := 0 to |buckets|
        invariant answered == old(answered) - i
        invariant forall key :: key in refs <==>
          key in active && key.0 in buckets[..i] && active[key].nextAttemptAt <= now
        invariant Distinct(refs)
      {
        ok := Answer();
        if !ok {
          return;
        }
        refs := ScanBucket(buckets[..i], buckets[i], now, refs);
        assert buckets[..i + 1] == buckets[..i] + [buckets[i]];
      }
      assert buckets[..|buckets|] == buckets;
      ok := true;
    }

    // The rows of one partition, filtered by their time.
    method ScanBucket(ghost before: seq<int>, bucket: int, now: int, found: seq<ActiveKey>) returns (refs: seq<ActiveKey>)
      requires bucket !in before && Distinct(found)
      requires forall key :: key in found <==> key in active && key.0 in before && active[key].nextAttemptAt <= now
      ensures forall key :: key in refs <==>
        key in active && (key.0 in before || key.0 == bucket) && active[key].nextAttemptAt <= now
      ensures Distinct(refs)
    {
      refs := found;
      var rows := set key | key in active && key.0 == bucket;
      var scanned: set<ActiveKey> := {};
      while rows != {}
        invariant forall key :: key in rows || key in scanned <==> key in active && key.0 == bucket
        invariant rows !! scanned
        invariant forall key :: key in refs <==>
          key in active && (key.0 in before || key in scanned) && active[key].nextAttemptAt <= now
        invariant Distinct(refs)
        decreases |rows|
      {
        var key :| key in rows;
        rows := rows - {key};
        scanned := scanned + {key};
        if active[key].nextAttemptAt <= now {
          assert key !in refs;
          refs := refs + [key];
        }
      }
    }
  }
}
