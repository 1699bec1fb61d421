// What any sequence of whole requests, completions and recoveries of one purge
// job ends in, in whatever order they come and whatever fails inside them.
// Sources: purge/coordinator.go, purge/sweeper.go, repository/purge_repo.go.
module PurgeConvergence {
  import opened Common
  import opened Decimal
  import opened PurgeBatches
  import opened PurgeTables
  import opened PurgeHandlers
  import opened SweepWindow
  import Saga = PurgeSaga

  // One handler run, with what its environment does to it: how many statements
  // the database answers, how many batches its publish loop gets through, and
  // whether the removal of metadata and objects works.
  datatype Event =
    | Ask(blocks: seq<string>, trashed: bool, now: int, answers: nat, reached: nat)
    | Deliver(c: Saga.Completion, delivery: nat, answers: nat, removes: bool)
    | Sweep(now: int, answers: nat, reached: nat, removes: bool)

  function Begin(s: Progress, answers: nat): Progress {
    s.(answers := answers, ok := true)
  }

  function Handle(s: Progress, id: JobId, e: Event, cfg: Config): (r: Progress)
    requires Named(s.t)
  {
    match e
    case Ask(blocks, trashed, now, answers, reached) => Asked(Begin(s, answers), id, blocks, trashed, now, reached)
    case Deliver(c, delivery, answers, removes) => Completed(Begin(s, answers), c, delivery, removes)
    case Sweep(now, answers, reached, removes) => Recovered(Begin(s, answers), id, now, reached, removes, cfg)
  }

  // ---------------------------------------------------------------- rows

  // The rows each step leaves behind.
  lemma UpdatedRows(s: Progress, job: Job, state: JobState, lastError: string)
    requires job.id in s.t.jobs
    ensures var r := Updated(s, job, state, lastError);
      && r.t.jobs == (if s.answers == 0 then s.t else WriteState(s.t, job.id, state, lastError)).jobs
      && r.removed == s.removed && r.stream == s.stream
      && (s.ok ==> (r.ok <==> s.answers >= 2) && r.answers == if s.answers >= 2 then s.answers - 2 else 0)
  {
  }

  lemma FinishedRows(s: Progress, job: Job, removes: bool)
    requires job.id in s.t.jobs
    ensures var r := Finished(s, job, removes);
      && r.t.jobs == (if job.state.Complete? || !removes || s.answers == 0 then s.t
                      else WriteState(s.t, job.id, Complete, job.lastError)).jobs
      && r.stream == s.stream
      && s.removed <= r.removed <= s.removed + {job.id}
      && (job.state.Complete? || !removes ==> r.removed == s.removed)
      && (r.t.jobs[job.id] != s.t.jobs[job.id] ==> job.id in r.removed)
  {
    UpdatedRows(s.(removed := s.removed + {job.id}), job, Complete, job.lastError);
  }

  lemma RepublishedRows(s: Progress, job: Job, attempt: nat, reached: nat)
    requires job.id in s.t.jobs
    ensures var r := Republished(s, job, attempt, reached);
      && r.t.jobs == (if job.batchCount > 0 || s.answers == 0 then s.t
                      else WriteBatchCount(s.t, job.id, BatchCount(|job.blocks|))).jobs
      && r.removed == s.removed && s.stream <= r.stream
  {
    hide BatchCount, Offers, Below;
  }

  // How far a job has come.
  function Stage(state: JobState): nat {
    match state
    case Pending => 0
    case Requested => 1
    case Decremented => 2
    case Complete => 3
    case Failed => 4
  }

  // One row after one handler: it is the same job, it loses no batch, no attempt
  // and no stage, and its batch count is what its block list calls for.
  ghost predicate Advances(j: Job, r: Job) {
    && r.id == j.id && r.blocks == j.blocks && r.createdAt == j.createdAt
    && j.attempts <= r.attempts
    && j.batchesDone <= r.batchesDone && j.invalidOps <= r.invalidOps
    && Stage(j.state) <= Stage(r.state)
    && (r.batchCount == j.batchCount || r.batchCount == BatchCount(|j.blocks|))
  }

  // The row after one completion: which of its statements took effect decides.
  function DeliveredRow(j: Job, c: Saga.Completion, answers: nat, removes: bool): Job {
    var added := j.(batchesDone := j.batchesDone + {c.batch}, invalidOps := j.invalidOps + c.invalid);
    if answers < 2 || Closed(j.state) || Mismatched(j, c) then j
    else if answers < 4 || !AllDone(added) then added
    else if answers < 6 || !removes then added.(state := Decremented, lastError := Saga.InvalidNote(j))
    else added.(state := Complete, lastError := j.lastError)
  }

  lemma CompletedRows(s: Progress, c: Saga.Completion, delivery: nat, removes: bool)
    requires s.ok && Named(s.t)
    ensures var r := Completed(s, c, delivery, removes);
      && s.removed <= r.removed && r.stream == s.stream
      && if c.job !in s.t.jobs then r.t.jobs == s.t.jobs
         else
           && r.t.jobs == s.t.jobs[c.job := DeliveredRow(s.t.jobs[c.job], c, s.answers, removes)]
           && (r.t.jobs[c.job].state.Complete? && !s.t.jobs[c.job].state.Complete? ==> c.job in r.removed)
  {
    hide Updated, Finished, Mismatched, AllDone, Saga.InvalidNote;
    if c.job in s.t.jobs {
      var job := s.t.jobs[c.job];
      if s.answers >= 2 && !Closed(job.state) && !Mismatched(job, c) {
        var added := Wrote(Read(s), AddBatch(s.t, c.job, c.batch, c.invalid));
        if s.answers >= 3 && AllDone(added.t.jobs[c.job]) {
          var checked := Read(added);
          UpdatedRows(checked, job, Decremented, Saga.InvalidNote(job));
          var advanced := Updated(checked, job, Decremented, Saga.InvalidNote(job));
          FinishedRows(advanced, job.(state := Decremented), removes);
        }
      }
    }
  }

  // When a completion is acknowledged: an orphan after its retries, one for a job
  // past the decrement stage at once, one with a wrong batch count never, any other
  // when it is recorded and, if it is the last, everything after it worked.
  lemma AcknowledgedExactlyWhen(s: Progress, c: Saga.Completion, delivery: nat, removes: bool)
    requires s.ok && Named(s.t)
    ensures Completed(s, c, delivery, removes).ok <==>
      if c.job !in s.t.jobs then s.answers >= 1 && delivery > 3
      else
        var j := s.t.jobs[c.job];
        var done := j.batchesDone + {c.batch};
        && s.answers >= 1
        && (Closed(j.state)
            || (!(c.count > 0 && j.batchCount > 0 && c.count != j.batchCount % 0x1_0000_0000)
                && s.answers >= 3
                && (0 < j.batchCount <= |done| ==> s.answers >= 7 && removes)))
  {
    hide Updated, Finished, Saga.InvalidNote;
    if c.job in s.t.jobs {
      var job := s.t.jobs[c.job];
      if s.answers >= 3 && !Closed(job.state) && !Mismatched(job, c) {
        var checked := Read(Wrote(Read(s), AddBatch(s.t, c.job, c.batch, c.invalid)));
        UpdatedRows(checked, job, Decremented, Saga.InvalidNote(job));
        var advanced := Updated(checked, job, Decremented, Saga.InvalidNote(job));
        if advanced.ok {
          FinishedOk(advanced, job.(state := Decremented), removes);
        }
      }
    }
  }

  lemma FinishedOk(s: Progress, job: Job, removes: bool)
    requires job.id in s.t.jobs && s.ok
    ensures Finished(s, job, removes).ok <==> job.state.Complete? || (removes && s.answers >= 2)
  {
    UpdatedRows(s.(removed := s.removed + {job.id}), job, Complete, job.lastError);
  }

  // What a dispatch may make of the row it was given.
  ghost predicate DispatchedTo(j: Job, r: Job, removed: set<JobId>, cfg: Config) {
    && Advances(j, r)
    && r.attempts == j.attempts && r.batchesDone == j.batchesDone && r.invalidOps == j.invalidOps
    && r.nextAttemptAt == j.nextAttemptAt
    && (r.state != j.state ==>
          || (j.attempts >= cfg.maxAttempts && r.state.Failed?)
          || (j.state.Pending? && r.state.Requested?)
          || (j.state.Decremented? && r.state.Complete? && j.id in removed))
    && (r.batchCount != j.batchCount ==> j.batchCount == 0)
  }

  ghost predicate RowOnly(s: Progress, r: Progress, id: JobId) {
    && s.removed <= r.removed && s.stream <= r.stream
    && id in r.t.jobs && id in s.t.jobs
    && r.t.jobs == s.t.jobs[id := r.t.jobs[id]]
  }

  lemma PendingRows(s: Progress, job: Job, reached: nat, removes: bool, cfg: Config)
    requires s.ok && job.id in s.t.jobs && s.t.jobs[job.id] == job
    requires job.state.Pending? && job.attempts < cfg.maxAttempts
    ensures var r := Dispatched(s, job, reached, removes, cfg);
      RowOnly(s, r, job.id) && DispatchedTo(job, r.t.jobs[job.id], r.removed, cfg) && r.removed == s.removed
  {
    hide Updated, Finished, Republished, BatchCount, Saga.ExhaustedNote;
    RepublishedRows(s, job, job.attempts, reached);
    UpdatedRows(Republished(s, job, job.attempts, reached), job, Requested, job.lastError);
  }

  lemma RequestedRows(s: Progress, job: Job, reached: nat, removes: bool, cfg: Config)
    requires s.ok && job.id in s.t.jobs && s.t.jobs[job.id] == job
    requires job.state.Requested? && job.attempts < cfg.maxAttempts
    ensures var r := Dispatched(s, job, reached, removes, cfg);
      RowOnly(s, r, job.id) && DispatchedTo(job, r.t.jobs[job.id], r.removed, cfg) && r.removed == s.removed
  {
    hide Updated, Finished, Republished, BatchCount, Saga.ExhaustedNote;
    RepublishedRows(s, job, job.attempts, reached);
  }

  lemma DispatchedRows(s: Progress, job: Job, reached: nat, removes: bool, cfg: Config)
    requires s.ok && job.id in s.t.jobs && s.t.jobs[job.id] == job
    ensures var r := Dispatched(s, job, reached, removes, cfg);
      && RowOnly(s, r, job.id)
      && DispatchedTo(job, r.t.jobs[job.id], r.removed, cfg)
      && (job.attempts >= cfg.maxAttempts && s.answers > 0 ==> r.t.jobs[job.id].state.Failed?)
      && (r.t.jobs[job.id].state.Complete? && !job.state.Complete? ==> job.attempts < cfg.maxAttempts && s.answers > 0 && removes)
      && (job.attempts < cfg.maxAttempts && s.answers > 0 && removes && job.state.Decremented? ==> r.t.jobs[job.id].state.Complete?)
      && (job.attempts >= cfg.maxAttempts || Closed(job.state) ==> r.stream == s.stream)
      && (job.attempts >= cfg.maxAttempts || !job.state.Decremented? || !removes ==> r.removed == s.removed)
      && (job.attempts < cfg.maxAttempts && job.state.Requested? ==> r.stream == Republished(s, job, job.attempts, reached).stream)
  {
    hide Updated, Finished, Republished, Saga.ExhaustedNote, BatchCount;
    if job.attempts >= cfg.maxAttempts {
      UpdatedRows(s, job, Failed, Saga.ExhaustedNote(job, cfg));
    } else {
      match job.state
      case Pending => PendingRows(s, job, reached, removes, cfg);
      case Requested => RequestedRows(s, job, reached, removes, cfg);
      case Decremented => FinishedRows(s, job, removes);
      case Failed =>
      case Complete =>
    }
  }

  // When a dispatch succeeds; when its work fails and the database answers on, the
  // row says so.
  lemma DispatchSucceedsExactlyWhen(s: Progress, job: Job, reached: nat, removes: bool, cfg: Config)
    requires s.ok && job.id in s.t.jobs && s.t.jobs[job.id] == job
    ensures var r, p := Dispatched(s, job, reached, removes, cfg), Republished(s, job, job.attempts, reached);
      && (r.ok <==>
            if job.attempts >= cfg.maxAttempts then s.answers >= 2
            else if job.state.Pending? then p.ok && p.answers >= 2
            else if job.state.Requested? then p.ok
            else job.state.Decremented? ==> removes && s.answers >= 2)
      && (job.attempts < cfg.maxAttempts && (job.state.Pending? || job.state.Requested?) && !p.ok && p.answers > 0 ==>
            r.t.jobs[job.id].lastError == "republish failed")
      && (job.attempts < cfg.maxAttempts && job.state.Decremented? && !removes && s.answers > 0 ==>
            r.t.jobs[job.id].lastError == "metadata removal failed")
  {
    hide Updated, Finished, Republished, Saga.ExhaustedNote;
    var p := Republished(s, job, job.attempts, reached);
    UpdatedRows(s, job, Failed, Saga.ExhaustedNote(job, cfg));
    UpdatedRows(p, job, Requested, job.lastError);
    RepublishedOk(s, job, job.attempts, reached);
    FinishedOk(s, job, removes);
    FinishedRows(s, job, removes);
    FinishedAnswers(s, job, removes);
  }

  lemma RepublishedOk(s: Progress, job: Job, attempt: nat, reached: nat)
    requires job.id in s.t.jobs && s.ok
    ensures Republished(s, job, attempt, reached).ok ==> Republished(s, job, attempt, reached).answers <= s.answers
  {
    hide BatchCount, Offers, Below;
  }

  lemma FinishedAnswers(s: Progress, job: Job, removes: bool)
    requires job.id in s.t.jobs && s.ok
    ensures job.state.Complete? || !removes ==> Finished(s, job, removes).answers == s.answers
    ensures !job.state.Complete? && removes ==> Finished(s, job, removes).answers == if s.answers >= 2 then s.answers - 2 else 0
  {
    UpdatedRows(s.(removed := s.removed + {job.id}), job, Complete, job.lastError);
  }

  // The row after one recovery: claimed, and then what the dispatch makes of it.
  ghost predicate SweptTo(j: Job, r: Job, removed: set<JobId>, cfg: Config) {
    && Advances(j, r)
    && r.attempts <= j.attempts + 1 && r.batchesDone == j.batchesDone && r.invalidOps == j.invalidOps
    && (r.state != j.state ==>
          || (r.attempts >= cfg.maxAttempts && r.state.Failed?)
          || (j.state.Pending? && r.state.Requested?)
          || (j.state.Decremented? && r.state.Complete? && j.id in removed))
    && (r.batchCount != j.batchCount ==> j.batchCount == 0)
  }

  lemma RecoveredRows(s: Progress, id: JobId, now: int, reached: nat, removes: bool, cfg: Config)
    requires s.ok && Named(s.t) && id in s.t.jobs
    ensures var j, r := s.t.jobs[id], Recovered(s, id, now, reached, removes, cfg);
      && RowOnly(s, r, id)
      && SweptTo(j, r.t.jobs[id], r.removed, cfg)
      && r.t.jobs[id].attempts == j.attempts + (if s.answers >= 2 then 1 else 0)
      && r.t.jobs[id].nextAttemptAt == (if s.answers >= 2 then now + Backoff(j.attempts, cfg) else j.nextAttemptAt)
      && (s.answers < 3 || j.attempts + 1 >= cfg.maxAttempts || Closed(j.state) ==> r.stream == s.stream)
      && (s.answers < 3 || j.attempts + 1 >= cfg.maxAttempts || !j.state.Decremented? || !removes ==> r.removed == s.removed)
      && (s.answers >= 3 && j.attempts + 1 < cfg.maxAttempts && j.state.Requested? && j.batchCount > 0 ==>
            r.stream == s.stream + Offers(id, j.blocks, j.batchCount, Missing(Min(reached, j.batchCount), j.batchesDone), Some(j.attempts + 1)))
      && (r.t.jobs[id].state.Complete? && !j.state.Complete? ==> s.answers >= 4 && j.attempts + 1 < cfg.maxAttempts && removes)
      && (s.answers >= 4 ==>
            && (j.attempts + 1 >= cfg.maxAttempts ==> r.t.jobs[id].state.Failed?)
            && (j.attempts + 1 < cfg.maxAttempts && removes && j.state.Decremented? ==> r.t.jobs[id].state.Complete?))
  {
    hide Dispatched, Backoff, BatchCount;
    if s.answers >= 3 {
      var j := s.t.jobs[id];
      var loaded := Read(Wrote(Read(s), Claim(s.t, id, j.attempts, now + Backoff(j.attempts, cfg))));
      DispatchedRows(loaded, loaded.t.jobs[id], reached, removes, cfg);
    }
  }

  // A request for a job that exists may at most move it to DECREMENT_REQUESTED.
  ghost predicate AskedTo(j: Job, r: Job) {
    && Advances(j, r)
    && r.attempts == j.attempts && r.batchesDone == j.batchesDone && r.invalidOps == j.invalidOps
    && r.nextAttemptAt == j.nextAttemptAt
    && (r.state == j.state || (j.state.Pending? && r.state.Requested?))
    && (Closed(j.state) ==> r == j)
  }

  lemma AdvancedRows(s: Progress, job: Job, reached: nat)
    requires s.ok && job.id in s.t.jobs && s.t.jobs[job.id] == job
    ensures var r := Advanced(s, job, reached);
      && r.removed == s.removed && s.stream <= r.stream
      && job.id in r.t.jobs && r.t.jobs == s.t.jobs[job.id := r.t.jobs[job.id]]
      && Advances(job, r.t.jobs[job.id])
      && (Closed(job.state) || AskedTo(job, r.t.jobs[job.id]))
  {
    hide BatchCount, Updated, Offers, Below;
    UpdatedRows(FullyPublished(s, job, reached), job, Requested, "");
  }

  lemma AskedRows(s: Progress, id: JobId, blocks: seq<string>, trashed: bool, now: int, reached: nat)
    requires s.ok && Named(s.t)
    ensures var r := Asked(s, id, blocks, trashed, now, reached);
      && r.removed == s.removed && s.stream <= r.stream
      && (id in s.t.jobs && Closed(s.t.jobs[id].state) ==> r.stream == s.stream)
      && s.t.jobs.Keys <= r.t.jobs.Keys <= s.t.jobs.Keys + {id}
      && (forall k :: k in s.t.jobs && k != id ==> r.t.jobs[k] == s.t.jobs[k])
      && (id in s.t.jobs ==> AskedTo(s.t.jobs[id], r.t.jobs[id]))
      && (id in r.t.jobs && id !in s.t.jobs ==> AskedTo(FreshJob(id, blocks, now), r.t.jobs[id]))
  {
    hide Advanced, AskedTo, Advances;
    AskedToItself();
    var job := FreshJob(id, blocks, now);
    if trashed && s.answers >= 2 {
      var inserted := Wrote(s, InsertJob(s.t, job));
      if id in s.t.jobs {
        if !Closed(s.t.jobs[id].state) {
          AdvancedRows(Read(inserted), s.t.jobs[id], reached);
        }
      } else {
        AdvancedRows(Wrote(inserted, PutActive(inserted.t, job, Pending)), job, reached);
      }
    }
  }

  lemma AskedToItself()
    ensures forall j :: AskedTo(j, j)
  {
  }

  // When a request succeeds, and what it then has done: the job is there, counted
  // and requested, and unless it was further already its batches are on the stream.
  lemma RequestSucceedsExactlyWhen(s: Progress, id: JobId, blocks: seq<string>, trashed: bool, now: int, reached: nat)
    requires s.ok && Named(s.t)
    ensures var r := Asked(s, id, blocks, trashed, now, reached);
      var count := BatchCount(if id in s.t.jobs then |s.t.jobs[id].blocks| else |blocks|);
      && (r.ok <==>
            && trashed
            && (if id in s.t.jobs && Closed(s.t.jobs[id].state) then s.answers >= 2
                else reached >= count && s.answers >= if id in s.t.jobs && s.t.jobs[id].state.Requested? then 3 else 5))
      && (r.ok ==> id in r.t.jobs)
      && (r.ok && (id !in s.t.jobs || !Closed(s.t.jobs[id].state)) ==>
            && r.t.jobs[id].state.Requested? && r.t.jobs[id].batchCount == count
            && r.stream == s.stream + Offers(id, r.t.jobs[id].blocks, count, FirstNats(count), None))
  {
    hide BatchCount, Offers, Advanced;
    var job := FreshJob(id, blocks, now);
    if trashed && s.answers >= 2 {
      var inserted := Wrote(s, InsertJob(s.t, job));
      if id in s.t.jobs {
        AdvanceSucceeds(Read(inserted), s.t.jobs[id], reached);
      } else {
        AdvanceSucceeds(Wrote(inserted, PutActive(inserted.t, job, Pending)), job, reached);
      }
    }
  }

  lemma AdvanceSucceeds(s: Progress, job: Job, reached: nat)
    requires s.ok && job.id in s.t.jobs && s.t.jobs[job.id] == job
    ensures var r, count := Advanced(s, job, reached), BatchCount(|job.blocks|);
      && (r.ok <==> reached >= count && s.answers >= if job.state.Pending? then 3 else 1)
      && job.id in r.t.jobs
      && (r.ok ==>
            && r.t.jobs[job.id] == job.(state := if job.state.Pending? then Requested else job.state, batchCount := count,
                                        lastError := if job.state.Pending? then "" else job.lastError)
            && r.stream == s.stream + Offers(job.id, job.blocks, count, FirstNats(count), None))
  {
    hide BatchCount, Updated, Offers;
    UpdatedRows(FullyPublished(s, job, reached), job, Requested, "");
  }

  // ---------------------------------------------------------------- one job

  // A job, its block list, and what the decrement worker finds in each batch: it
  // reports the same invalid occurrences every time it is asked.
  datatype Purge = Purge(id: JobId, blocks: seq<string>, reports: seq<set<nat>>)

  predicate WellFormed(g: Purge) {
    |g.reports| == BatchCount(|g.blocks|)
  }

  function InvalidIn(reports: seq<set<nat>>, batches: set<nat>): set<nat> {
    set b, i | b in batches && b < |reports| && i in reports[b] :: i
  }

  // An event of this job. Completions may come in any order and any number, and
  // with a wrong batch count.
  predicate Concerns(g: Purge, e: Event) {
    match e
    case Ask(blocks, _, _, _, _) => blocks == g.blocks
    case Deliver(c, _, _, _) => c.job == g.id && c.batch < |g.reports| && c.invalid == g.reports[c.batch]
    case Sweep(_, _, _, _) => true
  }

  ghost predicate SoundRow(g: Purge, j: Job, removed: set<JobId>, cfg: Config) {
    && j.id == g.id && j.blocks == g.blocks
    && (j.batchCount == 0 || j.batchCount == |g.reports|)
    && j.batchesDone <= Upto(|g.reports|)
    && j.invalidOps == InvalidIn(g.reports, j.batchesDone)
    && (j.state.Decremented? || j.state.Complete? ==> j.batchesDone == Upto(|g.reports|))
    && (j.state.Complete? ==> g.id in removed)
    && (j.state.Failed? ==> j.attempts >= cfg.maxAttempts)
  }

  ghost predicate Sound(g: Purge, s: Progress, cfg: Config) {
    Named(s.t) && (g.id in s.t.jobs ==> SoundRow(g, s.t.jobs[g.id], s.removed, cfg))
  }

  lemma InvalidInGrows(reports: seq<set<nat>>, done: set<nat>, batch: nat)
    requires batch < |reports|
    ensures InvalidIn(reports, done + {batch}) == InvalidIn(reports, done) + reports[batch]
  {
    var all, parts := InvalidIn(reports, done + {batch}), InvalidIn(reports, done) + reports[batch];
    forall i | i in parts ensures i in all {
      if i in reports[batch] {
        assert batch in done + {batch};
      } else {
        var b :| b in done && b < |reports| && i in reports[b];
        assert b in done + {batch};
      }
    }
  }

  lemma DeliveredRowIsSound(g: Purge, j: Job, c: Saga.Completion, answers: nat, removes: bool, removed: set<JobId>, after: set<JobId>, cfg: Config)
    requires WellFormed(g) && SoundRow(g, j, removed, cfg) && removed <= after
    requires c.batch < |g.reports| && c.invalid == g.reports[c.batch]
    requires DeliveredRow(j, c, answers, removes).state.Complete? && !j.state.Complete? ==> g.id in after
    ensures SoundRow(g, DeliveredRow(j, c, answers, removes), after, cfg)
    ensures Advances(j, DeliveredRow(j, c, answers, removes))
  {
    hide BatchCount, Saga.InvalidNote, InvalidIn, Mismatched;
    InvalidInGrows(g.reports, j.batchesDone, c.batch);
    FullWhenCounted(j.batchesDone + {c.batch}, |g.reports|);
  }

  lemma SweptRowIsSound(g: Purge, j: Job, r: Job, removed: set<JobId>, after: set<JobId>, cfg: Config)
    requires WellFormed(g) && SoundRow(g, j, removed, cfg) && removed <= after && SweptTo(j, r, after, cfg)
    ensures SoundRow(g, r, after, cfg)
  {
    hide BatchCount, InvalidIn;
  }

  lemma AskedRowIsSound(g: Purge, j: Job, r: Job, removed: set<JobId>, cfg: Config)
    requires WellFormed(g) && SoundRow(g, j, removed, cfg) && AskedTo(j, r)
    ensures SoundRow(g, r, removed, cfg)
  {
    hide BatchCount, InvalidIn;
  }

  lemma FreshRowIsSound(g: Purge, now: int, removed: set<JobId>, cfg: Config)
    requires WellFormed(g)
    ensures SoundRow(g, FreshJob(g.id, g.blocks, now), removed, cfg)
  {
  }

  // A step after which the job is sound, and no less far than before.
  ghost predicate Forward(g: Purge, s: Progress, r: Progress, cfg: Config) {
    && Sound(g, r, cfg)
    && s.removed <= r.removed
    && (g.id in s.t.jobs ==> g.id in r.t.jobs && Advances(s.t.jobs[g.id], r.t.jobs[g.id]))
  }

  lemma AskGoesForward(g: Purge, s: Progress, e: Event, cfg: Config)
    requires WellFormed(g) && Sound(g, s, cfg) && Concerns(g, e) && e.Ask?
    ensures Forward(g, s, Handle(s, g.id, e, cfg), cfg)
  {
    hide Asked, BatchCount, InvalidIn;
    AskedRows(Begin(s, e.answers), g.id, e.blocks, e.trashed, e.now, e.reached);
    var r := Handle(s, g.id, e, cfg);
    if g.id in s.t.jobs {
      AskedRowIsSound(g, s.t.jobs[g.id], r.t.jobs[g.id], r.removed, cfg);
    } else if g.id in r.t.jobs {
      FreshRowIsSound(g, e.now, r.removed, cfg);
      AskedRowIsSound(g, FreshJob(g.id, g.blocks, e.now), r.t.jobs[g.id], r.removed, cfg);
    }
  }

  lemma DeliverGoesForward(g: Purge, s: Progress, e: Event, cfg: Config)
    requires WellFormed(g) && Sound(g, s, cfg) && Concerns(g, e) && e.Deliver?
    ensures Forward(g, s, Handle(s, g.id, e, cfg), cfg)
  {
    hide Completed, DeliveredRow, BatchCount, InvalidIn;
    CompletedRows(Begin(s, e.answers), e.c, e.delivery, e.removes);
    if g.id in s.t.jobs {
      DeliveredRowIsSound(g, s.t.jobs[g.id], e.c, e.answers, e.removes, s.removed, Handle(s, g.id, e, cfg).removed, cfg);
    }
  }

  lemma SweepGoesForward(g: Purge, s: Progress, e: Event, cfg: Config)
    requires WellFormed(g) && Sound(g, s, cfg) && Concerns(g, e) && e.Sweep?
    ensures Forward(g, s, Handle(s, g.id, e, cfg), cfg)
  {
    hide BatchCount, InvalidIn, Dispatched, Claim;
    if g.id in s.t.jobs {
      hide Recovered;
      var r := Handle(s, g.id, e, cfg);
      RecoveredRows(Begin(s, e.answers), g.id, e.now, e.reached, e.removes, cfg);
      SweptRowIsSound(g, s.t.jobs[g.id], r.t.jobs[g.id], s.removed, r.removed, cfg);
    }
  }

  lemma HandlerGoesForward(g: Purge, s: Progress, e: Event, cfg: Config)
    requires WellFormed(g) && Sound(g, s, cfg) && Concerns(g, e)
    ensures Forward(g, s, Handle(s, g.id, e, cfg), cfg)
  {
    hide Handle, Forward, Sound;
    match e
    case Ask(_, _, _, _, _) => AskGoesForward(g, s, e, cfg);
    case Deliver(_, _, _, _) => DeliverGoesForward(g, s, e, cfg);
    case Sweep(_, _, _, _) => SweepGoesForward(g, s, e, cfg);
  }

  // The state after a sequence of handlers.
  function History(g: Purge, s: Progress, events: seq<Event>, cfg: Config): (r: Progress)
    requires WellFormed(g) && Sound(g, s, cfg) && forall e :: e in events ==> Concerns(g, e)
    ensures Sound(g, r, cfg)
    decreases |events|
  {
    if events == [] then s
    else
      HandlerGoesForward(g, s, events[0], cfg);
      History(g, Handle(s, g.id, events[0], cfg), events[1..], cfg)
  }

  // ---------------------------------------------------------------- convergence

  lemma AdvancesOn(i: Job, j: Job, r: Job)
    requires Advances(i, j) && Advances(j, r)
    ensures Advances(i, r)
  {
    hide BatchCount;
  }

  // Over any sequence a job loses no recorded batch, no attempt and no stage.
  lemma {:induction false} JobsOnlyAdvance(g: Purge, s: Progress, events: seq<Event>, cfg: Config)
    requires WellFormed(g) && Sound(g, s, cfg) && (forall e :: e in events ==> Concerns(g, e)) && g.id in s.t.jobs
    ensures var r := History(g, s, events, cfg);
      g.id in r.t.jobs && s.removed <= r.removed && Advances(s.t.jobs[g.id], r.t.jobs[g.id])
    decreases |events|
  {
    hide Handle, Advances, Concerns, SoundRow;
    if events == [] {
      AdvancesToItself(s.t.jobs[g.id]);
    } else {
      HandlerGoesForward(g, s, events[0], cfg);
      var v := Handle(s, g.id, events[0], cfg);
      JobsOnlyAdvance(g, v, events[1..], cfg);
      AdvancesOn(s.t.jobs[g.id], v.t.jobs[g.id], History(g, s, events, cfg).t.jobs[g.id]);
    }
  }

  lemma {:induction false} HistoryJoined(g: Purge, s: Progress, xs: seq<Event>, ys: seq<Event>, cfg: Config)
    requires WellFormed(g) && Sound(g, s, cfg)
    requires (forall e :: e in xs ==> Concerns(g, e)) && (forall e :: e in ys ==> Concerns(g, e))
    ensures forall e :: e in xs + ys ==> Concerns(g, e)
    ensures History(g, s, xs + ys, cfg) == History(g, History(g, s, xs, cfg), ys, cfg)
    decreases |xs|
  {
    hide Handle, Concerns, SoundRow;
    if xs == [] {
      assert xs + ys == ys;
    } else {
      HandlerGoesForward(g, s, xs[0], cfg);
      HistoryJoined(g, Handle(s, g.id, xs[0], cfg), xs[1..], ys, cfg);
      assert (xs + ys)[1..] == xs[1..] + ys;
    }
  }

  lemma AdvancesToItself(j: Job)
    ensures Advances(j, j)
  {
  }

  // A delivery whose record, re-read and state change the database answers.
  predicate Lands(g: Purge, e: Event) {
    e.Deliver? && e.answers >= 4 && (e.c.count == 0 || e.c.count == U32(|g.reports|))
  }

  // Batch b was recorded before, or will be by one of these events.
  predicate Covers(g: Purge, j: Job, events: seq<Event>, b: nat) {
    b in j.batchesDone || exists k :: 0 <= k < |events| && Lands(g, events[k]) && events[k].c.batch == b
  }

  lemma LandedRow(g: Purge, j: Job, e: Event, cfg: Config)
    requires WellFormed(g) && SoundRow(g, j, {g.id}, cfg) && j.batchCount == |g.reports|
    requires Concerns(g, e) && Lands(g, e)
    ensures var r := DeliveredRow(j, e.c, e.answers, e.removes);
      Closed(r.state) || (e.c.batch in r.batchesDone && r.batchesDone < Upto(|g.reports|))
  {
    hide BatchCount, InvalidIn, U32, Saga.InvalidNote;
    var added := j.batchesDone + {e.c.batch};
    FullWhenCounted(added, |g.reports|);
  }

  lemma HandledRow(g: Purge, s: Progress, e: Event, cfg: Config)
    requires WellFormed(g) && Sound(g, s, cfg) && Concerns(g, e) && e.Deliver? && g.id in s.t.jobs
    ensures g.id in Handle(s, g.id, e, cfg).t.jobs
    ensures Handle(s, g.id, e, cfg).t.jobs[g.id] == DeliveredRow(s.t.jobs[g.id], e.c, e.answers, e.removes)
  {
    hide Completed, DeliveredRow, BatchCount;
    CompletedRows(Begin(s, e.answers), e.c, e.delivery, e.removes);
  }

  // What a sequence still owes after its first event.
  lemma FirstEvent(g: Purge, s: Progress, events: seq<Event>, cfg: Config)
    requires WellFormed(g) && Sound(g, s, cfg) && (forall e :: e in events ==> Concerns(g, e)) && g.id in s.t.jobs
    requires events != [] && s.t.jobs[g.id].batchCount == |g.reports|
    requires forall b: nat :: b < |g.reports| ==> Covers(g, s.t.jobs[g.id], events, b)
    requires Closed(s.t.jobs[g.id].state) || exists k :: 0 <= k < |events| && Lands(g, events[k])
    ensures var v := Handle(s, g.id, events[0], cfg);
      && g.id in v.t.jobs && Sound(g, v, cfg) && v.t.jobs[g.id].batchCount == |g.reports|
      && (forall b: nat :: b < |g.reports| ==> Closed(v.t.jobs[g.id].state) || Covers(g, v.t.jobs[g.id], events[1..], b))
      && (Closed(v.t.jobs[g.id].state) || exists k :: 0 <= k < |events[1..]| && Lands(g, events[1..][k]))
  {
    hide Handle, SoundRow, Lands, DeliveredRow, BatchCount;
    var e, j := events[0], s.t.jobs[g.id];
    HandlerGoesForward(g, s, e, cfg);
    var r := Handle(s, g.id, e, cfg).t.jobs[g.id];
    SoundRowAnyRemoved(g, j, s.removed, cfg);
    SoundRowAnyRemoved(g, r, Handle(s, g.id, e, cfg).removed, cfg);
    if !Closed(r.state) {
      if Lands(g, e) {
        IsDelivery(g, e);
        HandledRow(g, s, e, cfg);
        LandedRow(g, j, e, cfg);
      }
      forall b: nat | b < |g.reports| ensures Covers(g, r, events[1..], b) {
        CoveredLater(g, j, r, events, b);
      }
      if Lands(g, e) {
        var b :| b in Upto(|g.reports|) && b !in r.batchesDone;
        assert Covers(g, r, events[1..], b);
      } else {
        LandsLater(g, events);
      }
    }
  }

  lemma LandsLater(g: Purge, events: seq<Event>)
    requires events != [] && !Lands(g, events[0]) && exists k :: 0 <= k < |events| && Lands(g, events[k])
    ensures exists k :: 0 <= k < |events[1..]| && Lands(g, events[1..][k])
  {
    hide Lands;
    var k :| 0 <= k < |events| && Lands(g, events[k]);
    assert events[1..][k - 1] == events[k];
  }

  lemma IsDelivery(g: Purge, e: Event)
    requires Lands(g, e)
    ensures e.Deliver?
  {
  }

  lemma SoundRowAnyRemoved(g: Purge, j: Job, removed: set<JobId>, cfg: Config)
    requires SoundRow(g, j, removed, cfg)
    ensures SoundRow(g, j, {g.id}, cfg)
    ensures j.blocks == g.blocks && j.batchesDone <= Upto(|g.reports|)
  {
    hide InvalidIn;
  }

  lemma CoveredLater(g: Purge, j: Job, r: Job, events: seq<Event>, b: nat)
    requires events != [] && Covers(g, j, events, b) && j.batchesDone <= r.batchesDone
    requires Lands(g, events[0]) && events[0].c.batch == b ==> b in r.batchesDone
    ensures Covers(g, r, events[1..], b)
  {
    hide U32;
    if b !in r.batchesDone {
      var k :| 0 <= k < |events| && Lands(g, events[k]) && events[k].c.batch == b;
      assert events[1..][k - 1] == events[k];
    }
  }

  // If every batch is reported at least once by a delivery that lands, the job
  // gets past the decrement stage, in whatever order the completions come, however
  // often they repeat and whatever other handlers run or fail in between.
  lemma {:induction false} CoveredJobCloses(g: Purge, s: Progress, events: seq<Event>, cfg: Config)
    requires WellFormed(g) && Sound(g, s, cfg) && (forall e :: e in events ==> Concerns(g, e)) && g.id in s.t.jobs
    requires s.t.jobs[g.id].batchCount == |g.reports|
    requires Closed(s.t.jobs[g.id].state) || forall b: nat :: b < |g.reports| ==> Covers(g, s.t.jobs[g.id], events, b)
    requires Closed(s.t.jobs[g.id].state) || exists k :: 0 <= k < |events| && Lands(g, events[k])
    ensures g.id in History(g, s, events, cfg).t.jobs && Closed(History(g, s, events, cfg).t.jobs[g.id].state)
    decreases |events|
  {
    hide Handle, SoundRow, Lands, Covers, BatchCount;
    if Closed(s.t.jobs[g.id].state) {
      JobsOnlyAdvance(g, s, events, cfg);
    } else {
      FirstEvent(g, s, events, cfg);
      CoveredJobCloses(g, Handle(s, g.id, events[0], cfg), events[1..], cfg);
    }
  }

  // The completion sets a closed, unfailed job ends with.
  lemma ClosedSets(g: Purge, s: Progress, cfg: Config)
    requires WellFormed(g) && Sound(g, s, cfg) && g.id in s.t.jobs
    requires s.t.jobs[g.id].state.Decremented? || s.t.jobs[g.id].state.Complete?
    ensures s.t.jobs[g.id].batchesDone == Upto(|g.reports|)
    ensures s.t.jobs[g.id].invalidOps == InvalidIn(g.reports, Upto(|g.reports|))
  {
  }

  // Convergence: deliveries covering every batch, in any order and with any
  // repeats and failures, and then one recovery whose removal works, end with the
  // job COMPLETE, its metadata gone, and the one possible value of both
  // accounting sets; unless the attempts have run out and the job is FAILED.
  lemma EveryOrderConverges(g: Purge, s: Progress, events: seq<Event>, last: Event, cfg: Config)
    requires WellFormed(g) && Sound(g, s, cfg) && (forall e :: e in events ==> Concerns(g, e)) && g.id in s.t.jobs
    requires s.t.jobs[g.id].batchCount == |g.reports| && !Closed(s.t.jobs[g.id].state)
    requires forall b: nat :: b < |g.reports| ==> Covers(g, s.t.jobs[g.id], events, b)
    requires exists k :: 0 <= k < |events| && Lands(g, events[k])
    requires last.Sweep? && last.answers >= 4 && last.removes
    ensures var r := Handle(History(g, s, events, cfg), g.id, last, cfg);
      && g.id in r.t.jobs
      && var j := r.t.jobs[g.id];
      && (j.state.Failed? <==> j.attempts >= cfg.maxAttempts)
      && (j.state.Complete? <==> j.attempts < cfg.maxAttempts)
      && (j.state.Complete? ==>
            && g.id in r.removed
            && j.batchesDone == Upto(|g.reports|)
            && j.invalidOps == InvalidIn(g.reports, Upto(|g.reports|)))
  {
    hide Recovered, BatchCount, Covers, Lands, InvalidIn;
    CoveredJobCloses(g, s, events, cfg);
    var v := History(g, s, events, cfg);
    RecoveredRows(Begin(v, last.answers), g.id, last.now, last.reached, last.removes, cfg);
    HandlerGoesForward(g, v, last, cfg);
  }

  // A delivery that lands also has its removal work and its last mark written.
  predicate Finishes(e: Event) {
    e.Deliver? && e.answers >= 6 && e.removes
  }

  lemma HandlerNeverParks(g: Purge, s: Progress, e: Event, cfg: Config)
    requires WellFormed(g) && Sound(g, s, cfg) && Concerns(g, e) && g.id in s.t.jobs
    requires s.t.jobs[g.id].batchCount == |g.reports| && !s.t.jobs[g.id].state.Decremented?
    requires Lands(g, e) ==> Finishes(e)
    ensures var v := Handle(s, g.id, e, cfg);
      g.id in v.t.jobs && v.t.jobs[g.id].batchCount == |g.reports| && !v.t.jobs[g.id].state.Decremented?
  {
    hide Asked, Completed, Recovered, BatchCount, InvalidIn, U32, Saga.InvalidNote, AllDone;
    HandlerGoesForward(g, s, e, cfg);
    match e
    case Ask(blocks, trashed, now, answers, reached) =>
      AskedRows(Begin(s, answers), g.id, blocks, trashed, now, reached);
    case Deliver(c, delivery, answers, removes) => HandledRow(g, s, e, cfg);
    case Sweep(now, answers, reached, removes) =>
      RecoveredRows(Begin(s, answers), g.id, now, reached, removes, cfg);
  }

  lemma {:induction false} NeverParks(g: Purge, s: Progress, events: seq<Event>, cfg: Config)
    requires WellFormed(g) && Sound(g, s, cfg) && (forall e :: e in events ==> Concerns(g, e)) && g.id in s.t.jobs
    requires s.t.jobs[g.id].batchCount == |g.reports| && !s.t.jobs[g.id].state.Decremented?
    requires forall e :: e in events && Lands(g, e) ==> Finishes(e)
    ensures var r := History(g, s, events, cfg); g.id in r.t.jobs && !r.t.jobs[g.id].state.Decremented?
    decreases |events|
  {
    hide Handle, SoundRow, Lands, Finishes, Concerns;
    if events != [] {
      HandlerGoesForward(g, s, events[0], cfg);
      HandlerNeverParks(g, s, events[0], cfg);
      NeverParks(g, Handle(s, g.id, events[0], cfg), events[1..], cfg);
    }
  }

  // The ordinary path needs no recovery at all: when the removal works inside the
  // deliveries that land, covering every batch once is enough, in any order and
  // with anything else in between. The job ends COMPLETE with its metadata gone
  // and both accounting sets fixed, or FAILED with its attempts used up.
  lemma CoveredJobCompletesByItself(g: Purge, s: Progress, events: seq<Event>, cfg: Config)
    requires WellFormed(g) && Sound(g, s, cfg) && (forall e :: e in events ==> Concerns(g, e)) && g.id in s.t.jobs
    requires s.t.jobs[g.id].batchCount == |g.reports| && !Closed(s.t.jobs[g.id].state)
    requires forall b: nat :: b < |g.reports| ==> Covers(g, s.t.jobs[g.id], events, b)
    requires exists k :: 0 <= k < |events| && Lands(g, events[k])
    requires forall e :: e in events && Lands(g, e) ==> Finishes(e)
    ensures var r := History(g, s, events, cfg);
      && g.id in r.t.jobs
      && var j := r.t.jobs[g.id];
      && (j.state.Complete? || (j.state.Failed? && j.attempts >= cfg.maxAttempts))
      && (j.state.Complete? ==>
            && g.id in r.removed
            && j.batchesDone == Upto(|g.reports|)
            && j.invalidOps == InvalidIn(g.reports, Upto(|g.reports|)))
  {
    hide BatchCount, Covers, Lands, Finishes, InvalidIn;
    CoveredJobCloses(g, s, events, cfg);
    NeverParks(g, s, events, cfg);
  }

  // Two runs of the same job that both complete agree on its accounting.
  lemma CompletedRunsAgree(g: Purge, s: Progress, one: seq<Event>, other: seq<Event>, cfg: Config)
    requires WellFormed(g) && Sound(g, s, cfg)
    requires (forall e :: e in one ==> Concerns(g, e)) && (forall e :: e in other ==> Concerns(g, e))
    requires g.id in History(g, s, one, cfg).t.jobs && History(g, s, one, cfg).t.jobs[g.id].state.Complete?
    requires g.id in History(g, s, other, cfg).t.jobs && History(g, s, other, cfg).t.jobs[g.id].state.Complete?
    ensures var a, b := History(g, s, one, cfg).t.jobs[g.id], History(g, s, other, cfg).t.jobs[g.id];
      a.batchesDone == b.batchesDone && a.invalidOps == b.invalidOps
  {
    ClosedSets(g, History(g, s, one, cfg), cfg);
    ClosedSets(g, History(g, s, other, cfg), cfg);
  }
}
