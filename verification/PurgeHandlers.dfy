// services/metadata/internal/purge/coordinator.go and sweeper.go with each
// request, completion and recovery run from start to end: what one of them does
// to the tables, whatever fails on the way, and what any sequence of them ends in.
module PurgeHandlers {
  import opened Common
  import opened PurgeBatches
  import opened PurgeTables
  import opened SweepWindow
  import Saga = PurgeSaga

  // Where a handler stands: the tables, the jobs whose metadata is gone, the
  // messages on the stream, how many more statements the database will answer, and
  // whether all went well so far.
  datatype Progress = Progress(t: Tables, removed: set<JobId>, stream: seq<Message>, answers: nat, ok: bool)

  // How often a completion without a job row is retried before it is dropped.
  const ORPHAN_RETRIES := 3

  const PUBLISH_ERROR := "republish failed"
  const REMOVAL_ERROR := "metadata removal failed"

  // ---------------------------------------------------------------- effects

  // One statement that only reads.
  function Read(s: Progress): Progress {
    if s.answers == 0 then s.(ok := false) else s.(answers := s.answers - 1)
  }

  // One statement that leaves these tables behind.
  function Wrote(s: Progress, t: Tables): Progress {
    if s.answers == 0 then s.(ok := false) else s.(t := t, answers := s.answers - 1)
  }

  function Updated(s: Progress, job: Job, state: JobState, lastError: string): (r: Progress)
    requires job.id in s.t.jobs
    ensures r.t.jobs.Keys == s.t.jobs.Keys
  {
    var row := Wrote(s, WriteState(s.t, job.id, state, lastError));
    if row.ok then Wrote(row, ReflectState(row.t, job, state)) else row
  }

  // RemoveMetadataAndComplete
  function Finished(s: Progress, job: Job, removes: bool): (r: Progress)
    requires job.id in s.t.jobs
    ensures r.t.jobs.Keys == s.t.jobs.Keys
  {
    if job.state.Complete? then s
    else if !removes then s.(ok := false)
    else Updated(s.(removed := s.removed + {job.id}), job, Complete, job.lastError)
  }

  // The batches below n that a publish of this job offers to the stream: all of
  // them the first time, the unrecorded ones in a re-drive.
  function Below(job: Job, n: nat, attempt: Option<nat>): seq<nat> {
    if attempt.Some? then Missing(n, job.batchesDone) else FirstNats(n)
  }

  // The stream takes the messages of the batches below `reached`, where the loop
  // over `count` batches ends or breaks off.
  function Offered(s: Progress, job: Job, count: nat, attempt: Option<nat>, reached: nat): Progress {
    s.(stream := s.stream + Offers(job.id, job.blocks, count, Below(job, Min(reached, count), attempt), attempt),
       ok := reached >= count)
  }

  // publishRequestV2
  function FullyPublished(s: Progress, job: Job, reached: nat): (r: Progress)
    requires job.id in s.t.jobs
    ensures r.t.jobs.Keys == s.t.jobs.Keys
  {
    var count := BatchCount(|job.blocks|);
    var counted := Wrote(s, WriteBatchCount(s.t, job.id, count));
    if counted.ok then Offered(counted, job, count, None, reached) else counted
  }

  // PublishRequest
  function Republished(s: Progress, job: Job, attempt: nat, reached: nat): (r: Progress)
    requires job.id in s.t.jobs
    ensures r.t.jobs.Keys == s.t.jobs.Keys
  {
    if job.batchCount == 0 then FullyPublished(s, job, reached)
    else Offered(s, job, job.batchCount, Some(attempt), reached)
  }

  // A loop over a job's batches can get this far: every batch it offers is there
  // and its hashes decode.
  ghost predicate Reachable(job: Job, count: nat, attempt: Option<nat>, reached: nat) {
    && reached <= count
    && forall b: nat :: b < reached && (attempt.Some? ==> b !in job.batchesDone) ==>
         Decodes(job.blocks, b) && (attempt.Some? ==> Lo(b) < |job.blocks|)
  }

  // The loop that PublishRequest runs for this job.
  ghost predicate PublishReaches(job: Job, attempt: nat, reached: nat) {
    if job.batchCount == 0 then Reachable(job, BatchCount(|job.blocks|), None, reached)
    else Reachable(job, job.batchCount, Some(attempt), reached)
  }

  // handleCompletion acknowledges without looking further.
  predicate Closed(state: JobState) {
    state.Complete? || state.Decremented? || state.Failed?
  }

  predicate Mismatched(job: Job, c: Saga.Completion) {
    c.count > 0 && job.batchCount > 0 && c.count != U32(job.batchCount)
  }

  // handleCompletion; ok stands for Ack, anything else for a retry.
  function Completed(s: Progress, c: Saga.Completion, delivery: nat, removes: bool): Progress
    requires s.ok && forall id :: id in s.t.jobs ==> s.t.jobs[id].id == id
  {
    var loaded := Read(s);
    if !loaded.ok then loaded
    else if c.job !in s.t.jobs then loaded.(ok := delivery > ORPHAN_RETRIES)
    else
      var job := s.t.jobs[c.job];
      if Closed(job.state) then loaded
      else if Mismatched(job, c) then loaded.(ok := false)
      else
        var added := Wrote(loaded, AddBatch(s.t, c.job, c.batch, c.invalid));
        var checked := if added.ok then Read(added) else added;
        if !checked.ok || !AllDone(checked.t.jobs[c.job]) then checked
        else
          var advanced := Updated(checked, job, Decremented, Saga.InvalidNote(job));
          if advanced.ok then Finished(advanced, job.(state := Decremented), removes) else advanced
  }

  // Sweeper.dispatch
  function Dispatched(s: Progress, job: Job, reached: nat, removes: bool, cfg: Config): Progress
    requires s.ok && job.id in s.t.jobs
  {
    if job.attempts >= cfg.maxAttempts then Updated(s, job, Failed, Saga.ExhaustedNote(job, cfg))
    else
      match job.state
      case Pending =>
        var p := Republished(s, job, job.attempts, reached);
        if p.ok then Updated(p, job, Requested, job.lastError) else Noted(p, job, PUBLISH_ERROR)
      case Requested =>
        var p := Republished(s, job, job.attempts, reached);
        if p.ok then p else Noted(p, job, PUBLISH_ERROR)
      case Decremented =>
        var p := Finished(s, job, removes);
        if p.ok then p else Noted(p, job, REMOVAL_ERROR)
      case Failed => s
      case Complete => s
  }

  // recordErr, after a dispatch that failed.
  function Noted(s: Progress, job: Job, lastError: string): Progress
    requires job.id in s.t.jobs
  {
    Wrote(s, WriteError(s.t, job.id, lastError)).(ok := false)
  }

  // Sweeper.recover
  function Recovered(s: Progress, id: JobId, now: int, reached: nat, removes: bool, cfg: Config): Progress
    requires s.ok && forall k :: k in s.t.jobs ==> s.t.jobs[k].id == k
  {
    var peeked := Read(s);
    if !peeked.ok || id !in s.t.jobs then peeked
    else
      var attempts := s.t.jobs[id].attempts;
      var claimed := Wrote(peeked, Claim(s.t, id, attempts, now + Backoff(attempts, cfg)));
      var loaded := if claimed.ok then Read(claimed) else claimed;
      if loaded.ok then Dispatched(loaded, loaded.t.jobs[id], reached, removes, cfg) else loaded
  }

  // Coordinator.Request, for a file that is in the trash if `trashed`.
  function Asked(s: Progress, id: JobId, blocks: seq<string>, trashed: bool, now: int, reached: nat): Progress
    requires s.ok && forall k :: k in s.t.jobs ==> s.t.jobs[k].id == k
  {
    if !trashed then s.(ok := false)
    else
      var job := FreshJob(id, blocks, now);
      var inserted := Wrote(s, InsertJob(s.t, job));
      if !inserted.ok then inserted
      else if id in s.t.jobs then
        var found := Read(inserted);
        if !found.ok || Closed(s.t.jobs[id].state) then found else Advanced(found, s.t.jobs[id], reached)
      else
        var indexed := Wrote(inserted, PutActive(inserted.t, job, Pending));
        if indexed.ok then Advanced(indexed, job, reached) else indexed
  }

  function Advanced(s: Progress, job: Job, reached: nat): Progress
    requires job.id in s.t.jobs
  {
    var p := FullyPublished(s, job, reached);
    if p.ok && job.state.Pending? then Updated(p, job, Requested, "") else p
  }

  // ---------------------------------------------------------------- handlers

  ghost predicate Named(t: Tables) {
    forall id :: id in t.jobs ==> t.jobs[id].id == id
  }

  class Coordinator {
    const repo: PurgeRepo
    const bus: Bus
    var removed: set<JobId>

    constructor (repo: PurgeRepo, bus: Bus)
      ensures this.repo == repo && this.bus == bus && removed == {}
    {
      this.repo := repo;
      this.bus := bus;
      removed := {};
    }

    ghost function Now(ok: bool): Progress
      reads this, repo, bus
    {
      Progress(repo.View(), removed, bus.stream, repo.answered, ok)
    }

    method RemoveMetadataAndComplete(job: Job, removes: bool) returns (ok: bool)
      requires job.id in repo.jobs
      modifies this, repo
      ensures Now(ok) == Finished(old(Now(true)), job, removes)
    {
      if job.state == Complete {
        return true;
      }
      if !removes {
        return false;
      }
      removed := removed + {job.id};
      ok := repo.UpdateState(job, Complete, job.lastError);
    }

    // Nothing is offered to the stream before the count is recorded; then the
    // leading batches are, up to one that does not decode or that the stream refuses.
    method PublishRequestV2(job: Job) returns (ok: bool, ghost reached: nat)
      requires job.id in repo.jobs
      modifies repo, bus
      ensures Now(ok) == FullyPublished(old(Now(true)), job, reached)
      ensures Reachable(job, BatchCount(|job.blocks|), None, reached)
      ensures old(repo.answered) == 0 ==> bus.stream == old(bus.stream)
      ensures old(repo.answered) > 0 && !ok ==> !Decodes(job.blocks, reached) || bus.accepts == 0
    {
      hide MessagesOf;
      reached := 0;
      ok := repo.SetBatchCount(job.id, BatchCount(|job.blocks|));
      if !ok {
        return;
      }
      var r;
      ghost var messages;
      r, messages := PublishAll(bus, job.id, job.blocks);
      ok := r.Published?;
      reached := |messages|;
      MessagesAreTheOffers(messages, job.id, job.blocks, BatchCount(|job.blocks|), FirstNats(reached), None);
      forall b: nat | b < reached ensures Decodes(job.blocks, b) {
        assert FirstNats(reached)[b] in FirstNats(reached);
      }
    }

    // The unrecorded batches in order, under ids that carry the attempt, up to one
    // that cannot be built or that the stream refuses.
    method PublishRequestRedrive(job: Job, attempt: nat) returns (ok: bool, ghost reached: nat)
      modifies bus
      ensures Now(ok) ==
        if job.batchCount == 0 then old(Now(false)) else Offered(old(Now(true)), job, job.batchCount, Some(attempt), reached)
      ensures Reachable(job, job.batchCount, Some(attempt), reached)
      ensures job.batchCount > 0 && !ok ==>
        reached !in job.batchesDone
        && (!Decodes(job.blocks, reached) || Lo(reached) >= |job.blocks| || bus.accepts == 0)
    {
      hide MessagesOf, Decodes, Lo, Offers;
      var r;
      ghost var messages;
      r, messages, reached := Redrive(bus, job.id, job.blocks, job.batchCount, job.batchesDone, attempt);
      ok := r.Published?;
      MessagesAreTheOffers(messages, job.id, job.blocks, job.batchCount, Missing(reached, job.batchesDone), Some(attempt));
    }

    method PublishRequest(job: Job, attempt: nat) returns (ok: bool, ghost reached: nat)
      requires job.id in repo.jobs
      modifies repo, bus
      ensures Now(ok) == Republished(old(Now(true)), job, attempt, reached)
      ensures PublishReaches(job, attempt, reached)
    {
      hide Offered, FullyPublished, Reachable;
      if job.batchCount <= 0 {
        ok, reached := PublishRequestV2(job);
      } else {
        ok, reached := PublishRequestRedrive(job, attempt);
      }
    }

    method HandleCompletion(c: Saga.Completion, delivery: nat, removes: bool) returns (acked: bool)
      requires Named(repo.View())
      modifies this, repo
      ensures Now(acked) == Completed(old(Now(true)), c, delivery, removes)
    {
      hide Finished, Saga.InvalidNote, U32;
      var ok, found := repo.Get(c.job);
      if !ok {
        return false;
      }
      if found.None? {
        return delivery > ORPHAN_RETRIES;
      }
      var job := found.value;
      if job.state == Complete || job.state == Decremented || job.state == Failed {
        return true;
      }
      if c.count > 0 && job.batchCount > 0 && c.count != U32(job.batchCount) {
        return false;
      }
      var allDone;
      ok, allDone := repo.RecordBatch(job.id, c.batch, c.invalid);
      if !ok {
        return false;
      }
      if !allDone {
        return true;
      }
      var lastError := Saga.InvalidNote(job);
      ok := repo.UpdateState(job, Decremented, lastError);
      if !ok {
        return false;
      }
      acked := RemoveMetadataAndComplete(job.(state := Decremented), removes);
    }

    method Request(id: JobId, blocks: seq<string>, trashed: bool, now: int) returns (ok: bool, ghost reached: nat)
      requires Named(repo.View())
      modifies this, repo, bus
      ensures Now(ok) == Asked(old(Now(true)), id, blocks, trashed, now, reached)
      ensures Reachable(if id in old(repo.jobs) then old(repo.jobs)[id] else FreshJob(id, blocks, now),
                        BatchCount(if id in old(repo.jobs) then |old(repo.jobs)[id].blocks| else |blocks|), None, reached)
      // Nothing is offered to the stream unless the row was there or made, and counted.
      ensures !trashed || old(repo.answered) < 3 || (id in old(repo.jobs) && Closed(old(repo.jobs)[id].state))
        ==> bus.stream == old(bus.stream)
    {
      hide FullyPublished, ReflectState, Offers, Decodes, BatchCount;
      reached := 0;
      if !trashed {
        return false, reached;
      }
      var job, created;
      ok, job, created := repo.Create(id, blocks, now);
      if !ok {
        return;
      }
      if !created && job.state != Pending && job.state != Requested {
        return;
      }
      ok, reached := PublishRequestV2(job);
      if !ok {
        return;
      }
      if job.state == Pending {
        ok := repo.UpdateState(job, Requested, "");
      }
    }

    method Dispatch(job: Job, removes: bool, cfg: Config) returns (ok: bool, ghost reached: nat)
      requires job.id in repo.jobs
      modifies this, repo, bus
      ensures Now(ok) == Dispatched(old(Now(true)), job, reached, removes, cfg)
      ensures PublishReaches(job, job.attempts, reached)
      ensures job.attempts >= cfg.maxAttempts || (!job.state.Pending? && !job.state.Requested?) ==> bus.stream == old(bus.stream)
    {
      hide Republished, Finished, ReflectState, Saga.ExhaustedNote;
      reached := 0;
      if job.attempts >= cfg.maxAttempts {
        ok := repo.UpdateState(job, Failed, Saga.ExhaustedNote(job, cfg));
        return;
      }
      match job.state
      case Pending =>
        ok, reached := PublishRequest(job, job.attempts);
        if !ok {
          var _ := repo.RecordError(job.id, PUBLISH_ERROR);
          return;
        }
        ok := repo.UpdateState(job, Requested, job.lastError);
      case Requested =>
        ok, reached := PublishRequest(job, job.attempts);
        if !ok {
          var _ := repo.RecordError(job.id, PUBLISH_ERROR);
        }
      case Decremented =>
        ok := RemoveMetadataAndComplete(job, removes);
        if !ok {
          var _ := repo.RecordError(job.id, REMOVAL_ERROR);
        }
      case Failed => ok := true;
      case Complete => ok := true;
    }

    method Recover(id: JobId, now: int, removes: bool, cfg: Config) returns (ok: bool, ghost reached: nat)
      requires Named(repo.View())
      modifies this, repo, bus
      ensures Now(ok) == Recovered(old(Now(true)), id, now, reached, removes, cfg)
      ensures id in old(repo.jobs) ==> PublishReaches(old(repo.jobs)[id], old(repo.jobs)[id].attempts + 1, reached)
      // Nothing is offered to the stream without the claim, past the gate, or in a
      // state that has nothing left to publish.
      ensures id !in old(repo.jobs) || old(repo.answered) < 3 || old(repo.jobs)[id].attempts + 1 >= cfg.maxAttempts
        || (!old(repo.jobs)[id].state.Pending? && !old(repo.jobs)[id].state.Requested?)
        ==> bus.stream == old(bus.stream)
    {
      hide Dispatched, Backoff;
      reached := 0;
      var pre;
      ok, pre := repo.Get(id);
      if !ok || pre.None? {
        return;
      }
      var delay := ComputeBackoff(pre.value.attempts, cfg);
      var applied;
      ok, applied := repo.ClaimJob(id, pre.value.attempts, now + delay);
      if !ok || !applied {
        return;
      }
      var job;
      ok, job := repo.Get(id);
      if !ok {
        return;
      }
      ok, reached := Dispatch(job.value, removes, cfg);
    }
  }
}
