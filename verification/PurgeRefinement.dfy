// A request, a completion or a recovery handled from start to end does to the
// tables and the stream what some number of single statements of the machine do,
// after which the process dies: so what holds at every moment of the machine holds
// between whole handlers too.
module PurgeRefinement {
  import opened Common
  import opened PurgeBatches
  import opened PurgeTables
  import opened SweepWindow
  import opened PurgeSaga
  import H = PurgeHandlers

  // Process p takes its next n statements, or as many as it has.
  function Drive(w: World, p: nat, n: nat, cfg: Config): World {
    if n == 0 then w
    else
      var v := Drive(w, p, n - 1, cfg);
      if p in v.procs then Execute(v, p, v.procs[p], cfg) else v
  }

  // The requests that messages carry.
  function Bodies(messages: seq<Message>): set<Request> {
    set m | m in messages :: m.body
  }

  // The machine stands where the handler does; `base` is what the stream had
  // accepted before.
  ghost predicate Matches(base: set<Request>, w: World, r: H.Progress) {
    w.t == r.t && w.removed == r.removed && w.published == base + Bodies(r.stream)
  }

  function Start(w: World, answers: nat): H.Progress {
    H.Progress(w.t, w.removed, [], answers, true)
  }

  lemma {:induction false} DriveOn(w: World, p: nat, m: nat, n: nat, cfg: Config)
    ensures Drive(w, p, m + n, cfg) == Drive(Drive(w, p, m, cfg), p, n, cfg)
  {
    hide Execute;
    if n > 0 {
      DriveOn(w, p, m, n - 1, cfg);
    }
  }

  lemma DriveOnce(w: World, p: nat, cfg: Config)
    requires p in w.procs
    ensures Drive(w, p, 1, cfg) == Execute(w, p, w.procs[p], cfg)
  {
    hide Execute;
    assert Drive(w, p, 0, cfg) == w;
  }

  // The first statement, and then n more.
  lemma DriveFrom(w: World, p: nat, n: nat, cfg: Config)
    requires p in w.procs
    ensures Drive(w, p, 1 + n, cfg) == Drive(Execute(w, p, w.procs[p], cfg), p, n, cfg)
  {
    hide Execute;
    DriveOnce(w, p, cfg);
    DriveOn(w, p, 1, n, cfg);
  }

  // UpdateState is two statements, of which the first `answers` are taken.
  lemma UpdateIsStatements(base: set<Request>, w: World, p: nat, job: Job, state: JobState, lastError: string, s: H.Progress, cfg: Config)
      returns (n: nat)
    requires p in w.procs && w.procs[p] == Writing(job, state, lastError) && job.id in w.t.jobs
    requires Matches(base, w, s) && s.ok
    ensures Matches(base, Drive(w, p, n, cfg), H.Updated(s, job, state, lastError))
    ensures s.answers >= 2 ==> n == 2
    ensures s.answers >= 2 && state.Decremented? ==>
      p in Drive(w, p, n, cfg).procs && Drive(w, p, n, cfg).procs[p] == Removing(job.(state := Decremented))
  {
    hide Insert, Index, Reread, Count, Publish, Remove, Load, Record, Check, Peek, ClaimIt, DispatchIt;
    var w1 := Write(w, p, job, state, lastError);
    n := Min(s.answers, 2);
    assert Drive(w, p, 0, cfg) == w;
    DriveOnce(w, p, cfg);
    if s.answers >= 2 {
      DriveFrom(w, p, 1, cfg);
      DriveOnce(w1, p, cfg);
    }
  }

  // RemoveMetadataAndComplete
  lemma FinishIsStatements(base: set<Request>, w: World, p: nat, job: Job, s: H.Progress, removes: bool, cfg: Config) returns (n: nat)
    requires p in w.procs && w.procs[p] == Removing(job) && job.id in w.t.jobs
    requires Matches(base, w, s) && s.ok
    ensures Matches(base, Drive(w, p, n, cfg), H.Finished(s, job, removes))
  {
    hide Insert, Index, Reread, Count, Publish, Write, List, Load, Record, Check, Peek, ClaimIt, DispatchIt;
    hide H.Updated;
    n := 0;
    assert Drive(w, p, 0, cfg) == w;
    if !job.state.Complete? && removes {
      var w1 := Remove(w, p, job);
      var m := UpdateIsStatements(base, w1, p, job, Complete, job.lastError, s.(removed := s.removed + {job.id}), cfg);
      DriveFrom(w, p, m, cfg);
      n := 1 + m;
    }
  }

  // The end of handleCompletion, once the last batch is recorded.
  lemma AdvanceIsStatements(base: set<Request>, w: World, p: nat, job: Job, s: H.Progress, removes: bool, cfg: Config) returns (n: nat)
    requires p in w.procs && w.procs[p] == Writing(job, Decremented, InvalidNote(job)) && job.id in w.t.jobs
    requires Matches(base, w, s) && s.ok
    ensures var advanced := H.Updated(s, job, Decremented, InvalidNote(job));
      Matches(base, Drive(w, p, n, cfg), if advanced.ok then H.Finished(advanced, job.(state := Decremented), removes) else advanced)
  {
    hide Insert, Index, Reread, Count, Publish, Write, List, Remove, Load, Record, Check, Peek, ClaimIt, DispatchIt;
    hide H.Finished, InvalidNote;
    n := UpdateIsStatements(base, w, p, job, Decremented, InvalidNote(job), s, cfg);
    var advanced := H.Updated(s, job, Decremented, InvalidNote(job));
    if advanced.ok {
      assert s.answers >= 2;
      var v := Drive(w, p, n, cfg);
      var m := FinishIsStatements(base, v, p, job.(state := Decremented), advanced, removes, cfg);
      DriveOn(w, p, n, m, cfg);
      n := n + m;
    }
  }

  // handleCompletion, from the load on, with whatever failing on the way.
  lemma CompletionIsStatements(base: set<Request>, w: World, p: nat, c: Completion, delivery: nat, answers: nat, removes: bool, cfg: Config)
      returns (n: nat)
    requires p in w.procs && w.procs[p] == Loading(c) && H.Named(w.t) && base == w.published
    ensures Matches(base, Drive(w, p, n, cfg), H.Completed(Start(w, answers), c, delivery, removes))
  {
    hide Insert, Index, Reread, Count, Publish, Write, List, Remove, Record, Check, Peek, ClaimIt, DispatchIt;
    hide H.Updated, H.Finished, InvalidNote, AllDone, U32;
    n := 0;
    assert Drive(w, p, 0, cfg) == w;
    if answers == 0 {
      return;
    }
    n := 1;
    DriveOnce(w, p, cfg);
    var w1 := Load(w, p, c);
    if answers >= 2 && p in w1.procs {
      var job := w.t.jobs[c.job];
      var m := RecordIsStatements(base, w1, p, job, c, Start(w, answers - 1), removes, cfg);
      DriveFrom(w, p, m, cfg);
      n := 1 + m;
    }
  }

  // RecordBatch and what follows it.
  lemma RecordIsStatements(base: set<Request>, w: World, p: nat, job: Job, c: Completion, s: H.Progress, removes: bool, cfg: Config) returns (n: nat)
    requires p in w.procs && w.procs[p] == Recording(job, c) && job.id in w.t.jobs
    requires Matches(base, w, s) && s.ok && s.answers >= 1
    ensures var added := H.Wrote(s, AddBatch(s.t, job.id, c.batch, c.invalid));
      var checked := H.Read(added);
      Matches(base, Drive(w, p, n, cfg),
              if !checked.ok || !AllDone(checked.t.jobs[job.id]) then checked
              else
                var advanced := H.Updated(checked, job, Decremented, InvalidNote(job));
                if advanced.ok then H.Finished(advanced, job.(state := Decremented), removes) else advanced)
  {
    hide Insert, Index, Reread, Count, Publish, Write, List, Remove, Load, Peek, ClaimIt, DispatchIt;
    hide H.Updated, H.Finished, InvalidNote, AllDone;
    n := 1;
    DriveOnce(w, p, cfg);
    var w1 := Record(w, p, job, c);
    if s.answers >= 2 {
      DriveFrom(w, p, 1, cfg);
      DriveOnce(w1, p, cfg);
      n := 2;
      var w2 := Check(w1, p, job);
      if p in w2.procs {
        var checked := H.Read(H.Wrote(s, AddBatch(s.t, job.id, c.batch, c.invalid)));
        var m := AdvanceIsStatements(base, w2, p, job, checked, removes, cfg);
        DriveOn(w, p, 2, m, cfg);
        n := 2 + m;
      }
    }
  }

  // ---------------------------------------------------------------- publishing

  lemma BodiesAppend(xs: seq<Message>, ys: seq<Message>)
    ensures Bodies(xs + ys) == Bodies(xs) + Bodies(ys)
  {
  }

  function Loop(job: Job, count: nat, attempt: Option<nat>, reached: nat): seq<Message> {
    Offers(job.id, job.blocks, count, H.Below(job, reached, attempt), attempt)
  }

  // What one more round of the loop offers.
  lemma LoopStep(job: Job, count: nat, attempt: Option<nat>, b: nat)
    ensures Loop(job, count, attempt, b + 1) == Loop(job, count, attempt, b) +
      (if (attempt.Some? && b in job.batchesDone) || !Decodes(job.blocks, b) then []
       else [MessageOf(job.id, job.blocks, count, b, attempt).value])
    ensures Loop(job, count, attempt, 0) == []
  {
    hide MessageOf, Decodes;
    var longer, shorter := H.Below(job, b + 1, attempt), H.Below(job, b, attempt);
    if attempt.Some? && b in job.batchesDone {
      assert longer == shorter;
    } else {
      assert longer == shorter + [b];
      assert longer[..|longer| - 1] == shorter;
    }
  }

  // Where the loop stands after n of its rounds.
  ghost predicate InLoop(w: World, v: World, p: nat, job: Job, n: nat, count: nat, attempt: Option<nat>, advance: Option<string>) {
    && p in v.procs && v.procs[p] == Publishing(job, n, count, attempt, advance)
    && v.t == w.t && v.removed == w.removed
    && v.published == w.published + Bodies(Loop(job, count, attempt, n))
  }

  // A round is one statement.
  lemma LoopRound(w: World, v: World, p: nat, job: Job, n: nat, count: nat, attempt: Option<nat>, advance: Option<string>, cfg: Config)
    requires InLoop(w, v, p, job, n, count, attempt, advance) && H.Reachable(job, count, attempt, n + 1)
    ensures InLoop(w, Execute(v, p, v.procs[p], cfg), p, job, n + 1, count, attempt, advance)
  {
    hide MessageOf, Loop, BatchOps;
    LoopStep(job, count, attempt, n);
    if !(attempt.Some? && n in job.batchesDone) {
      LastDecodes(job.id, job.blocks, count, n, attempt);
      BodiesAppend(Loop(job, count, attempt, n), [MessageOf(job.id, job.blocks, count, n, attempt).value]);
    }
  }

  lemma {:induction false} LoopIsStatements(w: World, p: nat, job: Job, n: nat, count: nat, attempt: Option<nat>, advance: Option<string>, cfg: Config)
    requires p in w.procs && w.procs[p] == Publishing(job, 0, count, attempt, advance)
    requires H.Reachable(job, count, attempt, n)
    ensures InLoop(w, Drive(w, p, n, cfg), p, job, n, count, attempt, advance)
  {
    hide Execute, InLoop, Decodes, Lo;
    if n == 0 {
      LoopStarts(w, p, job, count, attempt, advance);
    } else {
      LoopIsStatements(w, p, job, n - 1, count, attempt, advance, cfg);
      var v := Drive(w, p, n - 1, cfg);
      InLoopRuns(w, v, p, job, n - 1, count, attempt, advance);
      LoopRound(w, v, p, job, n - 1, count, attempt, advance, cfg);
    }
  }

  lemma LoopStarts(w: World, p: nat, job: Job, count: nat, attempt: Option<nat>, advance: Option<string>)
    requires p in w.procs && w.procs[p] == Publishing(job, 0, count, attempt, advance)
    ensures InLoop(w, w, p, job, 0, count, attempt, advance)
  {
    LoopStep(job, count, attempt, 0);
  }

  lemma InLoopRuns(w: World, v: World, p: nat, job: Job, n: nat, count: nat, attempt: Option<nat>, advance: Option<string>)
    requires InLoop(w, v, p, job, n, count, attempt, advance)
    ensures p in v.procs
  {
  }

  // The loop, and what follows it: the state moves to DECREMENT_REQUESTED if the
  // caller asked for that.
  lemma OfferIsStatements(base: set<Request>, w: World, p: nat, job: Job, count: nat, attempt: Option<nat>, advance: Option<string>,
                          s: H.Progress, reached: nat, cfg: Config) returns (n: nat)
    requires p in w.procs && w.procs[p] == Publishing(job, 0, count, attempt, advance) && job.id in w.t.jobs
    requires Matches(base, w, s) && s.ok && H.Reachable(job, count, attempt, reached)
    ensures var r := H.Offered(s, job, count, attempt, reached);
      Matches(base, Drive(w, p, n, cfg),
              if r.ok && advance.Some? then H.Updated(r, job, Requested, advance.value) else r)
  {
    hide H.Updated, Loop, Decodes, Lo, Offers, Execute, H.Below;
    var r := H.Offered(s, job, count, attempt, reached);
    LoopIsStatements(w, p, job, reached, count, attempt, advance, cfg);
    var v := Drive(w, p, reached, cfg);
    BodiesAppend(s.stream, Loop(job, count, attempt, reached));
    LoopIsTheOffers(job, count, attempt, reached);
    n := reached;
    if r.ok && advance.Some? {
      EndOfLoop(v, p, job, count, attempt, advance, cfg);
      DriveOnce(v, p, cfg);
      var u := Execute(v, p, v.procs[p], cfg);
      var m := UpdateIsStatements(base, u, p, job, Requested, advance.value, r, cfg);
      DriveOn(w, p, reached, 1, cfg);
      DriveOn(w, p, reached + 1, m, cfg);
      n := reached + 1 + m;
    }
  }

  lemma LoopIsTheOffers(job: Job, count: nat, attempt: Option<nat>, reached: nat)
    ensures Loop(job, count, attempt, reached) == Offers(job.id, job.blocks, count, H.Below(job, reached, attempt), attempt)
  {
  }

  lemma EndOfLoop(v: World, p: nat, job: Job, count: nat, attempt: Option<nat>, advance: Option<string>, cfg: Config)
    requires p in v.procs && v.procs[p] == Publishing(job, count, count, attempt, advance) && advance.Some?
    ensures Execute(v, p, v.procs[p], cfg) == v.(procs := v.procs[p := Writing(job, Requested, advance.value)])
  {
  }

  // publishRequestV2 and what follows it.
  lemma CountIsStatements(base: set<Request>, w: World, p: nat, job: Job, advance: Option<string>, s: H.Progress, reached: nat, cfg: Config)
      returns (n: nat)
    requires p in w.procs && w.procs[p] == Counting(job, advance) && job.id in w.t.jobs
    requires Matches(base, w, s) && s.ok && H.Reachable(job, BatchCount(|job.blocks|), None, reached)
    ensures var r := H.FullyPublished(s, job, reached);
      Matches(base, Drive(w, p, n, cfg),
              if r.ok && advance.Some? then H.Updated(r, job, Requested, advance.value) else r)
  {
    hide Insert, Index, Reread, Publish, Write, List, Remove, Load, Record, Check, Peek, ClaimIt, DispatchIt;
    hide H.Updated, H.Offered, H.Reachable, BatchCount;
    n := 0;
    assert Drive(w, p, 0, cfg) == w;
    if s.answers > 0 {
      var w1 := Count(w, p, job, advance);
      var counted := H.Wrote(s, WriteBatchCount(s.t, job.id, BatchCount(|job.blocks|)));
      var m := OfferIsStatements(base, w1, p, job, BatchCount(|job.blocks|), None, advance, counted, reached, cfg);
      DriveFrom(w, p, m, cfg);
      n := 1 + m;
    }
  }

  // ---------------------------------------------------------------- requests

  // A request that publishes: the loop, and the move to DECREMENT_REQUESTED of a
  // pending job.
  lemma AdvanceRequest(base: set<Request>, w: World, p: nat, job: Job, s: H.Progress, reached: nat, cfg: Config) returns (n: nat)
    requires p in w.procs && job.id in w.t.jobs && (job.state.Pending? || job.state.Requested?)
    requires w.procs[p] == Counting(job, if job.state.Pending? then Some("") else None)
    requires Matches(base, w, s) && s.ok && H.Reachable(job, BatchCount(|job.blocks|), None, reached)
    ensures Matches(base, Drive(w, p, n, cfg), H.Advanced(s, job, reached))
  {
    hide H.Updated, H.FullyPublished, H.Reachable, BatchCount;
    n := CountIsStatements(base, w, p, job, if job.state.Pending? then Some("") else None, s, reached, cfg);
  }

  // Coordinator.Request for a file in the trash, from the insert on, of a new job.
  lemma NewRequestIsStatements(w: World, p: nat, job: Job, blocks: seq<string>, now: int, answers: nat, reached: nat, cfg: Config)
      returns (n: nat)
    requires H.Named(w.t) && p in w.procs && job == FreshJob(job.id, blocks, now) && w.procs[p] == Inserting(job)
    requires job.id !in w.t.jobs && H.Reachable(job, BatchCount(|blocks|), None, reached)
    ensures Matches(w.published, Drive(w, p, n, cfg), H.Asked(Start(w, answers), job.id, blocks, true, now, reached))
  {
    hide Reread, Count, Publish, Write, List, Remove, Load, Record, Check, Peek, ClaimIt, DispatchIt;
    hide H.Advanced, H.Reachable, BatchCount;
    n := Min(answers, 1);
    assert Drive(w, p, 0, cfg) == w;
    DriveOnce(w, p, cfg);
    if answers >= 2 {
      var w1 := Insert(w, p, job);
      var w2 := Index(w1, p, job);
      DriveFrom(w, p, 1, cfg);
      DriveOnce(w1, p, cfg);
      var m := AdvanceRequest(w.published, w2, p, job, H.Progress(w2.t, w2.removed, [], answers - 2, true), reached, cfg);
      DriveOn(w, p, 2, m, cfg);
      n := 2 + m;
    }
  }

  // And of a job that exists.
  lemma OldRequestIsStatements(w: World, p: nat, job: Job, blocks: seq<string>, now: int, answers: nat, reached: nat, cfg: Config)
      returns (n: nat)
    requires H.Named(w.t) && p in w.procs && job == FreshJob(job.id, blocks, now) && w.procs[p] == Inserting(job)
    requires job.id in w.t.jobs
    requires H.Reachable(w.t.jobs[job.id], BatchCount(|w.t.jobs[job.id].blocks|), None, reached)
    ensures Matches(w.published, Drive(w, p, n, cfg), H.Asked(Start(w, answers), job.id, blocks, true, now, reached))
  {
    hide Index, Count, Publish, Write, List, Remove, Load, Record, Check, Peek, ClaimIt, DispatchIt;
    hide H.Advanced, H.Reachable, BatchCount;
    var row := w.t.jobs[job.id];
    n := Min(answers, 2);
    assert Drive(w, p, 0, cfg) == w;
    DriveOnce(w, p, cfg);
    if answers >= 2 {
      var w1 := Insert(w, p, job);
      var w2 := Reread(w1, p, job.id);
      DriveFrom(w, p, 1, cfg);
      DriveOnce(w1, p, cfg);
      if !H.Closed(row.state) {
        var m := AdvanceRequest(w.published, w2, p, row, H.Progress(w2.t, w2.removed, [], answers - 2, true), reached, cfg);
        DriveOn(w, p, 2, m, cfg);
        n := 2 + m;
      }
    }
  }

  lemma RequestIsStatements(w: World, p: nat, job: Job, blocks: seq<string>, now: int, answers: nat, reached: nat, cfg: Config)
      returns (n: nat)
    requires H.Named(w.t) && p in w.procs && job == FreshJob(job.id, blocks, now) && w.procs[p] == Inserting(job)
    requires var row := if job.id in w.t.jobs then w.t.jobs[job.id] else job;
      H.Reachable(row, BatchCount(|row.blocks|), None, reached)
    ensures Matches(w.published, Drive(w, p, n, cfg), H.Asked(Start(w, answers), job.id, blocks, true, now, reached))
  {
    hide H.Asked, H.Reachable, BatchCount;
    if job.id in w.t.jobs {
      n := OldRequestIsStatements(w, p, job, blocks, now, answers, reached, cfg);
    } else {
      n := NewRequestIsStatements(w, p, job, blocks, now, answers, reached, cfg);
    }
  }

  // ---------------------------------------------------------------- recoveries

  // What the machine adds after the statements of a dispatch that failed: the note
  // of its error, if the database still answers.
  function WithNote(w: World, id: JobId, note: Option<string>): World
    requires note.Some? ==> id in w.t.jobs
  {
    match note
    case Some(text) => w.(t := WriteError(w.t, id, text))
    case None => w
  }

  ghost predicate MatchesNoted(base: set<Request>, w: World, id: JobId, note: Option<string>, r: H.Progress) {
    id in w.t.jobs && Matches(base, WithNote(w, id, note), r)
  }

  lemma NoteIsAStep(base: set<Request>, w: World, job: Job, text: string, s: H.Progress) returns (note: Option<string>)
    requires Matches(base, w, s) && job.id in w.t.jobs
    ensures MatchesNoted(base, w, job.id, note, H.Noted(s, job, text))
  {
    note := if s.answers > 0 then Some(text) else None;
  }

  // The published part of a dispatch.
  lemma RepublishIsStatements(base: set<Request>, w: World, p: nat, job: Job, advance: Option<string>, s: H.Progress, reached: nat, cfg: Config)
      returns (n: nat)
    requires p in w.procs && w.procs[p] == PublishRequest(job, advance) && job.id in w.t.jobs
    requires Matches(base, w, s) && s.ok && H.PublishReaches(job, job.attempts, reached)
    ensures var r := H.Republished(s, job, job.attempts, reached);
      Matches(base, Drive(w, p, n, cfg),
              if r.ok && advance.Some? then H.Updated(r, job, Requested, advance.value) else r)
  {
    hide H.Updated, H.FullyPublished, H.Offered, H.Reachable, BatchCount;
    if job.batchCount == 0 {
      n := CountIsStatements(base, w, p, job, advance, s, reached, cfg);
    } else {
      n := OfferIsStatements(base, w, p, job, job.batchCount, Some(job.attempts), advance, s, reached, cfg);
    }
  }

  // Rows are never lost.
  lemma {:induction false} DriveKeepsRows(w: World, p: nat, n: nat, cfg: Config)
    ensures w.t.jobs.Keys <= Drive(w, p, n, cfg).t.jobs.Keys
  {
    hide Execute;
    if n > 0 {
      DriveKeepsRows(w, p, n - 1, cfg);
      var v := Drive(w, p, n - 1, cfg);
      if p in v.procs {
        StatementKeepsRows(v, p, v.procs[p], cfg);
      }
    }
  }

  lemma StatementKeepsRows(w: World, p: nat, proc: Proc, cfg: Config)
    ensures w.t.jobs.Keys <= Execute(w, p, proc, cfg).t.jobs.Keys
  {
    hide BatchCount, MessageOf, Decodes, Lo, Backoff, InvalidNote, ExhaustedNote, U32, Bucket, Dispatch, AllDone;
  }

  lemma RedriveIsStatements(base: set<Request>, w: World, p: nat, job: Job, s: H.Progress, reached: nat, removes: bool, cfg: Config)
      returns (n: nat, note: Option<string>)
    requires job.id in w.t.jobs && (job.state.Pending? || job.state.Requested?) && job.attempts < cfg.maxAttempts
    requires p in w.procs && w.procs[p] == PublishRequest(job, if job.state.Pending? then Some(job.lastError) else None)
    requires Matches(base, w, s) && s.ok && H.PublishReaches(job, job.attempts, reached)
    ensures MatchesNoted(base, Drive(w, p, n, cfg), job.id, note, H.Dispatched(s, job, reached, removes, cfg))
  {
    hide H.Updated, H.Republished, H.PublishReaches, PublishRequest, H.Finished, ExhaustedNote, H.Noted;
    var advance := if job.state.Pending? then Some(job.lastError) else None;
    n := RepublishIsStatements(base, w, p, job, advance, s, reached, cfg);
    DriveKeepsRows(w, p, n, cfg);
    var r := H.Republished(s, job, job.attempts, reached);
    if r.ok {
      note := None;
    } else {
      note := NoteIsAStep(base, Drive(w, p, n, cfg), job, H.PUBLISH_ERROR, r);
    }
  }

  lemma DispatchIsStatements(base: set<Request>, w: World, p: nat, job: Job, s: H.Progress, reached: nat, removes: bool, cfg: Config)
      returns (n: nat, note: Option<string>)
    requires job.id in w.t.jobs && w.t.jobs[job.id] == job && p in w.procs && w.procs[p] == Dispatching(job.id)
    requires Matches(base, w, s) && s.ok && H.PublishReaches(job, job.attempts, reached)
    ensures MatchesNoted(base, Drive(w, p, n, cfg), job.id, note, H.Dispatched(s, job, reached, removes, cfg))
  {
    hide Insert, Index, Reread, Count, Publish, Write, List, Remove, Load, Record, Check, Peek, ClaimIt;
    hide H.Updated, H.Republished, H.PublishReaches, PublishRequest, H.Finished, ExhaustedNote, H.Noted, BatchCount;
    var w1 := DispatchIt(w, p, job.id, cfg);
    DriveOnce(w, p, cfg);
    n, note := 0, None;
    if job.attempts >= cfg.maxAttempts {
      n := UpdateIsStatements(base, w1, p, job, Failed, ExhaustedNote(job, cfg), s, cfg);
    } else {
      match job.state
      case Pending => n, note := RedriveIsStatements(base, w1, p, job, s, reached, removes, cfg);
      case Requested => n, note := RedriveIsStatements(base, w1, p, job, s, reached, removes, cfg);
      case Decremented =>
        n := FinishIsStatements(base, w1, p, job, s, removes, cfg);
        var r := H.Finished(s, job, removes);
        if !r.ok {
          DriveKeepsRows(w1, p, n, cfg);
          note := NoteIsAStep(base, Drive(w1, p, n, cfg), job, H.REMOVAL_ERROR, r);
        }
      case Failed =>
      case Complete =>
    }
    DriveKeepsRows(w1, p, n, cfg);
    DriveFrom(w, p, n, cfg);
    n := 1 + n;
  }

  // Sweeper.recover once the job is claimed.
  lemma ClaimedIsStatements(base: set<Request>, w: World, p: nat, job: Job, s: H.Progress, reached: nat, removes: bool, cfg: Config)
      returns (n: nat, note: Option<string>)
    requires job.id in w.t.jobs && w.t.jobs[job.id] == job && p in w.procs && w.procs[p] == Dispatching(job.id)
    requires Matches(base, w, s) && s.ok && H.PublishReaches(job, job.attempts, reached)
    ensures var loaded := H.Read(s);
      MatchesNoted(base, Drive(w, p, n, cfg), job.id, note,
                   if loaded.ok then H.Dispatched(loaded, job, reached, removes, cfg) else loaded)
  {
    hide H.Dispatched, H.PublishReaches;
    n, note := 0, None;
    assert Drive(w, p, 0, cfg) == w;
    if s.answers > 0 {
      n, note := DispatchIsStatements(base, w, p, job, H.Read(s), reached, removes, cfg);
    }
  }

  lemma ClaimReachesTheSame(j: Job, next: int, reached: nat)
    requires H.PublishReaches(j, j.attempts + 1, reached)
    ensures var k := j.(attempts := j.attempts + 1, nextAttemptAt := next); H.PublishReaches(k, k.attempts, reached)
  {
  }

  // The read and the claim of a recovery.
  lemma ClaimIsStatements(w: World, p: nat, id: JobId, now: int, cfg: Config)
    requires H.Named(w.t) && id in w.t.jobs && p in w.procs && w.procs[p] == Peeking(id, now)
    ensures var v := Drive(w, p, 1, cfg); v.t == w.t && v.removed == w.removed && v.published == w.published
    ensures var v, attempts := Drive(w, p, 2, cfg), w.t.jobs[id].attempts;
      && v.t == Claim(w.t, id, attempts, now + Backoff(attempts, cfg))
      && v.removed == w.removed && v.published == w.published
      && p in v.procs && v.procs[p] == Dispatching(id)
  {
    hide Backoff, Insert, Index, Reread, Count, Publish, Write, List, Remove, Load, Record, Check, DispatchIt;
    var w1 := Peek(w, p, id, now);
    DriveOnce(w, p, cfg);
    DriveFrom(w, p, 1, cfg);
    DriveOnce(w1, p, cfg);
  }

  // Sweeper.recover, from the first read on.
  lemma RecoveryIsStatements(w: World, p: nat, id: JobId, now: int, answers: nat, reached: nat, removes: bool, cfg: Config)
      returns (n: nat, note: Option<string>)
    requires H.Named(w.t) && id in w.t.jobs && p in w.procs && w.procs[p] == Peeking(id, now)
    requires H.PublishReaches(w.t.jobs[id], w.t.jobs[id].attempts + 1, reached)
    ensures MatchesNoted(w.published, Drive(w, p, n, cfg), id, note, H.Recovered(Start(w, answers), id, now, reached, removes, cfg))
  {
    hide H.Dispatched, Backoff, H.PublishReaches, Execute;
    ClaimReachesTheSame(w.t.jobs[id], now + Backoff(w.t.jobs[id].attempts, cfg), reached);
    ClaimIsStatements(w, p, id, now, cfg);
    n, note := Min(answers, 1), None;
    assert Drive(w, p, 0, cfg) == w;
    if answers >= 2 {
      var w2 := Drive(w, p, 2, cfg);
      var s := H.Progress(w2.t, w2.removed, [], answers - 2, true);
      var m;
      m, note := ClaimedIsStatements(w.published, w2, p, w2.t.jobs[id], s, reached, removes, cfg);
      DriveOn(w, p, 2, m, cfg);
      n := 2 + m;
    }
  }

  lemma RunSnoc(steps: seq<Step>, step: Step, cfg: Config)
    requires Run(steps, cfg).Some? && Enabled(Run(steps, cfg).value, step)
    ensures Run(steps + [step], cfg) == Some(Apply(Run(steps, cfg).value, step, cfg))
  {
    hide Apply, Enabled;
    assert (steps + [step])[..|steps + [step]| - 1] == steps;
  }

  lemma {:induction false} DriveIsARun(steps: seq<Step>, p: nat, n: nat, cfg: Config) returns (more: seq<Step>)
    requires Run(steps, cfg).Some?
    ensures Run(steps + more, cfg) == Some(Drive(Run(steps, cfg).value, p, n, cfg))
  {
    hide Execute, Run;
    more := [];
    assert steps + more == steps;
    if n > 0 {
      more := DriveIsARun(steps, p, n - 1, cfg);
      var v := Drive(Run(steps, cfg).value, p, n - 1, cfg);
      if p in v.procs {
        RunSnoc(steps + more, Go(p), cfg);
        assert steps + more + [Go(p)] == steps + (more + [Go(p)]);
        more := more + [Go(p)];
      }
    }
  }

  // In any run, handling a completion from start to end, with any failure inside,
  // leaves the tables as some continuation of the run by single statements does.
  lemma HandledCompletionIsARun(steps: seq<Step>, p: nat, c: Completion, delivery: nat, answers: nat, removes: bool, cfg: Config)
      returns (more: seq<Step>)
    requires Run(steps, cfg).Some? && p !in Run(steps, cfg).value.procs && c in Run(steps, cfg).value.completions
    ensures Run(steps + more, cfg).Some? && H.Named(Run(steps, cfg).value.t)
    ensures Matches(Run(steps, cfg).value.published, Run(steps + more, cfg).value, H.Completed(Start(Run(steps, cfg).value, answers), c, delivery, removes))
  {
    hide Run, Inv, H.Completed;
    var w := Run(steps, cfg).value;
    var begin := BeginDelivery(p, c);
    NamesHold(steps, cfg);
    RunSnoc(steps, begin, cfg);
    var w1 := Apply(w, begin, cfg);
    var n := CompletionIsStatements(w.published, w1, p, c, delivery, answers, removes, cfg);
    var rest := DriveIsARun(steps + [begin], p, n, cfg);
    more := [begin] + rest;
    assert steps + [begin] + rest == steps + more;
  }

  lemma NamesHold(steps: seq<Step>, cfg: Config)
    requires Run(steps, cfg).Some?
    ensures H.Named(Run(steps, cfg).value.t)
  {
    hide Run;
    RunKeepsInv(steps, cfg);
    var w := Run(steps, cfg).value;
    forall id | id in w.t.jobs ensures w.t.jobs[id].id == id {
      RowIsOk(w, id);
    }
  }

  // A request for a file in the trash, started from start to end at the clock of a
  // run, leaves the tables and the stream as a continuation of the run does.
  lemma HandledRequestIsARun(steps: seq<Step>, p: nat, id: JobId, blocks: seq<string>, answers: nat, reached: nat, cfg: Config)
      returns (more: seq<Step>)
    requires Run(steps, cfg).Some? && p !in Run(steps, cfg).value.procs
    requires var w := Run(steps, cfg).value;
      var row := if id in w.t.jobs then w.t.jobs[id] else FreshJob(id, blocks, w.clock);
      H.Reachable(row, BatchCount(|row.blocks|), None, reached)
    ensures Run(steps + more, cfg).Some? && H.Named(Run(steps, cfg).value.t)
    ensures var w := Run(steps, cfg).value;
      Matches(w.published, Run(steps + more, cfg).value, H.Asked(Start(w, answers), id, blocks, true, w.clock, reached))
  {
    hide Run, Inv, H.Asked, H.Reachable, BatchCount;
    var w := Run(steps, cfg).value;
    var begin := BeginRequest(p, id, blocks);
    NamesHold(steps, cfg);
    RunSnoc(steps, begin, cfg);
    var w1 := Apply(w, begin, cfg);
    assert Start(w1, answers) == Start(w, answers);
    var n := RequestIsStatements(w1, p, FreshJob(id, blocks, w.clock), blocks, w.clock, answers, reached, cfg);
    var rest := DriveIsARun(steps + [begin], p, n, cfg);
    more := [begin] + rest;
    assert steps + [begin] + rest == steps + more;
  }

  // So does the recovery of a job that the sweep listed, with the note of its error
  // as a step of its own.
  lemma HandledRecoveryIsARun(steps: seq<Step>, p: nat, id: JobId, answers: nat, reached: nat, removes: bool, cfg: Config)
      returns (more: seq<Step>)
    requires Run(steps, cfg).Some?
    requires var w := Run(steps, cfg).value;
      && p !in w.procs && p in w.sweeps && id in w.sweeps[p].refs && id in w.t.jobs
      && H.PublishReaches(w.t.jobs[id], w.t.jobs[id].attempts + 1, reached)
    ensures Run(steps + more, cfg).Some? && H.Named(Run(steps, cfg).value.t)
    ensures var w := Run(steps, cfg).value;
      Matches(w.published, Run(steps + more, cfg).value, H.Recovered(Start(w, answers), id, w.sweeps[p].now, reached, removes, cfg))
  {
    hide Run, Inv, H.Recovered, H.PublishReaches;
    var w := Run(steps, cfg).value;
    var begin := BeginRecovery(p, id);
    NamesHold(steps, cfg);
    RunSnoc(steps, begin, cfg);
    var w1 := Apply(w, begin, cfg);
    assert Start(w1, answers) == Start(w, answers);
    var n, note := RecoveryIsStatements(w1, p, id, w.sweeps[p].now, answers, reached, removes, cfg);
    var rest := DriveIsARun(steps + [begin], p, n, cfg);
    more := [begin] + rest;
    assert steps + [begin] + rest == steps + more;
    if note.Some? {
      RunSnoc(steps + more, NoteError(id, note.value), cfg);
      assert steps + more + [NoteError(id, note.value)] == steps + (more + [NoteError(id, note.value)]);
      more := more + [NoteError(id, note.value)];
    }
  }
}
