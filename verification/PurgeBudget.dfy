// The retry budget of a purge job, and what happens to jobs at its edges: those
// that have failed, those that are finished but still listed, and those whose
// batches are all recorded but whose state was not advanced.
// Sources: purge/sweeper.go, purge/coordinator.go, repository/purge_repo.go.
module PurgeBudget {
  import opened Common
  import opened Decimal
  import opened PurgeBatches
  import opened PurgeTables
  import opened PurgeHandlers
  import opened PurgeConvergence
  import opened SweepWindow
  import Saga = PurgeSaga

  // ---------------------------------------------------------------- budget

  // A recovery that put something on the stream or removed the metadata.
  predicate Acts(g: Purge, s: Progress, e: Event, cfg: Config)
    requires Named(s.t)
  {
    e.Sweep? && (Handle(s, g.id, e, cfg).stream != s.stream || Handle(s, g.id, e, cfg).removed != s.removed)
  }

  // A recovery that claims the job and gets past the attempt gate.
  predicate PassesGate(g: Purge, s: Progress, e: Event, cfg: Config) {
    e.Sweep? && e.answers >= 3 && g.id in s.t.jobs && s.t.jobs[g.id].attempts + 1 < cfg.maxAttempts
  }

  // Only those act, and each costs an attempt. Any other recovery leaves the stream
  // and the metadata alone, and ends the same way whatever these would do.
  lemma OnlyRedrivesAct(g: Purge, s: Progress, e: Event, reached: nat, removes: bool, cfg: Config)
    requires Named(s.t) && e.Sweep?
    ensures !PassesGate(g, s, e, cfg) ==>
      && !Acts(g, s, e, cfg)
      && Handle(s, g.id, e, cfg) == Handle(s, g.id, e.(reached := reached, removes := removes), cfg)
    ensures Acts(g, s, e, cfg) ==>
      && g.id in Handle(s, g.id, e, cfg).t.jobs
      && Handle(s, g.id, e, cfg).t.jobs[g.id].attempts == s.t.jobs[g.id].attempts + 1 < cfg.maxAttempts
      && !s.t.jobs[g.id].state.Complete? && !s.t.jobs[g.id].state.Failed?
  {
    hide Updated, Republished, Finished, Backoff, Saga.ExhaustedNote;
    if g.id in s.t.jobs {
      RecoveredRows(Begin(s, e.answers), g.id, e.now, e.reached, e.removes, cfg);
    }
  }

  // How many recoveries of a history act.
  function Redrives(g: Purge, s: Progress, events: seq<Event>, cfg: Config): nat
    requires WellFormed(g) && Sound(g, s, cfg) && forall e :: e in events ==> Concerns(g, e)
    decreases |events|
  {
    if events == [] then 0
    else
      HandlerGoesForward(g, s, events[0], cfg);
      (if Acts(g, s, events[0], cfg) then 1 else 0)
      + Redrives(g, Handle(s, g.id, events[0], cfg), events[1..], cfg)
  }

  // How many re-drives the budget still allows.
  function Left(g: Purge, s: Progress, cfg: Config): nat {
    var used := if g.id in s.t.jobs then s.t.jobs[g.id].attempts else 0;
    Max(cfg.maxAttempts - 1 - used, 0)
  }

  // Whatever the order of requests, completions and recoveries, at most
  // MaxAttempts - 1 recoveries of a job publish or remove anything.
  lemma {:induction false} RedrivesAreBounded(g: Purge, s: Progress, events: seq<Event>, cfg: Config)
    requires WellFormed(g) && Sound(g, s, cfg) && forall e :: e in events ==> Concerns(g, e)
    ensures Redrives(g, s, events, cfg) <= Left(g, s, cfg) <= Max(cfg.maxAttempts - 1, 0)
    decreases |events|
  {
    hide Handle, Concerns, SoundRow, Acts;
    if events != [] {
      var e := events[0];
      HandlerGoesForward(g, s, e, cfg);
      if Acts(g, s, e, cfg) {
        ActsAreSweeps(g, s, e, cfg);
        OnlyRedrivesAct(g, s, e, 0, false, cfg);
      }
      RedrivesAreBounded(g, Handle(s, g.id, e, cfg), events[1..], cfg);
    }
  }

  lemma ActsAreSweeps(g: Purge, s: Progress, e: Event, cfg: Config)
    requires Named(s.t) && Acts(g, s, e, cfg)
    ensures e.Sweep?
  {
  }

  // ---------------------------------------------------------------- edges

  // A failed job stays failed under every sequence of handlers.
  lemma FailedStaysFailed(g: Purge, s: Progress, events: seq<Event>, cfg: Config)
    requires WellFormed(g) && Sound(g, s, cfg) && (forall e :: e in events ==> Concerns(g, e)) && g.id in s.t.jobs
    requires s.t.jobs[g.id].state.Failed?
    ensures g.id in History(g, s, events, cfg).t.jobs && History(g, s, events, cfg).t.jobs[g.id].state.Failed?
  {
    JobsOnlyAdvance(g, s, events, cfg);
  }

  // The gate comes before the state is looked at: a recovery marks any job FAILED,
  // even one that is COMPLETE and was only listed too early, exactly when its
  // claim uses up the budget.
  lemma GateIgnoresTheState(g: Purge, s: Progress, e: Event, cfg: Config)
    requires WellFormed(g) && Sound(g, s, cfg) && g.id in s.t.jobs && !s.t.jobs[g.id].state.Failed?
    requires e.Sweep? && e.answers >= 4
    ensures g.id in Handle(s, g.id, e, cfg).t.jobs
    ensures Handle(s, g.id, e, cfg).t.jobs[g.id].state.Failed? <==> s.t.jobs[g.id].attempts + 1 >= cfg.maxAttempts
  {
    hide Recovered;
    RecoveredRows(Begin(s, e.answers), g.id, e.now, e.reached, e.removes, cfg);
  }

  // A re-drive of a job has something to send exactly when a batch is unrecorded.
  lemma {:induction false} NothingIsMissing(n: nat, done: set<nat>)
    ensures Missing(n, done) == [] <==> Upto(n) <= done
  {
    if Missing(n, done) == [] {
      forall b | b in Upto(n) ensures b in done {
        assert b !in Missing(n, done);
      }
    } else {
      var b := Missing(n, done)[0];
      assert b in Missing(n, done);
      assert b in Upto(n);
    }
  }

  // Recoveries alone never take a requested job further than FAILED. So when its
  // last completion was recorded but the state change was lost for good, the
  // re-drives send nothing and the job runs out of attempts: the sweeper does not
  // repair it, only another completion would.
  lemma {:induction false} RecoveriesDoNotFinish(g: Purge, s: Progress, events: seq<Event>, cfg: Config)
    requires WellFormed(g) && Sound(g, s, cfg) && (forall e :: e in events ==> Concerns(g, e)) && g.id in s.t.jobs
    requires s.t.jobs[g.id].state.Requested? || s.t.jobs[g.id].state.Failed?
    requires forall e :: e in events ==> e.Sweep?
    ensures var r := History(g, s, events, cfg);
      && g.id in r.t.jobs
      && (r.t.jobs[g.id].state.Requested? || r.t.jobs[g.id].state.Failed?)
      && r.t.jobs[g.id].batchesDone == s.t.jobs[g.id].batchesDone
    decreases |events|
  {
    hide Recovered, BatchCount, InvalidIn;
    if events != [] {
      var e := events[0];
      HandlerGoesForward(g, s, e, cfg);
      RecoveredRows(Begin(s, e.answers), g.id, e.now, e.reached, e.removes, cfg);
      RecoveriesDoNotFinish(g, Handle(s, g.id, e, cfg), events[1..], cfg);
    }
  }

  lemma NoteTellsTheCount(j: Job, r: Job)
    ensures Saga.InvalidNote(j) == Saga.InvalidNote(r) <==> |j.invalidOps| == |r.invalidOps|
    ensures Saga.InvalidNote(j) == "" <==> j.invalidOps == {}
  {
    var tail := " invalid ops recorded";
    var a, b := Print(|j.invalidOps|), Print(|r.invalidOps|);
    if a + tail == b + tail {
      assert |a| == |b|;
      assert a == (a + tail)[..|a|] && b == (b + tail)[..|b|];
      PrintInjective(|j.invalidOps|, |r.invalidOps|);
    }
  }

  // The note a job carries while its metadata is being removed counts the invalid
  // ops known before the last batch. It is the right count exactly when the last
  // batch brought no new ones, so it depends on the order of the completions.
  lemma NoteMissesTheLastBatch(j: Job, c: Saga.Completion, answers: nat, removes: bool)
    requires !Closed(j.state) && DeliveredRow(j, c, answers, removes).state.Decremented?
    ensures var r := DeliveredRow(j, c, answers, removes);
      r.lastError == Saga.InvalidNote(r) <==> c.invalid <= j.invalidOps
  {
    hide Saga.InvalidNote, Mismatched;
    var r := DeliveredRow(j, c, answers, removes);
    NoteTellsTheCount(j, r);
    SubsetSize(j.invalidOps, r.invalidOps);
    assert c.invalid <= j.invalidOps <==> j.invalidOps == r.invalidOps by {
      assert r.invalidOps == j.invalidOps + c.invalid;
    }
  }

  // When everything succeeds the note is overwritten by the error the job had
  // before: a COMPLETE job does not show its invalid ops there.
  lemma NoteIsOverwritten(j: Job, c: Saga.Completion, answers: nat, removes: bool)
    requires !Closed(j.state) && Closed(DeliveredRow(j, c, answers, removes).state)
    ensures var r := DeliveredRow(j, c, answers, removes);
      r.state.Complete? <==> answers >= 6 && removes
    ensures var r := DeliveredRow(j, c, answers, removes);
      r.lastError == if r.state.Complete? then j.lastError else Saga.InvalidNote(j)
  {
    hide Saga.InvalidNote, Mismatched;
  }
}
