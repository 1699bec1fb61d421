// Two places where a purge job comes to rest in the wrong state, with histories
// that lead there from an empty database, and exactly when a re-drive helps.
// Sources: purge/coordinator.go, purge/sweeper.go, repository/purge_repo.go.
module PurgeStuck {
  import opened Common
  import opened PurgeBatches
  import opened PurgeTables
  import opened PurgeHandlers
  import opened PurgeConvergence
  import opened PurgeBudget
  import opened SweepWindow
  import Saga = PurgeSaga

  function Empty(): Progress {
    Progress(Tables(map[], map[]), {}, [], 0, true)
  }

  // ---------------------------------------------------------------- histories

  // A request that goes through.
  function Request(g: Purge, now: int): Event {
    Ask(g.blocks, true, now, 5, |g.reports|)
  }

  // The completion of batch b, to a database that answers this much.
  function Report(g: Purge, b: nat, answers: nat): Event
    requires b < |g.reports|
  {
    Deliver(Saga.Completion(g.id, b, 0, g.reports[b]), 1, answers, true)
  }

  // A history of this job from an empty database to a state whose row is j.
  ghost predicate LeadsTo(g: Purge, events: seq<Event>, j: Job, cfg: Config) {
    && WellFormed(g) && (forall e :: e in events ==> Concerns(g, e))
    && var r := History(g, Empty(), events, cfg);
    g.id in r.t.jobs && r.t.jobs[g.id] == j
  }

  // One more event; its row is what the handler makes of the row so far.
  lemma OneMoreEvent(g: Purge, events: seq<Event>, j: Job, e: Event, cfg: Config) returns (k: Job)
    requires LeadsTo(g, events, j, cfg) && Concerns(g, e)
    ensures LeadsTo(g, events + [e], k, cfg) && SoundRow(g, j, {g.id}, cfg)
    ensures e.Deliver? ==> k == DeliveredRow(j, e.c, e.answers, e.removes)
    ensures e.Sweep? ==>
      && (e.answers == 2 ==> k == j.(attempts := j.attempts + 1, nextAttemptAt := e.now + Backoff(j.attempts, cfg)))
      && (e.answers == 4 && j.attempts + 1 >= cfg.maxAttempts ==> k.state.Failed?)
  {
    hide Asked, Completed, DeliveredRow, Dispatched, Backoff, BatchCount, InvalidIn;
    var s := History(g, Empty(), events, cfg);
    HistoryJoined(g, Empty(), events, [e], cfg);
    HandlerGoesForward(g, s, e, cfg);
    assert History(g, s, [e], cfg) == Handle(s, g.id, e, cfg);
    k := Handle(s, g.id, e, cfg).t.jobs[g.id];
    SoundRowAnyRemoved(g, j, s.removed, cfg);
    if e.Deliver? {
      HandledRow(g, s, e, cfg);
    } else if e.Sweep? {
      RecoveredRows(Begin(s, e.answers), g.id, e.now, e.reached, e.removes, cfg);
    }
  }

  // A requested job with so many claims behind it and the first batches recorded.
  ghost predicate Waiting(g: Purge, j: Job, attempts: nat, recorded: nat) {
    && j.state.Requested? && j.batchCount == |g.reports|
    && j.attempts == attempts && j.batchesDone == Upto(recorded)
  }

  lemma AfterRequest(g: Purge, now: int, cfg: Config) returns (j: Job)
    requires WellFormed(g)
    ensures LeadsTo(g, [Request(g, now)], j, cfg) && Waiting(g, j, 0, 0)
  {
    hide BatchCount, Offers;
    var e := Request(g, now);
    HandlerGoesForward(g, Empty(), e, cfg);
    var r := Handle(Empty(), g.id, e, cfg);
    assert History(g, Empty(), [e], cfg) == History(g, r, [], cfg);
    j := r.t.jobs[g.id];
  }

  // Claims whose sweep dies before it acts.
  lemma {:induction false} AfterClaims(g: Purge, now: int, n: nat, cfg: Config) returns (events: seq<Event>, j: Job)
    requires WellFormed(g)
    ensures LeadsTo(g, events, j, cfg) && Waiting(g, j, n, 0)
  {
    hide LeadsTo;
    if n == 0 {
      j := AfterRequest(g, now, cfg);
      events := [Request(g, now)];
    } else {
      events, j := AfterClaims(g, now, n - 1, cfg);
      var e := Sweep(now, 2, 0, false);
      j := OneMoreEvent(g, events, j, e, cfg);
      events := events + [e];
    }
  }

  // Completions that are recorded by handlers which die before the re-read's answer
  // is used.
  lemma {:induction false} AfterReports(g: Purge, now: int, n: nat, k: nat, cfg: Config) returns (events: seq<Event>, j: Job)
    requires WellFormed(g) && k <= |g.reports|
    ensures LeadsTo(g, events, j, cfg) && Waiting(g, j, n, k)
  {
    hide LeadsTo, SoundRow, AllDone;
    if k == 0 {
      events, j := AfterClaims(g, now, n, cfg);
    } else {
      events, j := AfterReports(g, now, n, k - 1, cfg);
      var e := Report(g, k - 1, 3);
      j := OneMoreEvent(g, events, j, e, cfg);
      assert Upto(k) == Upto(k - 1) + {k - 1};
      events := events + [e];
    }
  }

  // For every purge there is a history that ends with all batches recorded and the
  // job still requested: the handler of the last completion could record it but not
  // move the state.
  lemma AllRecordedStillRequested(g: Purge, now: int, cfg: Config) returns (events: seq<Event>, j: Job)
    requires WellFormed(g)
    ensures LeadsTo(g, events, j, cfg)
    ensures j.state.Requested? && j.batchCount == |g.reports| && j.batchesDone == Upto(|g.reports|)
  {
    hide LeadsTo;
    events, j := AfterReports(g, now, 0, |g.reports|, cfg);
  }

  // And for every purge and every attempt limit there is one in which a recovery
  // turns the COMPLETE job FAILED.
  lemma CompleteJobIsFailed(g: Purge, now: int, cfg: Config) returns (events: seq<Event>, j: Job, last: Event, k: Job)
    requires WellFormed(g) && Usable(cfg)
    ensures LeadsTo(g, events, j, cfg) && j.state.Complete?
    ensures last.Sweep? && LeadsTo(g, events + [last], k, cfg) && k.state.Failed?
  {
    hide LeadsTo, BatchCount;
    var n := |g.reports|;
    assert n >= 1 && WellFormed(g);
    events, j := AfterReports(g, now, cfg.maxAttempts - 1, n - 1, cfg);
    var e := Report(g, n - 1, 6);
    assert Upto(n) == Upto(n - 1) + {n - 1};
    var done := OneMoreEvent(g, events, j, e, cfg);
    assert done.state.Complete? && done.attempts == cfg.maxAttempts - 1;
    events, j := events + [e], done;
    last := Sweep(now, 4, 0, false);
    k := OneMoreEvent(g, events, j, last, cfg);
  }

  // ---------------------------------------------------------------- re-drives

  // The worker's report on a message, delivered to a database that answers.
  function Landing(g: Purge, m: Message, answers: nat, removes: bool): Event {
    var reported := if m.body.batch < |g.reports| then g.reports[m.body.batch] else {};
    Deliver(Saga.Completion(m.body.job, m.body.batch, m.body.count, reported), 1, answers, removes)
  }

  function Landings(g: Purge, sent: seq<Message>, answers: nat, removes: bool): seq<Event> {
    seq(|sent|, k requires 0 <= k < |sent| => Landing(g, sent[k], answers, removes))
  }

  // What the messages of missing batches carry.
  lemma MissingMessage(g: Purge, sent: seq<Message>, done: set<nat>, attempt: nat, k: nat)
    requires WellFormed(g) && |g.reports| <= WORD && k < |sent|
    requires MessagesOf(sent, g.id, g.blocks, |g.reports|, Missing(|g.reports|, done), Some(attempt))
    ensures var b := Missing(|g.reports|, done)[k];
      && b < |g.reports| && b !in done
      && sent[k].body.job == g.id && sent[k].body.batch == b && sent[k].body.count == U32(|g.reports|)
  {
    hide BatchOps, BatchCount;
    var missing := Missing(|g.reports|, done);
    assert missing[k] in missing;
    assert MessageOf(g.id, g.blocks, |g.reports|, missing[k], Some(attempt)) == Some(sent[k]);
    assert U32(missing[k]) == missing[k];
  }

  lemma LandingsLand(g: Purge, sent: seq<Message>, done: set<nat>, attempt: nat, answers: nat, removes: bool)
    requires WellFormed(g) && |g.reports| <= WORD && answers >= 4
    requires MessagesOf(sent, g.id, g.blocks, |g.reports|, Missing(|g.reports|, done), Some(attempt))
    ensures var landings := Landings(g, sent, answers, removes);
      && (forall l :: l in landings ==> Concerns(g, l))
      && forall k :: 0 <= k < |sent| ==> Lands(g, landings[k]) && landings[k].c.batch == Missing(|g.reports|, done)[k]
  {
    hide MessagesOf, U32;
    var landings := Landings(g, sent, answers, removes);
    SameLength(g, sent, done, attempt);
    forall k | 0 <= k < |sent|
      ensures Concerns(g, landings[k]) && Lands(g, landings[k]) && landings[k].c.batch == Missing(|g.reports|, done)[k]
    {
      MissingMessage(g, sent, done, attempt, k);
    }
  }

  lemma SameLength(g: Purge, sent: seq<Message>, done: set<nat>, attempt: nat)
    requires MessagesOf(sent, g.id, g.blocks, |g.reports|, Missing(|g.reports|, done), Some(attempt))
    ensures |sent| == |Missing(|g.reports|, done)|
  {
  }

  // The reports on the messages of all missing batches close a requested job if
  // there is such a message, and otherwise nothing happens to it.
  lemma ReportsClose(g: Purge, v: Progress, sent: seq<Message>, attempt: nat, answers: nat, removes: bool, cfg: Config)
    requires WellFormed(g) && |g.reports| <= WORD && Sound(g, v, cfg) && g.id in v.t.jobs && answers >= 4
    requires v.t.jobs[g.id].state.Requested? && v.t.jobs[g.id].batchCount == |g.reports|
    requires MessagesOf(sent, g.id, g.blocks, |g.reports|, Missing(|g.reports|, v.t.jobs[g.id].batchesDone), Some(attempt))
    ensures var landings := Landings(g, sent, answers, removes);
      && (forall l :: l in landings ==> Concerns(g, l))
      && var r := History(g, v, landings, cfg);
      g.id in r.t.jobs
      && (Closed(r.t.jobs[g.id].state) <==> Missing(|g.reports|, v.t.jobs[g.id].batchesDone) != [])
  {
    hide MessagesOf, Concerns, Sound, Lands, BatchCount;
    var j, landings := v.t.jobs[g.id], Landings(g, sent, answers, removes);
    var missing := Missing(|g.reports|, j.batchesDone);
    SameLength(g, sent, j.batchesDone, attempt);
    LandingsLand(g, sent, j.batchesDone, attempt, answers, removes);
    if missing == [] {
      assert landings == [];
    } else {
      forall b: nat | b < |g.reports| ensures Covers(g, j, landings, b) {
        if b !in j.batchesDone {
          assert b in missing;
          var k :| 0 <= k < |missing| && missing[k] == b;
          assert Lands(g, landings[k]);
        }
      }
      assert Lands(g, landings[0]);
      CoveredJobCloses(g, v, landings, cfg);
    }
  }

  // A counted, requested job is re-driven by a recovery whose loop comes to its
  // end, and every message that sends is reported back. The job is closed then if
  // and only if some batch was unrecorded before: a job whose last completion was
  // recorded without moving its state is not repaired by the sweeper.
  lemma RedriveClosesExactlyWhen(g: Purge, s: Progress, e: Event, answers: nat, removes: bool, cfg: Config)
    requires WellFormed(g) && |g.reports| <= WORD && Sound(g, s, cfg) && g.id in s.t.jobs
    requires s.t.jobs[g.id].state.Requested? && s.t.jobs[g.id].batchCount == |g.reports|
    requires PassesGate(g, s, e, cfg) && e.reached == |g.reports| && answers >= 4
    requires PublishReaches(s.t.jobs[g.id], s.t.jobs[g.id].attempts + 1, e.reached)
    ensures s.stream <= Handle(s, g.id, e, cfg).stream && Sound(g, Handle(s, g.id, e, cfg), cfg)
    ensures var v := Handle(s, g.id, e, cfg);
      var landings := Landings(g, v.stream[|s.stream|..], answers, removes);
      && (forall l :: l in landings ==> Concerns(g, l))
      && var r := History(g, v, landings, cfg);
      g.id in r.t.jobs
      && (Closed(r.t.jobs[g.id].state) <==> exists b: nat :: b < |g.reports| && b !in s.t.jobs[g.id].batchesDone)
  {
    hide Recovered, Offers, MessagesOf, BatchCount, InvalidIn, Decodes, Lo;
    var j, v := s.t.jobs[g.id], Handle(s, g.id, e, cfg);
    var missing := Missing(|g.reports|, j.batchesDone);
    HandlerGoesForward(g, s, e, cfg);
    RecoveredRows(Begin(s, e.answers), g.id, e.now, e.reached, e.removes, cfg);
    var sent := Offers(g.id, g.blocks, |g.reports|, missing, Some(j.attempts + 1));
    assert v.stream[|s.stream|..] == sent;
    OffersAreTheMessages(g.id, g.blocks, |g.reports|, missing, Some(j.attempts + 1));
    ReportsClose(g, v, sent, j.attempts + 1, answers, removes, cfg);
    NothingIsMissing(|g.reports|, j.batchesDone);
  }
}
