// The sweeper's work list over any sequence of whole requests, completions and
// recoveries of one purge job: exactly when the job is in it, and that a sweep
// finds a due job there.
// Sources: repository/purge_repo.go, purge/coordinator.go, purge/sweeper.go.
module PurgeWorkList {
  import opened Common
  import opened PurgeBatches
  import opened PurgeTables
  import opened PurgeHandlers
  import opened PurgeConvergence
  import opened PurgeSweeper
  import opened SweepWindow
  import Saga = PurgeSaga

  // ---------------------------------------------------------------- one handler

  // What a handler does to the work-list entry of its job.
  datatype Effect = Kept | Shown | Dropped

  // The dispatch of a claimed job.
  function DispatchEffect(job: Job, answers: nat, reached: nat, removes: bool, cfg: Config): Effect {
    if answers < 2 then Kept
    else if job.attempts >= cfg.maxAttempts then Shown
    else
      match job.state
      case Pending =>
        if job.batchCount == 0 then (if answers >= 3 && reached >= BatchCount(|job.blocks|) then Shown else Kept)
        else (if reached >= job.batchCount then Shown else Kept)
      case Decremented => if removes then Dropped else Kept
      case _ => Kept
  }

  // Where the database stops answering decides: the entry is written by the second
  // statement of a creation or a state change, and dropped by the second statement
  // of the change to COMPLETE.
  function EffectOf(row: Option<Job>, e: Event, cfg: Config): Effect {
    match e
    case Ask(blocks, trashed, _, answers, reached) =>
      if !trashed then Kept
      else if row.None? then (if answers >= 2 then Shown else Kept)
      else if row.value.state.Pending? && answers >= 5 && reached >= BatchCount(|row.value.blocks|) then Shown
      else Kept
    case Deliver(c, _, answers, removes) =>
      if row.None? || Closed(row.value.state) || Mismatched(row.value, c) || answers < 5 then Kept
      else if !AllDone(row.value.(batchesDone := row.value.batchesDone + {c.batch})) then Kept
      else if answers >= 7 && removes then Dropped
      else Shown
    case Sweep(_, answers, reached, removes) =>
      if row.None? || answers < 3 then Kept
      else DispatchEffect(row.value.(attempts := row.value.attempts + 1), answers - 3, reached, removes, cfg)
  }

  // The work list after that, for a row that now has this schedule.
  ghost predicate Changed(active: map<ActiveKey, ActiveRow>, after: map<ActiveKey, ActiveRow>, row: Job, effect: Effect) {
    match effect
    case Kept => after == active
    case Shown => KeyOf(row) in after && after[KeyOf(row)].nextAttemptAt == row.nextAttemptAt && after - {KeyOf(row)} == active - {KeyOf(row)}
    case Dropped => after == active - {KeyOf(row)}
  }

  lemma UpdatedActive(s: Progress, job: Job, state: JobState, lastError: string)
    requires job.id in s.t.jobs && s.ok
    ensures var r := Updated(s, job, state, lastError);
      r.t.active ==
        if s.answers < 2 then s.t.active
        else if state.Complete? then s.t.active - {KeyOf(job)}
        else s.t.active[KeyOf(job) := ActiveRow(state, job.nextAttemptAt)]
  {
  }

  lemma FinishedActive(s: Progress, job: Job, removes: bool)
    requires job.id in s.t.jobs && s.ok
    ensures Finished(s, job, removes).t.active ==
      if job.state.Complete? || !removes || s.answers < 2 then s.t.active else s.t.active - {KeyOf(job)}
  {
  }

  lemma PublishedActive(s: Progress, job: Job, attempt: nat, reached: nat)
    requires job.id in s.t.jobs && s.ok
    ensures var r, p := Republished(s, job, attempt, reached), FullyPublished(s, job, reached);
      && r.t.active == s.t.active && p.t.active == s.t.active
      && (p.ok <==> s.answers >= 1 && reached >= BatchCount(|job.blocks|))
      && p.answers == Max(s.answers - 1, 0)
      && (job.batchCount == 0 ==> r == p)
      && (job.batchCount > 0 ==> (r.ok <==> reached >= job.batchCount) && r.answers == s.answers)
  {
    hide BatchCount, Offers, Below;
  }

  lemma DeliverChanges(s: Progress, id: JobId, e: Event, cfg: Config)
    requires Named(s.t) && id in s.t.jobs && e.Deliver? && e.c.job == id
    ensures Changed(s.t.active, Handle(s, id, e, cfg).t.active, s.t.jobs[id], EffectOf(Some(s.t.jobs[id]), e, cfg))
  {
    hide Updated, Finished, Mismatched, Saga.InvalidNote, KeyOf;
    var job, b := s.t.jobs[id], Begin(s, e.answers);
    if e.answers >= 3 && !Closed(job.state) && !Mismatched(job, e.c) {
      var checked := Read(Wrote(Read(b), AddBatch(s.t, id, e.c.batch, e.c.invalid)));
      if AllDone(checked.t.jobs[id]) {
        UpdatedRows(checked, job, Decremented, Saga.InvalidNote(job));
        UpdatedActive(checked, job, Decremented, Saga.InvalidNote(job));
        var advanced := Updated(checked, job, Decremented, Saga.InvalidNote(job));
        if advanced.ok {
          FinishedActive(advanced, job.(state := Decremented), e.removes);
          SameKey(job, Decremented);
        }
      }
    }
  }

  lemma SameKey(job: Job, state: JobState)
    ensures KeyOf(job.(state := state)) == KeyOf(job)
  {
  }

  lemma AskChanges(s: Progress, id: JobId, e: Event, cfg: Config)
    requires Named(s.t) && e.Ask?
    ensures var v := Handle(s, id, e, cfg);
      var row := if id in s.t.jobs then Some(s.t.jobs[id]) else None;
      if id in v.t.jobs then
        Changed(s.t.active, v.t.active, if id in s.t.jobs then s.t.jobs[id] else FreshJob(id, e.blocks, e.now), EffectOf(row, e, cfg))
      else v.t.active == s.t.active && EffectOf(row, e, cfg).Kept?
  {
    hide Updated, FullyPublished, KeyOf, BatchCount;
    var b, job := Begin(s, e.answers), FreshJob(id, e.blocks, e.now);
    if e.trashed && e.answers >= 2 {
      var inserted := Wrote(b, InsertJob(s.t, job));
      if id in s.t.jobs {
        AdvanceChanges(Read(inserted), s.t.jobs[id], e.reached);
      } else {
        AdvanceChanges(Wrote(inserted, PutActive(inserted.t, job, Pending)), job, e.reached);
      }
    }
  }

  lemma AdvanceChanges(s: Progress, job: Job, reached: nat)
    requires s.ok && job.id in s.t.jobs
    ensures Advanced(s, job, reached).t.active ==
      if job.state.Pending? && s.answers >= 3 && reached >= BatchCount(|job.blocks|)
      then s.t.active[KeyOf(job) := ActiveRow(Requested, job.nextAttemptAt)]
      else s.t.active
  {
    hide Updated, FullyPublished, Republished, KeyOf, BatchCount;
    PublishedActive(s, job, 0, reached);
    var p := FullyPublished(s, job, reached);
    if p.ok && job.state.Pending? {
      UpdatedActive(p, job, Requested, "");
    }
  }

  lemma SweepChanges(s: Progress, id: JobId, e: Event, cfg: Config)
    requires Named(s.t) && id in s.t.jobs && e.Sweep? && id in Handle(s, id, e, cfg).t.jobs
    ensures var v := Handle(s, id, e, cfg);
      Changed(s.t.active, v.t.active, v.t.jobs[id], EffectOf(Some(s.t.jobs[id]), e, cfg))
  {
    hide Dispatched, Backoff, KeyOf, BatchCount, Changed;
    var b, j := Begin(s, e.answers), s.t.jobs[id];
    RecoveredRows(b, id, e.now, e.reached, e.removes, cfg);
    if e.answers >= 3 {
      var loaded := Read(Wrote(Read(b), Claim(s.t, id, j.attempts, e.now + Backoff(j.attempts, cfg))));
      DispatchChanges(loaded, loaded.t.jobs[id], e, cfg);
      DispatchedRows(loaded, loaded.t.jobs[id], e.reached, e.removes, cfg);
      ClaimedRow(s.t.active, Handle(s, id, e, cfg).t.active, loaded.t.jobs[id], Handle(s, id, e, cfg).t.jobs[id],
                 DispatchEffect(loaded.t.jobs[id], e.answers - 3, e.reached, e.removes, cfg));
    } else {
      NothingChanged(s.t.active, Handle(s, id, e, cfg).t.jobs[id]);
    }
  }

  lemma NothingChanged(active: map<ActiveKey, ActiveRow>, row: Job)
    ensures Changed(active, active, row, Kept)
  {
  }

  lemma ClaimedRow(active: map<ActiveKey, ActiveRow>, after: map<ActiveKey, ActiveRow>, claimed: Job, row: Job, effect: Effect)
    requires Changed(active, after, claimed, effect)
    requires claimed.id == row.id && claimed.createdAt == row.createdAt && claimed.nextAttemptAt == row.nextAttemptAt
    ensures Changed(active, after, row, effect)
  {
  }

  lemma DispatchChanges(s: Progress, job: Job, e: Event, cfg: Config)
    requires s.ok && job.id in s.t.jobs && e.Sweep?
    ensures Changed(s.t.active, Dispatched(s, job, e.reached, e.removes, cfg).t.active, job,
                    DispatchEffect(job, s.answers, e.reached, e.removes, cfg))
  {
    hide Updated, Finished, Republished, FullyPublished, Saga.ExhaustedNote, BatchCount, KeyOf;
    if job.attempts >= cfg.maxAttempts {
      UpdatedActive(s, job, Failed, Saga.ExhaustedNote(job, cfg));
    } else {
      match job.state
      case Pending =>
        PublishedActive(s, job, job.attempts, e.reached);
        var p := Republished(s, job, job.attempts, e.reached);
        if p.ok {
          UpdatedActive(p, job, Requested, job.lastError);
        }
      case Requested => PublishedActive(s, job, job.attempts, e.reached);
      case Decremented => FinishedActive(s, job, e.removes);
      case Failed =>
      case Complete =>
    }
  }

  // ---------------------------------------------------------------- histories

  function RowOf(s: Progress, id: JobId): Option<Job> {
    if id in s.t.jobs then Some(s.t.jobs[id]) else None
  }

  // The work list shows the job.
  predicate InList(s: Progress, id: JobId) {
    id in s.t.jobs && KeyOf(s.t.jobs[id]) in s.t.active
  }

  // The job has no entry but the one of its row.
  ghost predicate NoStray(s: Progress, id: JobId) {
    forall key :: key in s.t.active && key.1 == id ==> id in s.t.jobs && key == KeyOf(s.t.jobs[id])
  }

  predicate Unfinished(s: Progress, id: JobId) {
    id in s.t.jobs && !s.t.jobs[id].state.Complete? && !s.t.jobs[id].state.Failed?
  }

  // One handler: what becomes of the entry.
  lemma HandlerChanges(g: Purge, s: Progress, e: Event, cfg: Config)
    requires WellFormed(g) && Sound(g, s, cfg) && Concerns(g, e)
    ensures var v := Handle(s, g.id, e, cfg);
      && Sound(g, v, cfg)
      && (g.id in s.t.jobs ==> g.id in v.t.jobs && KeyOf(v.t.jobs[g.id]) == KeyOf(s.t.jobs[g.id]))
      && if g.id in v.t.jobs then Changed(s.t.active, v.t.active, v.t.jobs[g.id], EffectOf(RowOf(s, g.id), e, cfg))
         else g.id !in s.t.jobs && v.t.active == s.t.active && EffectOf(RowOf(s, g.id), e, cfg).Kept?
  {
    hide Handle, Changed, BatchCount, InvalidIn, Mismatched, AllDone, DispatchEffect;
    HandlerGoesForward(g, s, e, cfg);
    var v, effect := Handle(s, g.id, e, cfg), EffectOf(RowOf(s, g.id), e, cfg);
    match e
    case Ask(blocks, _, now, _, _) =>
      AskChanges(s, g.id, e, cfg);
      AskedTimes(g, s, e, cfg);
      if g.id in v.t.jobs {
        var j := if g.id in s.t.jobs then s.t.jobs[g.id] else FreshJob(g.id, blocks, now);
        SameSchedule(s.t.active, v.t.active, j, v.t.jobs[g.id], effect);
      }
    case Deliver(_, _, _, _) =>
      if g.id in s.t.jobs {
        DeliverChanges(s, g.id, e, cfg);
        DeliveredTimes(g, s, e, cfg);
        SameSchedule(s.t.active, v.t.active, s.t.jobs[g.id], v.t.jobs[g.id], effect);
      } else {
        OrphanChangesNothing(s, g.id, e, cfg);
      }
    case Sweep(_, _, _, _) =>
      if g.id in s.t.jobs {
        SweepChanges(s, g.id, e, cfg);
      } else {
        OrphanChangesNothing(s, g.id, e, cfg);
      }
  }

  lemma OrphanChangesNothing(s: Progress, id: JobId, e: Event, cfg: Config)
    requires Named(s.t) && id !in s.t.jobs && (e.Sweep? || (e.Deliver? && e.c.job == id))
    ensures Handle(s, id, e, cfg).t == s.t
  {
  }

  lemma SameSchedule(active: map<ActiveKey, ActiveRow>, after: map<ActiveKey, ActiveRow>, j: Job, r: Job, effect: Effect)
    requires Changed(active, after, j, effect)
    requires r.id == j.id && r.createdAt == j.createdAt && r.nextAttemptAt == j.nextAttemptAt
    ensures Changed(active, after, r, effect) && KeyOf(r) == KeyOf(j)
  {
  }

  lemma AskedTimes(g: Purge, s: Progress, e: Event, cfg: Config)
    requires WellFormed(g) && Sound(g, s, cfg) && Concerns(g, e) && e.Ask?
    ensures var v := Handle(s, g.id, e, cfg);
      g.id in v.t.jobs ==>
        var j, r := if g.id in s.t.jobs then s.t.jobs[g.id] else FreshJob(g.id, e.blocks, e.now), v.t.jobs[g.id];
        r.id == j.id && r.createdAt == j.createdAt && r.nextAttemptAt == j.nextAttemptAt && r.attempts == j.attempts
  {
    hide Asked, BatchCount;
    AskedRows(Begin(s, e.answers), g.id, e.blocks, e.trashed, e.now, e.reached);
  }

  lemma DeliveredTimes(g: Purge, s: Progress, e: Event, cfg: Config)
    requires WellFormed(g) && Sound(g, s, cfg) && Concerns(g, e) && e.Deliver? && g.id in s.t.jobs
    ensures var v := Handle(s, g.id, e, cfg);
      && g.id in v.t.jobs
      && var j, r := s.t.jobs[g.id], v.t.jobs[g.id];
      r.id == j.id && r.createdAt == j.createdAt && r.nextAttemptAt == j.nextAttemptAt && r.attempts == j.attempts
  {
    hide Handle, BatchCount, Mismatched, AllDone, Saga.InvalidNote;
    HandledRow(g, s, e, cfg);
  }

  // After one handler the job is in the list exactly when it wrote the entry, or
  // left it alone and it was there.
  lemma HandlerLists(g: Purge, s: Progress, e: Event, cfg: Config)
    requires WellFormed(g) && Sound(g, s, cfg) && Concerns(g, e) && NoStray(s, g.id)
    ensures var v, effect := Handle(s, g.id, e, cfg), EffectOf(RowOf(s, g.id), e, cfg);
      && Sound(g, v, cfg) && NoStray(v, g.id)
      && (InList(v, g.id) <==> effect.Shown? || (effect.Kept? && InList(s, g.id)))
  {
    hide Handle, EffectOf, SoundRow, Bucket;
    HandlerChanges(g, s, e, cfg);
    var v := Handle(s, g.id, e, cfg);
    if g.id in v.t.jobs {
      var own := KeyOf(v.t.jobs[g.id]);
      forall key | key in v.t.active && key.1 == g.id ensures key == own {
        assert key == own || (key in v.t.active - {own} <==> key in s.t.active - {own}) || v.t.active == s.t.active;
      }
    }
  }

  // What drops the entry has finished the job.
  lemma DroppedIsFinished(g: Purge, s: Progress, e: Event, cfg: Config)
    requires WellFormed(g) && Sound(g, s, cfg) && Concerns(g, e) && EffectOf(RowOf(s, g.id), e, cfg).Dropped?
    ensures var v := Handle(s, g.id, e, cfg); g.id in v.t.jobs && v.t.jobs[g.id].state.Complete?
  {
    hide Handle, BatchCount, InvalidIn, Mismatched, Saga.InvalidNote;
    if e.Deliver? {
      HandledRow(g, s, e, cfg);
    } else {
      SweptIsFinished(g, s, e, cfg);
    }
  }

  lemma SweptIsFinished(g: Purge, s: Progress, e: Event, cfg: Config)
    requires Named(s.t) && g.id in s.t.jobs && e.Sweep? && e.answers >= 5 && e.removes
    requires s.t.jobs[g.id].state.Decremented? && s.t.jobs[g.id].attempts + 1 < cfg.maxAttempts
    ensures var v := Handle(s, g.id, e, cfg); g.id in v.t.jobs && v.t.jobs[g.id].state.Complete?
  {
    hide Recovered;
    RecoveredRows(Begin(s, e.answers), g.id, e.now, e.reached, e.removes, cfg);
  }

  // The k-th handler wrote the entry.
  ghost predicate ShownAt(g: Purge, s: Progress, events: seq<Event>, k: nat, cfg: Config)
    requires WellFormed(g) && Sound(g, s, cfg) && (forall e :: e in events ==> Concerns(g, e)) && k < |events|
  {
    EffectOf(RowOf(History(g, s, events[..k], cfg), g.id), events[k], cfg).Shown?
  }

  lemma ShownLater(g: Purge, s: Progress, events: seq<Event>, k: nat, cfg: Config)
    requires WellFormed(g) && Sound(g, s, cfg) && (forall e :: e in events ==> Concerns(g, e)) && k + 1 < |events|
    ensures Sound(g, Handle(s, g.id, events[0], cfg), cfg)
    ensures ShownAt(g, s, events, k + 1, cfg) <==> ShownAt(g, Handle(s, g.id, events[0], cfg), events[1..], k, cfg)
  {
    hide Handle, EffectOf, SoundRow, Concerns;
    HandlerGoesForward(g, s, events[0], cfg);
    assert events[..k + 1][1..] == events[1..][..k] && events[..k + 1][0] == events[0];
  }

  lemma FinishedForGood(g: Purge, s: Progress, events: seq<Event>, cfg: Config)
    requires WellFormed(g) && Sound(g, s, cfg) && (forall e :: e in events ==> Concerns(g, e))
    requires g.id in s.t.jobs && s.t.jobs[g.id].state.Complete?
    ensures !Unfinished(History(g, s, events, cfg), g.id)
  {
    JobsOnlyAdvance(g, s, events, cfg);
  }

  // A job that is not finished is in the work list exactly when some handler of
  // its history had its list write answered: it is missing only between a creation
  // that stopped after the row and the first state change that came to its end.
  lemma {:induction false} UnfinishedIsListedExactlyWhen(g: Purge, s: Progress, events: seq<Event>, cfg: Config)
    requires WellFormed(g) && Sound(g, s, cfg) && (forall e :: e in events ==> Concerns(g, e)) && NoStray(s, g.id)
    requires Unfinished(History(g, s, events, cfg), g.id)
    ensures InList(History(g, s, events, cfg), g.id) <==>
      InList(s, g.id) || exists k :: 0 <= k < |events| && ShownAt(g, s, events, k, cfg)
    decreases |events|
  {
    hide Handle, EffectOf, SoundRow, Concerns, InList, NoStray;
    if events != [] {
      var e, v := events[0], Handle(s, g.id, events[0], cfg);
      HandlerLists(g, s, e, cfg);
      UnfinishedIsListedExactlyWhen(g, v, events[1..], cfg);
      assert ShownAt(g, s, events, 0, cfg) <==> EffectOf(RowOf(s, g.id), e, cfg).Shown? by {
        assert events[..0] == [];
      }
      if EffectOf(RowOf(s, g.id), e, cfg).Dropped? {
        DroppedIsFinished(g, s, e, cfg);
        FinishedForGood(g, v, events[1..], cfg);
      }
      forall k | 0 <= k < |events| - 1
        ensures ShownAt(g, s, events, k + 1, cfg) <==> ShownAt(g, v, events[1..], k, cfg)
      {
        ShownLater(g, s, events, k, cfg);
      }
      if exists k :: 0 <= k < |events| - 1 && ShownAt(g, v, events[1..], k, cfg) {
        var k :| 0 <= k < |events| - 1 && ShownAt(g, v, events[1..], k, cfg);
        assert ShownAt(g, s, events, k + 1, cfg);
      }
      if exists k :: 0 <= k < |events| && ShownAt(g, s, events, k, cfg) {
        var k :| 0 <= k < |events| && ShownAt(g, s, events, k, cfg);
        if k > 0 {
          assert ShownAt(g, v, events[1..], k - 1, cfg);
        }
      }
    }
  }

  // So it is there in every history in which no creation stopped after its row.
  lemma {:induction false} UnfinishedIsListed(g: Purge, s: Progress, events: seq<Event>, cfg: Config)
    requires WellFormed(g) && Sound(g, s, cfg) && (forall e :: e in events ==> Concerns(g, e)) && NoStray(s, g.id)
    requires g.id in s.t.jobs ==> InList(s, g.id)
    requires forall e :: e in events && e.Ask? ==> e.answers != 1
    requires Unfinished(History(g, s, events, cfg), g.id)
    ensures InList(History(g, s, events, cfg), g.id)
    decreases |events|
  {
    hide Handle, EffectOf, SoundRow, Concerns, InList, NoStray;
    if events != [] {
      var e, v := events[0], Handle(s, g.id, events[0], cfg);
      HandlerLists(g, s, e, cfg);
      if EffectOf(RowOf(s, g.id), e, cfg).Dropped? {
        DroppedIsFinished(g, s, e, cfg);
        FinishedForGood(g, v, events[1..], cfg);
      } else if g.id !in s.t.jobs {
        CreationLists(g, s, e, cfg);
      }
      UnfinishedIsListed(g, v, events[1..], cfg);
    }
  }

  lemma CreationLists(g: Purge, s: Progress, e: Event, cfg: Config)
    requires WellFormed(g) && Sound(g, s, cfg) && Concerns(g, e) && g.id !in s.t.jobs
    requires e.Ask? ==> e.answers != 1
    ensures g.id in Handle(s, g.id, e, cfg).t.jobs ==> EffectOf(None, e, cfg).Shown?
  {
    hide FullyPublished, Updated, BatchCount;
  }

  // A handler that completes the job takes it off the list exactly when its very
  // last statement was answered.
  lemma CompletionLeavesTheList(g: Purge, s: Progress, e: Event, cfg: Config)
    requires WellFormed(g) && Sound(g, s, cfg) && Concerns(g, e) && NoStray(s, g.id) && InList(s, g.id)
    requires var v := Handle(s, g.id, e, cfg);
      !s.t.jobs[g.id].state.Complete? && g.id in v.t.jobs && v.t.jobs[g.id].state.Complete?
    ensures InList(Handle(s, g.id, e, cfg), g.id) <==> e.answers < if e.Deliver? then 7 else 5
  {
    hide Handle, BatchCount, InvalidIn, Mismatched, Saga.InvalidNote;
    HandlerLists(g, s, e, cfg);
    match e
    case Ask(_, _, _, _, _) => AskNeverFinishes(g, s, e, cfg);
    case Deliver(_, _, _, _) => HandledRow(g, s, e, cfg);
    case Sweep(_, _, _, _) => SweepFinishesOnly(g, s, e, cfg);
  }

  lemma AskNeverFinishes(g: Purge, s: Progress, e: Event, cfg: Config)
    requires WellFormed(g) && Sound(g, s, cfg) && Concerns(g, e) && e.Ask? && g.id in s.t.jobs && !s.t.jobs[g.id].state.Complete?
    ensures g.id in Handle(s, g.id, e, cfg).t.jobs && !Handle(s, g.id, e, cfg).t.jobs[g.id].state.Complete?
  {
    hide Asked, BatchCount;
    AskedRows(Begin(s, e.answers), g.id, e.blocks, e.trashed, e.now, e.reached);
  }

  lemma SweepFinishesOnly(g: Purge, s: Progress, e: Event, cfg: Config)
    requires Named(s.t) && g.id in s.t.jobs && e.Sweep? && !s.t.jobs[g.id].state.Complete?
    requires g.id in Handle(s, g.id, e, cfg).t.jobs && Handle(s, g.id, e, cfg).t.jobs[g.id].state.Complete?
    ensures s.t.jobs[g.id].state.Decremented? && e.removes && e.answers >= 3 && s.t.jobs[g.id].attempts + 1 < cfg.maxAttempts
  {
    hide Recovered;
    RecoveredRows(Begin(s, e.answers), g.id, e.now, e.reached, e.removes, cfg);
  }

  // And it stays off the list for as long as it is COMPLETE.
  lemma {:induction false} CompleteStaysOff(g: Purge, s: Progress, events: seq<Event>, cfg: Config)
    requires WellFormed(g) && Sound(g, s, cfg) && (forall e :: e in events ==> Concerns(g, e)) && NoStray(s, g.id)
    requires g.id in s.t.jobs && s.t.jobs[g.id].state.Complete? && !InList(s, g.id)
    requires var r := History(g, s, events, cfg); g.id in r.t.jobs && r.t.jobs[g.id].state.Complete?
    ensures !InList(History(g, s, events, cfg), g.id)
    decreases |events|
  {
    hide Handle, EffectOf, SoundRow, Concerns, InList, NoStray;
    if events != [] {
      var e, v := events[0], Handle(s, g.id, events[0], cfg);
      HandlerLists(g, s, e, cfg);
      HandlerGoesForward(g, s, e, cfg);
      JobsOnlyAdvance(g, v, events[1..], cfg);
      CompleteIsKept(g, s, e, cfg);
      CompleteStaysOff(g, v, events[1..], cfg);
    }
  }

  lemma CompleteIsKept(g: Purge, s: Progress, e: Event, cfg: Config)
    requires WellFormed(g) && Sound(g, s, cfg) && Concerns(g, e) && g.id in s.t.jobs && s.t.jobs[g.id].state.Complete?
    requires var v := Handle(s, g.id, e, cfg); g.id in v.t.jobs && !v.t.jobs[g.id].state.Failed?
    ensures EffectOf(RowOf(s, g.id), e, cfg).Kept?
  {
    hide Recovered, Asked, Completed, BatchCount;
    if e.Sweep? {
      RecoveredRows(Begin(s, e.answers), g.id, e.now, e.reached, e.removes, cfg);
    }
  }

  // ---------------------------------------------------------------- schedule

  // The clock does not run backwards.
  predicate Clocked(events: seq<Event>, from: int) {
    if events == [] then true
    else
      match events[0]
      case Ask(_, _, now, _, _) => from <= now && Clocked(events[1..], now)
      case Deliver(_, _, _, _) => Clocked(events[1..], from)
      case Sweep(now, _, _, _) => from <= now && Clocked(events[1..], now)
  }

  function ClockAfter(e: Event, from: int): int {
    match e
    case Ask(_, _, now, _, _) => now
    case Deliver(_, _, _, _) => from
    case Sweep(now, _, _, _) => now
  }

  // The row is due no earlier than it was created and no later than its last claim
  // allows, and its entry never later than the row.
  ghost predicate OnTime(s: Progress, id: JobId, clock: int, cfg: Config) {
    id in s.t.jobs ==>
      var j := s.t.jobs[id];
      && j.createdAt <= j.nextAttemptAt && j.createdAt <= clock
      && (if j.attempts == 0 then j.nextAttemptAt == j.createdAt else j.nextAttemptAt <= clock + Backoff(j.attempts - 1, cfg))
      && (InList(s, id) ==> s.t.active[KeyOf(j)].nextAttemptAt <= j.nextAttemptAt)
  }

  lemma RowOnTime(g: Purge, s: Progress, e: Event, clock: int, cfg: Config)
    requires WellFormed(g) && Usable(cfg) && Sound(g, s, cfg) && Concerns(g, e) && OnTime(s, g.id, clock, cfg)
    requires clock <= ClockAfter(e, clock)
    ensures var v, now := Handle(s, g.id, e, cfg), ClockAfter(e, clock);
      g.id in v.t.jobs ==>
        var r := v.t.jobs[g.id];
        && r.createdAt <= r.nextAttemptAt && r.createdAt <= now
        && (if r.attempts == 0 then r.nextAttemptAt == r.createdAt else r.nextAttemptAt <= now + Backoff(r.attempts - 1, cfg))
        && (g.id in s.t.jobs ==> s.t.jobs[g.id].nextAttemptAt <= r.nextAttemptAt)
  {
    hide Handle, Backoff, BatchCount, InvalidIn, InList;
    match e
    case Ask(_, _, _, _, _) => AskedTimes(g, s, e, cfg);
    case Deliver(_, _, _, _) =>
      if g.id in s.t.jobs {
        DeliveredTimes(g, s, e, cfg);
      } else {
        OrphanChangesNothing(s, g.id, e, cfg);
      }
    case Sweep(_, _, _, _) =>
      if g.id in s.t.jobs {
        SweptTimes(g, s, e, cfg);
        DelaysGrow(s.t.jobs[g.id].attempts, cfg);
      } else {
        OrphanChangesNothing(s, g.id, e, cfg);
      }
  }

  lemma DelaysGrow(attempts: nat, cfg: Config)
    requires Usable(cfg)
    ensures 0 <= Backoff(attempts, cfg)
    ensures attempts > 0 ==> Backoff(attempts - 1, cfg) <= Backoff(attempts, cfg)
  {
    hide Backoff;
    BackoffIsMonotoneAndCapped(attempts, attempts, cfg);
    if attempts > 0 {
      BackoffIsMonotoneAndCapped(attempts - 1, attempts, cfg);
    }
  }

  lemma SweptTimes(g: Purge, s: Progress, e: Event, cfg: Config)
    requires Named(s.t) && g.id in s.t.jobs && e.Sweep?
    ensures var j, v := s.t.jobs[g.id], Handle(s, g.id, e, cfg);
      && g.id in v.t.jobs && v.t.jobs[g.id].createdAt == j.createdAt
      && v.t.jobs[g.id].attempts == j.attempts + (if e.answers >= 2 then 1 else 0)
      && v.t.jobs[g.id].nextAttemptAt == if e.answers >= 2 then e.now + Backoff(j.attempts, cfg) else j.nextAttemptAt
  {
    hide Recovered, Backoff, BatchCount;
    RecoveredRows(Begin(s, e.answers), g.id, e.now, e.reached, e.removes, cfg);
  }

  lemma StaysOnTime(g: Purge, s: Progress, e: Event, clock: int, cfg: Config)
    requires WellFormed(g) && Usable(cfg) && Sound(g, s, cfg) && Concerns(g, e) && NoStray(s, g.id)
    requires OnTime(s, g.id, clock, cfg) && clock <= ClockAfter(e, clock)
    ensures OnTime(Handle(s, g.id, e, cfg), g.id, ClockAfter(e, clock), cfg)
  {
    hide Handle, EffectOf, SoundRow, Backoff, Bucket, Concerns, ClockAfter;
    RowOnTime(g, s, e, clock, cfg);
    HandlerChanges(g, s, e, cfg);
  }

  lemma {:induction false} HistoryOnTime(g: Purge, s: Progress, events: seq<Event>, clock: int, cfg: Config) returns (end: int)
    requires WellFormed(g) && Usable(cfg) && Sound(g, s, cfg) && (forall e :: e in events ==> Concerns(g, e)) && NoStray(s, g.id)
    requires OnTime(s, g.id, clock, cfg) && Clocked(events, clock)
    ensures OnTime(History(g, s, events, cfg), g.id, end, cfg) && NoStray(History(g, s, events, cfg), g.id)
    decreases |events|
  {
    hide Handle, SoundRow, Concerns, OnTime, NoStray;
    if events == [] {
      end := clock;
    } else {
      var e := events[0];
      StaysOnTime(g, s, e, clock, cfg);
      HandlerLists(g, s, e, cfg);
      end := HistoryOnTime(g, Handle(s, g.id, e, cfg), events[1..], ClockAfter(e, clock), cfg);
    }
  }

  // A history that begins with nothing of the job.
  ghost predicate Fresh(s: Progress, id: JobId) {
    id !in s.t.jobs && NoStray(s, id)
  }

  // So in any history of whole handlers with a clock that does not run backwards,
  // a sweep finds a job that is due and unfinished, while it can still retry and
  // the retry cap is a whole number of hours, exactly when some handler had its
  // list write answered.
  lemma DueJobIsSweptExactlyWhen(g: Purge, s: Progress, events: seq<Event>, from: int, now: int, cfg: Config)
    requires WellFormed(g) && Usable(cfg) && cfg.maxDelay % HOUR == 0 && Fresh(s, g.id) && Sound(g, s, cfg)
    requires (forall e :: e in events ==> Concerns(g, e)) && Clocked(events, from)
    requires var r := History(g, s, events, cfg);
      && Unfinished(r, g.id) && r.t.jobs[g.id].nextAttemptAt <= now
      && now - r.t.jobs[g.id].createdAt <= Lifetime(cfg)
    ensures DueIn(History(g, s, events, cfg).t, g.id, now, cfg) <==>
      exists k :: 0 <= k < |events| && ShownAt(g, s, events, k, cfg)
  {
    hide History, ShownAt, Lifetime, Lookback, Bucket;
    var r := History(g, s, events, cfg);
    var j := r.t.jobs[g.id];
    var end := HistoryOnTime(g, s, events, from, cfg);
    UnfinishedIsListedExactlyWhen(g, s, events, cfg);
    WholeHourCapsAreCovered(j.createdAt, now, cfg);
    if InList(r, g.id) {
      assert DueKey(r.t, KeyOf(j), now, cfg);
    }
  }

  // In particular in every history in which no creation stopped after its row.
  lemma DueJobIsSwept(g: Purge, s: Progress, events: seq<Event>, from: int, now: int, cfg: Config)
    requires WellFormed(g) && Usable(cfg) && cfg.maxDelay % HOUR == 0 && Fresh(s, g.id) && Sound(g, s, cfg)
    requires (forall e :: e in events ==> Concerns(g, e)) && Clocked(events, from)
    requires forall e :: e in events && e.Ask? ==> e.answers != 1
    requires var r := History(g, s, events, cfg);
      && Unfinished(r, g.id) && r.t.jobs[g.id].nextAttemptAt <= now
      && now - r.t.jobs[g.id].createdAt <= Lifetime(cfg)
    ensures DueIn(History(g, s, events, cfg).t, g.id, now, cfg)
  {
    hide History, DueIn, ShownAt, Lifetime;
    UnfinishedIsListed(g, s, events, cfg);
    UnfinishedIsListedExactlyWhen(g, s, events, cfg);
    DueJobIsSweptExactlyWhen(g, s, events, from, now, cfg);
  }
}
