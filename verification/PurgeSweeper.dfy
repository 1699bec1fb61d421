// services/metadata/internal/purge/sweeper.go: one pass over the due jobs.
module PurgeSweeper {
  import opened Common
  import opened PurgeBatches
  import opened PurgeTables
  import opened PurgeHandlers
  import opened PurgeConvergence
  import opened SweepWindow

  // A work-list entry a sweep at this time picks up.
  predicate DueKey(t: Tables, key: ActiveKey, now: int, cfg: Config)
    requires key in t.active
  {
    Bucket(now) - Lookback(cfg) <= key.0 <= Bucket(now) && t.active[key].nextAttemptAt <= now
  }

  predicate DueIn(t: Tables, id: JobId, now: int, cfg: Config) {
    exists key :: key in t.active && key.1 == id && DueKey(t, key, now, cfg)
  }

  lemma RecoveredKeepsNames(s: Progress, id: JobId, now: int, reached: nat, removes: bool, cfg: Config)
    requires s.ok && Named(s.t)
    ensures Named(Recovered(s, id, now, reached, removes, cfg).t)
  {
    if id in s.t.jobs {
      hide Recovered;
      RecoveredRows(s, id, now, reached, removes, cfg);
    }
  }

  // Recoveries one after the other; an error in one does not stop the next.
  ghost function Swept(s: Progress, ids: seq<JobId>, reaches: seq<nat>, now: int, removes: bool, cfg: Config): (r: Progress)
    requires s.ok && Named(s.t) && |reaches| == |ids|
    ensures r.ok && Named(r.t)
    decreases |ids|
  {
    if ids == [] then s
    else
      var before := Swept(s, ids[..|ids| - 1], reaches[..|ids| - 1], now, removes, cfg);
      RecoveredKeepsNames(before, ids[|ids| - 1], now, reaches[|ids| - 1], removes, cfg);
      Recovered(before, ids[|ids| - 1], now, reaches[|ids| - 1], removes, cfg).(ok := true)
  }

  // A recovery's publish loop gets only as far as the job's row allows.
  ghost predicate RecoveryReaches(s: Progress, id: JobId, reached: nat) {
    id in s.t.jobs ==> PublishReaches(s.t.jobs[id], s.t.jobs[id].attempts + 1, reached)
  }

  ghost predicate SweepReaches(s: Progress, ids: seq<JobId>, reaches: seq<nat>, now: int, removes: bool, cfg: Config)
    requires s.ok && Named(s.t) && |reaches| == |ids|
    decreases |ids|
  {
    ids != [] ==>
      var front, reached := ids[..|ids| - 1], reaches[..|ids| - 1];
      && SweepReaches(s, front, reached, now, removes, cfg)
      && RecoveryReaches(Swept(s, front, reached, now, removes, cfg), ids[|ids| - 1], reaches[|ids| - 1])
  }

  lemma ReachesOneMore(s: Progress, ids: seq<JobId>, reaches: seq<nat>, id: JobId, reached: nat, now: int, removes: bool, cfg: Config)
    requires s.ok && Named(s.t) && |reaches| == |ids| && SweepReaches(s, ids, reaches, now, removes, cfg)
    requires RecoveryReaches(Swept(s, ids, reaches, now, removes, cfg), id, reached)
    ensures SweepReaches(s, ids + [id], reaches + [reached], now, removes, cfg)
  {
    hide Swept, RecoveryReaches, Named;
    assert (ids + [id])[..|ids|] == ids && (reaches + [reached])[..|ids|] == reaches;
  }

  lemma SweptOneMore(s: Progress, ids: seq<JobId>, reaches: seq<nat>, id: JobId, reached: nat, now: int, removes: bool, cfg: Config)
    requires s.ok && Named(s.t) && |reaches| == |ids|
    ensures Swept(s, ids + [id], reaches + [reached], now, removes, cfg)
      == Recovered(Swept(s, ids, reaches, now, removes, cfg), id, now, reached, removes, cfg).(ok := true)
  {
    hide Recovered, Named;
    assert (ids + [id])[..|ids|] == ids && (reaches + [reached])[..|ids|] == reaches;
  }

  // The list costs one statement a bucket.
  function ListRead(s: Progress, cfg: Config): Progress {
    s.(answers := Max(s.answers - (Lookback(cfg) + 1), 0))
  }

  lemma NothingSwept(s: Progress, now: int, removes: bool, cfg: Config)
    requires s.ok && Named(s.t)
    ensures Swept(s, [], [], now, removes, cfg) == s
  {
  }

  // The jobs behind the due entries.
  lemma ListedAreDue(t: Tables, refs: seq<ActiveKey>, ids: seq<JobId>, now: int, cfg: Config)
    requires forall key :: key in refs <==> key in t.active && DueKey(t, key, now, cfg)
    requires |ids| == |refs| && forall k :: 0 <= k < |refs| ==> ids[k] == refs[k].1
    ensures forall id :: id in ids <==> DueIn(t, id, now, cfg)
  {
    hide DueKey;
    forall id ensures id in ids <==> DueIn(t, id, now, cfg) {
      if id in ids {
        var k :| 0 <= k < |ids| && ids[k] == id;
        assert refs[k] in refs;
      }
      if DueIn(t, id, now, cfg) {
        var key :| key in t.active && key.1 == id && DueKey(t, key, now, cfg);
        assert key in refs;
        var k :| 0 <= k < |refs| && refs[k] == key;
        assert ids[k] == id;
      }
    }
  }

  class Sweeper {
    const deps: Coordinator
    const cfg: Config

    constructor (deps: Coordinator, cfg: Config)
      ensures this.deps == deps && this.cfg == Normalize(cfg)
    {
      this.deps := deps;
      this.cfg := Normalize(cfg);
    }

    // One pass: when the list can be read, every job with a due work-list entry in
    // the scanned buckets is recovered once for each such entry, as of the time the
    // list was taken.
    method SweepOnce(now: int, removes: bool) returns (ghost ids: seq<JobId>, ghost reaches: seq<nat>)
      requires Named(deps.repo.View()) && Usable(cfg)
      modifies deps, deps.repo, deps.bus
      ensures |reaches| == |ids|
      ensures old(deps.repo.answered) > Lookback(cfg) ==>
        && (forall id :: id in ids <==> DueIn(old(deps.repo.View()), id, now, cfg))
        && deps.Now(true) == Swept(ListRead(old(deps.Now(true)), cfg), ids, reaches, now, removes, cfg)
        && SweepReaches(ListRead(old(deps.Now(true)), cfg), ids, reaches, now, removes, cfg)
      ensures old(deps.repo.answered) <= Lookback(cfg) ==> deps.Now(true) == ListRead(old(deps.Now(true)), cfg)
    {
      hide Recovered, Swept, DueIn, Lookback, Bucket, PublishReaches;
      var buckets := DueBuckets(now, cfg);
      ids, reaches := [], [];
      var ok, refs := deps.repo.ListDueActive(buckets, now);
      if !ok {
        return;
      }
      ghost var start := deps.Now(true);
      NothingSwept(start, now, removes, cfg);
      for i := 0 to |refs|
        invariant |ids| == |reaches| == i
        invariant forall k :: 0 <= k < i ==> ids[k] == refs[k].1
        invariant Named(deps.repo.View())
        invariant deps.Now(true) == Swept(start, ids, reaches, now, removes, cfg)
        invariant SweepReaches(start, ids, reaches, now, removes, cfg)
      {
        ghost var before := deps.Now(true);
        ghost var reached;
        ok, reached := deps.Recover(refs[i].1, now, removes, cfg);
        RecoveredKeepsNames(before, refs[i].1, now, reached, removes, cfg);
        ReachesOneMore(start, ids, reaches, refs[i].1, reached, now, removes, cfg);
        SweptOneMore(start, ids, reaches, refs[i].1, reached, now, removes, cfg);
        ids, reaches := ids + [refs[i].1], reaches + [reached];
      }
      ListedAreDue(old(deps.repo.View()), refs, ids, now, cfg);
    }
  }
}
