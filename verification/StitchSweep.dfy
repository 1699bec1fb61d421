// services/metadata/internal/content/stitcher_worker.go: the sweep that claims
// files, assembles them and records the outcome.
module StitchSweep {
  import opened Common
  import opened BlockStream
  import opened Consolidation
  import opened StitchRegistry

  datatype Config = Config(batchSize: nat, minAge: int, staleAfter: int, maxAttempts: int)

  const DEFAULT_MAX_ATTEMPTS := 5

  // The file's current blocks; absent when the manifest cannot be loaded.
  type Manifests = map<FileId, seq<Block>>

  // Every READY row names an object that holds, byte for byte, what the file's
  // blocks hold: what lets a download be answered from either tier.
  ghost predicate Backed(t: Tables, objects: map<string, seq<Byte>>, manifests: Manifests, store: BlockStore)
    requires forall id :: id in manifests ==> Stored(ManifestOf(manifests[id]), store)
  {
    forall id :: id in t.rows && t.rows[id].state.Ready? ==>
      && id in manifests
      && t.rows[id].objectKey == ConsolidatedKey(id)
      && ConsolidatedKey(id) in objects
      && objects[ConsolidatedKey(id)] == File(ManifestOf(manifests[id]), store)
  }

  lemma KeysDiffer(a: FileId, b: FileId)
    requires a != b
    ensures ConsolidatedKey(a) != ConsolidatedKey(b)
  {
    var p := "consolidated/";
    assert (p + a)[|p|..] == a && (p + b)[|p|..] == b;
  }

  // The row a claim, a mark or a reset may write.
  function RowWritten(t: Tables, id: FileId, op: Op): Option<Row> {
    if id in t.rows then NewRow(t.rows[id], op)
    else if op.Claim? then Some(Row(Stitching, 1, op.now, ""))
    else None
  }

  lemma {:induction false} RowsAfter(t: Tables, ws: seq<Write>, id: FileId, row: Row)
    requires forall w :: w in ws ==> w.PutEntry? || w.DropEntry? || w == PutRow(id, row)
    ensures PerformAll(t, ws).rows == t.rows || PerformAll(t, ws).rows == t.rows[id := row]
    decreases |ws|
  {
    if ws != [] {
      assert ws[0] in ws;
      RowsAfter(Perform(t, ws[0]), ws[1..], id, row);
    }
  }

  // An operation that may have stopped early leaves the rows as they were, or with
  // the one row it writes.
  lemma StoppedRows(t: Tables, id: FileId, op: Op, n: nat)
    requires !op.Delete? && !op.Enqueue?
    ensures var v := Stopped(t, Plan(t, id, op), n);
      || v.rows == t.rows
      || (RowWritten(t, id, op).Some? && v.rows == t.rows[id := RowWritten(t, id, op).value])
  {
    var plan := Plan(t, id, op);
    var row := match RowWritten(t, id, op) case Some(r) => r case None => Row(Pending, 0, 0, "");
    RowsAfter(t, plan[..Min(n, |plan|)], id, row);
    if RowWritten(t, id, op).None? {
      assert plan == [];
    }
  }

  // A completed one writes its row.
  lemma CompletedRow(t: Tables, id: FileId, op: Op, n: nat)
    requires !op.Delete? && !op.Enqueue? && n >= |Plan(t, id, op)| && RowWritten(t, id, op).Some?
    ensures Stopped(t, Plan(t, id, op), n).rows == t.rows[id := RowWritten(t, id, op).value]
  {
    AllOfIt(t, Plan(t, id, op), n);
    PlanEffect(t, id, op);
  }

  // Some operations were issued on the file, not MARKREADY; each may have stopped.
  lemma UnreadyKeepsBacked(t: Tables, id: FileId, op: Op, n: nat, objects: map<string, seq<Byte>>,
                           manifests: Manifests, store: BlockStore)
    requires forall k :: k in manifests ==> Stored(ManifestOf(manifests[k]), store)
    requires Backed(t, objects, manifests, store)
    requires op.Claim? || op.MarkFailed? || op.MarkSkipped?
    ensures Backed(Stopped(t, Plan(t, id, op), n), objects, manifests, store)
  {
    StoppedRows(t, id, op, n);
  }

  lemma AssembledKeepsBacked(t: Tables, id: FileId, objects: map<string, seq<Byte>>, now: map<string, seq<Byte>>,
                             manifests: Manifests, store: BlockStore)
    requires forall k :: k in manifests ==> Stored(ManifestOf(manifests[k]), store)
    requires Backed(t, objects, manifests, store) && id in manifests
    requires now == objects || now == objects[ConsolidatedKey(id) := File(ManifestOf(manifests[id]), store)]
    ensures Backed(t, now, manifests, store)
  {
    forall k | k in t.rows && t.rows[k].state.Ready?
      ensures ConsolidatedKey(k) in now && now[ConsolidatedKey(k)] == File(ManifestOf(manifests[k]), store)
    {
      if k != id {
        KeysDiffer(k, id);
      }
    }
  }

  lemma ReadyKeepsBacked(t: Tables, id: FileId, n: nat, objects: map<string, seq<Byte>>,
                         manifests: Manifests, store: BlockStore)
    requires forall k :: k in manifests ==> Stored(ManifestOf(manifests[k]), store)
    requires Backed(t, objects, manifests, store) && id in manifests
    requires ConsolidatedKey(id) in objects && objects[ConsolidatedKey(id)] == File(ManifestOf(manifests[id]), store)
    ensures Backed(Stopped(t, Plan(t, id, MarkReady(ConsolidatedKey(id))), n), objects, manifests, store)
  {
    StoppedRows(t, id, MarkReady(ConsolidatedKey(id)), n);
  }

  // No row but this one changed, and none went.
  ghost predicate SameBut(rows: map<FileId, Row>, after: map<FileId, Row>, id: FileId) {
    && rows.Keys <= after.Keys <= rows.Keys + {id}
    && forall k :: k in rows && k != id ==> after[k] == rows[k]
  }

  // What a sweep makes of a claimed file when every write is performed.
  function Verdict(id: FileId, manifests: Manifests, storeAnswers: nat): State {
    if id !in manifests then Failed
    else if !Eligible(manifests[id], MIN_PART_SIZE) then Skipped
    else if Stitchable(manifests[id], MIN_PART_SIZE) && storeAnswers >= |manifests[id]| + 3 then Ready
    else Failed
  }

  // Parked exactly for a block before the last below 5 MiB; ready exactly for a
  // non-empty list of large enough blocks with valid hashes and a store that
  // answers to the end; failed otherwise.
  lemma VerdictExactlyWhen(id: FileId, manifests: Manifests, storeAnswers: nat)
    ensures var v := Verdict(id, manifests, storeAnswers);
      && (v.Skipped? <==> id in manifests && exists k :: 0 <= k < |manifests[id]| - 1 && manifests[id][k].size < 5_242_880)
      && (v.Ready? <==>
            && id in manifests && manifests[id] != [] && storeAnswers >= |manifests[id]| + 3
            && (forall k :: 0 <= k < |manifests[id]| - 1 ==> manifests[id][k].size >= 5_242_880)
            && (forall k :: 0 <= k < |manifests[id]| ==> ValidHash(manifests[id][k].hash)))
      && (v.Skipped? || v.Ready? || v.Failed?)
  {
    if id in manifests {
      var blocks := manifests[id];
      if !Eligible(blocks, MIN_PART_SIZE) {
        var k :| 0 <= k < |blocks| - 1 && blocks[k].size < MIN_PART_SIZE;
      }
    }
  }

  // A row the sweep takes on when it comes across it: neither finished nor parked,
  // old enough unless it failed, not in another worker's hands, and within its
  // attempts if it failed.
  predicate Ripe(row: Row, cfg: Config, now: int) {
    || (row.state.Pending? && now - row.claimedAt >= cfg.minAge)
    || (row.state.Stitching? && now - row.claimedAt >= cfg.minAge && row.claimedAt + cfg.staleAfter <= now)
    || (row.state.Failed? && row.attempts < if cfg.maxAttempts <= 0 then 5 else cfg.maxAttempts)
  }

  // The row of a file that was claimed and worked on to the end.
  predicate Treated(was: Row, row: Row, id: FileId, manifests: Manifests, storeAnswers: nat, now: int) {
    row.state == Verdict(id, manifests, storeAnswers) && row.claimedAt == now && row.attempts > was.attempts
  }

  // No row changed but those taken on.
  ghost predicate OnlyRipe(rows: map<FileId, Row>, after: map<FileId, Row>, manifests: Manifests, storeAnswers: nat,
                           cfg: Config, now: int)
  {
    && after.Keys == rows.Keys
    && forall id :: id in rows && after[id] != rows[id] ==>
         Ripe(rows[id], cfg, now) && Treated(rows[id], after[id], id, manifests, storeAnswers, now)
  }

  // The sweep is done with a file it came across.
  ghost predicate Settled(rows: map<FileId, Row>, after: map<FileId, Row>, id: FileId, manifests: Manifests,
                          storeAnswers: nat, cfg: Config, now: int)
  {
    id in rows && id in after && (Ripe(rows[id], cfg, now) ==> Treated(rows[id], after[id], id, manifests, storeAnswers, now))
  }

  // Where a sweep stands after the first n of its records.
  ghost predicate Swept(rows: map<FileId, Row>, after: map<FileId, Row>, records: seq<(FileId, Row)>, n: nat,
                        manifests: Manifests, storeAnswers: nat, cfg: Config, now: int)
    requires n <= |records|
  {
    && OnlyRipe(rows, after, manifests, storeAnswers, cfg, now)
    && forall k :: 0 <= k < n ==> Settled(rows, after, records[k].0, manifests, storeAnswers, cfg, now)
  }

  lemma NothingSwept(rows: map<FileId, Row>, records: seq<(FileId, Row)>, manifests: Manifests, storeAnswers: nat,
                     cfg: Config, now: int)
    ensures Swept(rows, rows, records, 0, manifests, storeAnswers, cfg, now)
  {
  }

  // A file that is passed over.
  lemma OneMoreSkipped(rows: map<FileId, Row>, after: map<FileId, Row>, records: seq<(FileId, Row)>, n: nat,
                       manifests: Manifests, storeAnswers: nat, cfg: Config, now: int)
    requires n < |records| && records[n].0 in rows && records[n].1 == rows[records[n].0] && !Ripe(records[n].1, cfg, now)
    requires Swept(rows, after, records, n, manifests, storeAnswers, cfg, now)
    ensures Swept(rows, after, records, n + 1, manifests, storeAnswers, cfg, now)
  {
    hide Ripe, Treated;
  }

  // A file that the sweep tried to claim.
  lemma OneMoreTried(rows: map<FileId, Row>, before: map<FileId, Row>, after: map<FileId, Row>, records: seq<(FileId, Row)>,
                     n: nat, claimed: bool, manifests: Manifests, storeAnswers: nat, cfg: Config, now: int)
    requires n < |records| && records[n].0 in rows && records[n].0 in before
    requires Swept(rows, before, records, n, manifests, storeAnswers, cfg, now) && SameBut(before, after, records[n].0)
    requires claimed ==>
      Ripe(rows[records[n].0], cfg, now)
      && Treated(before[records[n].0], after[records[n].0], records[n].0, manifests, storeAnswers, now)
    requires !claimed ==> after == before && (before[records[n].0] == rows[records[n].0] ==> !Ripe(rows[records[n].0], cfg, now))
    ensures Swept(rows, after, records, n + 1, manifests, storeAnswers, cfg, now)
  {
    hide Ripe, Verdict;
    var id := records[n].0;
    assert Settled(rows, after, id, manifests, storeAnswers, cfg, now);
    forall k | 0 <= k < n ensures Settled(rows, after, records[k].0, manifests, storeAnswers, cfg, now) {
      assert Settled(rows, before, records[k].0, manifests, storeAnswers, cfg, now);
    }
  }

  // Which rows a sweep that tries them claims: the ripe ones, unless it worked on
  // them before.
  lemma RipeExactlyWhen(row: Row, cfg: Config, now: int)
    ensures Ripe(row, cfg, now) <==>
      && Claimable(row, cfg.staleAfter, now)
      && !((row.state.Pending? || row.state.Stitching?) && now - row.claimedAt < cfg.minAge)
      && !(row.state.Failed? && row.attempts >= if cfg.maxAttempts <= 0 then DEFAULT_MAX_ATTEMPTS else cfg.maxAttempts)
  {
  }

  // What StitchOne tells about a record that was neither too young nor given up.
  lemma Tried(rows: map<FileId, Row>, before: map<FileId, Row>, after: map<FileId, Row>, records: seq<(FileId, Row)>,
              n: nat, claimed: bool, manifests: Manifests, storeAnswers: nat, cfg: Config, now: int)
    requires n < |records| && records[n].0 in rows && records[n].1 == rows[records[n].0]
    requires Swept(rows, before, records, n, manifests, storeAnswers, cfg, now) && SameBut(before, after, records[n].0)
    requires var id := records[n].0;
      claimed <==> id !in before || Claimable(before[id], cfg.staleAfter, now)
    requires var id := records[n].0;
      claimed ==>
        && id in after && after[id].state == Verdict(id, manifests, storeAnswers) && after[id].claimedAt == now
        && (id in before ==> after[id].attempts > before[id].attempts)
    requires !claimed ==> after == before
    requires Ripe(records[n].1, cfg, now) <==> Claimable(records[n].1, cfg.staleAfter, now)
    ensures Swept(rows, after, records, n + 1, manifests, storeAnswers, cfg, now)
    ensures claimed ==> after != rows
  {
    hide Ripe, Claimable, Verdict, Settled;
    var id := records[n].0;
    assert id in before && (claimed ==> after[id].attempts > before[id].attempts >= rows[id].attempts);
    OneMoreTried(rows, before, after, records, n, claimed, manifests, storeAnswers, cfg, now);
  }

  lemma SweptIsOnlyRipe(rows: map<FileId, Row>, after: map<FileId, Row>, records: seq<(FileId, Row)>, manifests: Manifests,
                        storeAnswers: nat, cfg: Config, now: int)
    requires Swept(rows, after, records, |records|, manifests, storeAnswers, cfg, now)
    ensures OnlyRipe(rows, after, manifests, storeAnswers, cfg, now)
  {
  }

  lemma AllSettled(t: Tables, after: map<FileId, Row>, records: seq<(FileId, Row)>, manifests: Manifests,
                   storeAnswers: nat, cfg: Config, now: int)
    requires Swept(t.rows, after, records, |records|, manifests, storeAnswers, cfg, now)
    requires forall id :: id in t.rows && !t.rows[id].state.Ready? && Visible(t, id) ==> (id, t.rows[id]) in records
    ensures forall id :: id in t.rows && Ripe(t.rows[id], cfg, now) && Visible(t, id) ==>
      id in after && Treated(t.rows[id], after[id], id, manifests, storeAnswers, now)
  {
    hide Treated, Visible, OnlyRipe;
    forall id | id in t.rows && Ripe(t.rows[id], cfg, now) && Visible(t, id)
      ensures id in after && Treated(t.rows[id], after[id], id, manifests, storeAnswers, now)
    {
      var k :| 0 <= k < |records| && records[k] == (id, t.rows[id]);
      assert Settled(t.rows, after, records[k].0, manifests, storeAnswers, cfg, now);
    }
  }

  class StitchWorker {
    const repo: StitchRepo
    const stitcher: Stitcher

    constructor (repo: StitchRepo, stitcher: Stitcher)
      ensures this.repo == repo && this.stitcher == stitcher
    {
      this.repo := repo;
      this.stitcher := stitcher;
    }

    // What the sweep keeps, whatever fails: finished files stay finished with their
    // object, and every READY row stays backed.
    twostate predicate Kept(manifests: Manifests)
      reads repo, stitcher
      requires forall id :: id in manifests ==> Stored(ManifestOf(manifests[id]), stitcher.blockTree)
    {
      && Backed(repo.View(), stitcher.objects, manifests, stitcher.blockTree)
      && (forall id :: id in old(repo.rows) && old(repo.rows[id]).state.Ready? ==>
            id in repo.rows && repo.rows[id] == old(repo.rows[id]))
      && (Exact(old(repo.View())) && repo.answered > 0 ==> Exact(repo.View()))
      && repo.answered <= old(repo.answered)
    }

    // One operation of the registry, whether or not it came to its end.
    lemma OperationKeeps(t: Tables, id: FileId, op: Op, n: nat, manifests: Manifests)
      requires forall k :: k in manifests ==> Stored(ManifestOf(manifests[k]), stitcher.blockTree)
      requires Backed(t, stitcher.objects, manifests, stitcher.blockTree)
      requires op.Claim? || op.MarkFailed? || op.MarkSkipped? || op == MarkReady(ConsolidatedKey(id))
      requires op.MarkReady? ==> id in manifests && ConsolidatedKey(id) in stitcher.objects
      requires op.MarkReady? ==> stitcher.objects[ConsolidatedKey(id)] == File(ManifestOf(manifests[id]), stitcher.blockTree)
      requires op.MarkReady? || op.MarkFailed? ==> id in t.rows && !t.rows[id].state.Ready?
      ensures var v := Stopped(t, Plan(t, id, op), n);
        && Backed(v, stitcher.objects, manifests, stitcher.blockTree)
        && (forall k :: k in t.rows && t.rows[k].state.Ready? ==> k in v.rows && v.rows[k] == t.rows[k])
        && SameBut(t.rows, v.rows, id)
        && (n >= |Plan(t, id, op)| ==>
              && (Exact(t) ==> Exact(v))
              && (RowWritten(t, id, op).Some? ==> v.rows == t.rows[id := RowWritten(t, id, op).value]))
    {
      hide PerformAll, Plan, Exact, Eligible, Stitchable, File;
      if op.MarkReady? {
        ReadyKeepsBacked(t, id, n, stitcher.objects, manifests, stitcher.blockTree);
      } else {
        UnreadyKeepsBacked(t, id, op, n, stitcher.objects, manifests, stitcher.blockTree);
      }
      StoppedRows(t, id, op, n);
      if n >= |Plan(t, id, op)| {
        AllOfIt(t, Plan(t, id, op), n);
        if Exact(t) {
          CompletedOpKeepsExact(t, id, op);
        }
        if RowWritten(t, id, op).Some? {
          CompletedRow(t, id, op, n);
        }
      }
    }

    method ParkIfIneligible(id: FileId, blocks: seq<Block>, manifests: Manifests) returns (parked: bool)
      requires forall k :: k in manifests ==> Stored(ManifestOf(manifests[k]), stitcher.blockTree)
      requires Backed(repo.View(), stitcher.objects, manifests, stitcher.blockTree)
      modifies repo
      ensures parked <==> !Eligible(blocks, MIN_PART_SIZE)
      ensures !parked ==> repo.View() == old(repo.View()) && repo.answered == old(repo.answered)
      ensures parked && id in old(repo.rows) && !old(repo.rows[id]).state.Ready? && repo.answered > 0 ==>
        id in repo.rows && repo.rows[id] == old(repo.rows[id]).(state := Skipped)
      ensures SameBut(old(repo.rows), repo.rows, id)
      ensures Kept(manifests)
    {
      hide Backed, Exact, Plan, PerformAll, Stopped;
      var idx := FirstIneligibleBlock(blocks, MIN_PART_SIZE);
      if idx < 0 {
        return false;
      }
      OperationKeeps(repo.View(), id, MarkSkipped, repo.answered, manifests);
      var _ := repo.MarkSkipped(id);
      return true;
    }

    // The part of the loop body that works on a claimed file.
    method StitchClaimed(id: FileId, manifests: Manifests, storeAnswers: nat)
      requires forall k :: k in manifests ==> Stored(ManifestOf(manifests[k]), stitcher.blockTree)
      requires Backed(repo.View(), stitcher.objects, manifests, stitcher.blockTree)
      requires id in repo.rows && repo.rows[id].state.Stitching?
      modifies repo, stitcher`objects
      ensures Kept(manifests)
      ensures SameBut(old(repo.rows), repo.rows, id)
      ensures repo.answered > 0 ==> repo.rows[id].state == Verdict(id, manifests, storeAnswers)
      ensures repo.answered > 0 ==>
        repo.rows[id].attempts >= old(repo.rows[id]).attempts && repo.rows[id].claimedAt == old(repo.rows[id]).claimedAt
    {
      hide Backed, Exact, Plan, PerformAll, Stopped, Stitchable, Eligible, File;
      if id !in manifests {
        OperationKeeps(repo.View(), id, MarkFailed, repo.answered, manifests);
        var _ := repo.MarkFailed(id);
        return;
      }
      var parked := ParkIfIneligible(id, manifests[id], manifests);
      if parked {
        return;
      }
      ghost var before := stitcher.objects;
      var r := stitcher.Stitch(id, manifests[id], MIN_PART_SIZE, storeAnswers);
      // The branch for a layout found ineligible only now cannot be taken: both checks
      // see the same list of blocks.
      assert !r.NotEligible?;
      AssembledKeepsBacked(repo.View(), id, before, stitcher.objects, manifests, stitcher.blockTree);
      if !r.Done? {
        OperationKeeps(repo.View(), id, MarkFailed, repo.answered, manifests);
        var _ := repo.MarkFailed(id);
        return;
      }
      OperationKeeps(repo.View(), id, MarkReady(r.key), repo.answered, manifests);
      var _ := repo.MarkReady(id, r.key);
    }

    // The loop body of sweepOnce, once the file has been found due.
    method StitchOne(id: FileId, manifests: Manifests, storeAnswers: nat, cfg: Config, now: int) returns (claimed: bool)
      requires forall k :: k in manifests ==> Stored(ManifestOf(manifests[k]), stitcher.blockTree)
      requires Backed(repo.View(), stitcher.objects, manifests, stitcher.blockTree)
      modifies repo, stitcher`objects
      ensures Kept(manifests)
      ensures repo.answered > 0 ==>
        (claimed <==> id !in old(repo.rows) || Claimable(old(repo.rows)[id], cfg.staleAfter, now))
      ensures SameBut(old(repo.rows), repo.rows, id)
      ensures repo.answered > 0 && !claimed ==> repo.rows == old(repo.rows)
      ensures claimed && repo.answered > 0 ==>
        && id in repo.rows && repo.rows[id].state == Verdict(id, manifests, storeAnswers) && repo.rows[id].claimedAt == now
        && (id in old(repo.rows) ==> repo.rows[id].attempts > old(repo.rows[id]).attempts)
    {
      hide Backed, Exact, Plan, PerformAll, Stopped, Verdict;
      OperationKeeps(repo.View(), id, Claim(cfg.staleAfter, now), repo.answered, manifests);
      var ok;
      ok, claimed := repo.ClaimForStitch(id, cfg.staleAfter, now);
      if ok && claimed {
        StitchClaimed(id, manifests, storeAnswers);
      }
    }

    // One pass over the work list. A fresh row waits out the minimum age, a failed
    // one is given up after so many attempts.
    method SweepOnce(manifests: Manifests, storeAnswers: nat, cfg: Config, now: int) returns (claims: nat)
      requires forall k :: k in manifests ==> Stored(ManifestOf(manifests[k]), stitcher.blockTree)
      requires Backed(repo.View(), stitcher.objects, manifests, stitcher.blockTree)
      modifies repo, stitcher`objects
      ensures Kept(manifests)
      ensures claims <= cfg.batchSize
      // While the database answers, no row changes but those that are ripe; and all
      // of these that the index shows are worked on when it fits one batch.
      ensures repo.answered > 0 ==> OnlyRipe(old(repo.rows), repo.rows, manifests, storeAnswers, cfg, now)
      ensures repo.answered > 0 ==> (claims == 0 <==> repo.rows == old(repo.rows))
      ensures repo.answered > 0 && Entries(old(repo.index), |INDEXED|) <= cfg.batchSize ==>
        forall id :: id in old(repo.rows) && Ripe(old(repo.rows)[id], cfg, now) && Visible(old(repo.View()), id) ==>
          id in repo.rows && Treated(old(repo.rows)[id], repo.rows[id], id, manifests, storeAnswers, now)
    {
      hide Backed, PerformAll, Plan, Stopped, Visible, Entries, Exact, Ripe, Treated, OnlyRipe, Swept, Claimable, SameBut;
      ghost var t := repo.View();
      var records := repo.ListPending(cfg.batchSize);
      ListingKeeps(t, repo.View(), manifests);
      NothingSwept(t.rows, records, manifests, storeAnswers, cfg, now);
      var maxAttempts := if cfg.maxAttempts <= 0 then DEFAULT_MAX_ATTEMPTS else cfg.maxAttempts;
      claims := 0;
      for i := 0 to |records|
        invariant claims <= i
        invariant Kept(manifests)
        invariant repo.answered > 0 ==> Swept(t.rows, repo.rows, records, i, manifests, storeAnswers, cfg, now)
        invariant repo.answered > 0 ==> (claims == 0 <==> repo.rows == t.rows)
      {
        var rec := records[i].1;
        RipeExactlyWhen(rec, cfg, now);
        var young := rec.state.Pending? || rec.state.Stitching?;
        if young && now - rec.claimedAt < cfg.minAge {
          if repo.answered > 0 {
            OneMoreSkipped(t.rows, repo.rows, records, i, manifests, storeAnswers, cfg, now);
          }
          continue;
        }
        if rec.state.Failed? && rec.attempts >= maxAttempts {
          if repo.answered > 0 {
            OneMoreSkipped(t.rows, repo.rows, records, i, manifests, storeAnswers, cfg, now);
          }
          continue;
        }
        ghost var before := repo.rows;
        var claimed := StitchOne(records[i].0, manifests, storeAnswers, cfg, now);
        if repo.answered > 0 {
          Tried(t.rows, before, repo.rows, records, i, claimed, manifests, storeAnswers, cfg, now);
        }
        if claimed {
          claims := claims + 1;
        }
      }
      if repo.answered > 0 {
        SweptIsOnlyRipe(t.rows, repo.rows, records, manifests, storeAnswers, cfg, now);
        if Entries(t.index, |INDEXED|) <= cfg.batchSize {
          AllSettled(t, repo.rows, records, manifests, storeAnswers, cfg, now);
        }
      }
    }

    // Dropping entries that have no row behind them.
    lemma ListingKeeps(t: Tables, v: Tables, manifests: Manifests)
      requires forall k :: k in manifests ==> Stored(ManifestOf(manifests[k]), stitcher.blockTree)
      requires Backed(t, stitcher.objects, manifests, stitcher.blockTree)
      requires v.rows == t.rows && v.index <= t.index
      requires forall entry :: entry in t.index - v.index ==> entry.1 !in t.rows
      ensures Backed(v, stitcher.objects, manifests, stitcher.blockTree)
      ensures Exact(t) ==> Exact(v)
    {
      if Exact(t) {
        forall entry | entry in t.index ensures entry in v.index {
          assert ExactFor(t, entry.1);
        }
        assert v.index == t.index;
      }
    }
  }
}
