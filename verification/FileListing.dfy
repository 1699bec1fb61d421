// services/metadata/internal/repository/crud_repo.go and hierarchy_repo.go: the
// writers of file rows statement by statement, and the paged listing of a folder.
module FileListing {
  import opened Common
  import opened FileOrderIndex

  // ---------------------------------------------------------------- listing

  // What a listing may show: a live, current file of this owner in this folder,
  // by its own row.
  predicate Live(t: Tables, owner: Owner, folder: FolderId, id: FileId) {
    && id in t.files
    && t.files[id].owner == owner && t.files[id].folder == folder
    && t.files[id].current && !t.files[id].deleted
  }

  predicate Scanned(page: seq<OrderRow>, id: FileId) {
    exists k :: 0 <= k < |page| && page[k].id == id
  }

  // The files of a page of order rows: each live one where its first row stands.
  function Shown(t: Tables, owner: Owner, folder: FolderId, page: seq<OrderRow>): seq<FileId> {
    if page == [] then []
    else
      var front, id := page[..|page| - 1], page[|page| - 1].id;
      Shown(t, owner, folder, front) + (if Scanned(front, id) || !Live(t, owner, folder, id) then [] else [id])
  }

  // Whatever stale, duplicate or foreign rows the index holds, a page lists exactly
  // the live files it comes across, each once.
  lemma {:induction false} PageIsRight(t: Tables, owner: Owner, folder: FolderId, page: seq<OrderRow>)
    ensures forall id :: id in Shown(t, owner, folder, page) <==> Scanned(page, id) && Live(t, owner, folder, id)
    ensures Distinct(Shown(t, owner, folder, page))
  {
    if page != [] {
      var front := page[..|page| - 1];
      PageIsRight(t, owner, folder, front);
      forall id ensures Scanned(page, id) <==> Scanned(front, id) || id == page[|page| - 1].id {
        if Scanned(front, id) {
          var k :| 0 <= k < |front| && front[k].id == id;
          assert page[k].id == id;
        }
      }
    }
  }

  // The partition of a folder as the database keeps it: newest first.
  ghost predicate Partition(t: Tables, folder: FolderId, rows: seq<OrderRow>) {
    && Distinct(rows)
    && (forall row :: row in rows <==> row in t.order && row.folder == folder)
    && (forall i, j :: 0 <= i < j < |rows| ==> rows[i].updatedAt >= rows[j].updatedAt)
  }

  lemma PlacedRow(t: Tables, row: OrderRow)
    requires Placed(t)
    ensures row in t.order <==> row.id in t.files && row == PlaceOf(row.id, t.files[row.id])
  {
    assert PlacedFor(t, row.id);
  }

  // No file comes up twice.
  ghost predicate Single(rows: seq<OrderRow>) {
    forall i, j :: 0 <= i < j < |rows| ==> rows[i].id != rows[j].id
  }

  lemma SingleLast(front: seq<OrderRow>, last: OrderRow, k: nat)
    requires Single(front + [last]) && k <= |front|
    ensures Single(front) && !Scanned(front, last.id) && !Scanned(front[k..], last.id)
  {
    var rows := front + [last];
    forall i | 0 <= i < |front| ensures front[i].id != last.id {
      assert rows[i] == front[i] && rows[|front|] == last;
    }
    forall i, j | 0 <= i < j < |front| ensures front[i].id != front[j].id {
      assert rows[i] == front[i] && rows[j] == front[j];
    }
  }

  // Then the pages of a scan add up.
  lemma {:induction false} PagesAddUp(t: Tables, owner: Owner, folder: FolderId, rows: seq<OrderRow>, k: nat)
    requires k <= |rows| && Single(rows)
    ensures Shown(t, owner, folder, rows) == Shown(t, owner, folder, rows[..k]) + Shown(t, owner, folder, rows[k..])
    decreases |rows| - k
  {
    hide Shown, Scanned, Live, Single;
    if k == |rows| {
      NothingShown(t, owner, folder);
      assert rows[..k] == rows && rows[k..] == [];
    } else {
      var front, last := rows[..|rows| - 1], rows[|rows| - 1];
      assert rows == front + [last];
      SingleLast(front, last, k);
      PagesAddUp(t, owner, folder, front, k);
      assert front[..k] == rows[..k] && rows[k..] == front[k..] + [last];
      ShownOneMore(t, owner, folder, front, last);
      ShownOneMore(t, owner, folder, front[k..], last);
    }
  }

  // The times of the files shown.
  ghost predicate NewestFirst(t: Tables, ids: seq<FileId>) {
    forall i, j :: 0 <= i < j < |ids| && ids[i] in t.files && ids[j] in t.files ==>
      t.files[ids[i]].updatedAt >= t.files[ids[j]].updatedAt
  }

  lemma {:induction false} PrefixIsOrdered(t: Tables, owner: Owner, folder: FolderId, rows: seq<OrderRow>)
    requires forall i, j :: 0 <= i < j < |rows| ==> rows[i].updatedAt >= rows[j].updatedAt
    requires forall i :: 0 <= i < |rows| ==> rows[i].id in t.files && t.files[rows[i].id].updatedAt == rows[i].updatedAt
    ensures NewestFirst(t, Shown(t, owner, folder, rows))
  {
    if rows != [] {
      var front := rows[..|rows| - 1];
      PrefixIsOrdered(t, owner, folder, front);
      PageIsRight(t, owner, folder, front);
      var ids := Shown(t, owner, folder, front);
      forall i | 0 <= i < |ids| ensures ids[i] in t.files && t.files[ids[i]].updatedAt >= rows[|rows| - 1].updatedAt {
        assert ids[i] in ids;
        var k :| 0 <= k < |front| && front[k].id == ids[i];
        assert rows[k] == front[k];
      }
    }
  }

  // On an index that is in place, the pages of a folder together list exactly its
  // live files, each once, the last changed first.
  lemma FolderIsListed(t: Tables, owner: Owner, folder: FolderId, rows: seq<OrderRow>)
    requires Placed(t) && Partition(t, folder, rows)
    ensures forall id :: id in Shown(t, owner, folder, rows) <==> Live(t, owner, folder, id)
    ensures Distinct(Shown(t, owner, folder, rows)) && NewestFirst(t, Shown(t, owner, folder, rows))
    ensures forall k :: 0 <= k <= |rows| ==>
      Shown(t, owner, folder, rows) == Shown(t, owner, folder, rows[..k]) + Shown(t, owner, folder, rows[k..])
  {
    forall i | 0 <= i < |rows|
      ensures rows[i].id in t.files && rows[i] == PlaceOf(rows[i].id, t.files[rows[i].id])
    {
      assert rows[i] in rows;
      PlacedRow(t, rows[i]);
    }
    PageIsRight(t, owner, folder, rows);
    PrefixIsOrdered(t, owner, folder, rows);
    forall id | Live(t, owner, folder, id) ensures Scanned(rows, id) {
      PlacedRow(t, PlaceOf(id, t.files[id]));
      var k :| 0 <= k < |rows| && rows[k] == PlaceOf(id, t.files[id]);
    }
    forall k | 0 <= k <= |rows|
      ensures Shown(t, owner, folder, rows) == Shown(t, owner, folder, rows[..k]) + Shown(t, owner, folder, rows[k..])
    {
      forall i, j | 0 <= i < j < |rows| ensures rows[i].id != rows[j].id {
        assert rows[i] != rows[j];
      }
      PagesAddUp(t, owner, folder, rows, k);
    }
  }

  // ---------------------------------------------------------------- visibility

  // After a completed rename, move, delete or restore the listing of a folder shows
  // the file exactly when it is the file's folder now, the reader is its owner, the
  // row is current and not deleted, and the update did not fall into the
  // millisecond of the one before it without being the very start of it.
  lemma UpdateShowsExactlyWhen(t: Tables, owner: Owner, id: FileId, op: Op, now: nat,
                               reader: Owner, folder: FolderId, rows: seq<OrderRow>)
    requires Placed(t) && !op.Create? && id in t.files && t.files[id].owner == owner
    requires Partition(Done(t, owner, id, op, now), folder, rows)
    ensures var file := t.files[id];
      var home := if op.Move? then op.folder else file.folder;
      var deleted := if op.SetDeleted? then op.deleted else file.deleted;
      var collides := home == file.folder && now / 1_000_000 == file.updatedAt && now % 1_000_000 != 0;
      id in Shown(Done(t, owner, id, op, now), reader, folder, rows) <==>
        folder == home && reader == owner && file.current && !deleted && !collides
  {
    hide Placed, Partition, Shown, Done, Plan;
    var v := Done(t, owner, id, op, now);
    UpdateKeepsPlaceExactlyWhen(t, owner, id, op, now);
    UpdateEffect(t, owner, id, op, now);
    if LosesPlace(t.files[id], op, now) {
      PageIsRight(v, reader, folder, rows);
      NoRowNoListing(v, folder, rows, id);
    } else {
      FolderIsListed(v, reader, folder, rows);
    }
  }

  lemma NoRowNoListing(t: Tables, folder: FolderId, rows: seq<OrderRow>, id: FileId)
    requires Partition(t, folder, rows) && forall row: OrderRow :: row in t.order ==> row.id != id
    ensures !Scanned(rows, id)
  {
    forall k | 0 <= k < |rows| ensures rows[k].id != id {
      assert rows[k] in rows;
    }
  }

  // A deleted file is on no page of any folder, whatever stale rows are left.
  lemma DeletedIsOnNoPage(t: Tables, owner: Owner, id: FileId, now: nat, reader: Owner, folder: FolderId, page: seq<OrderRow>)
    requires id in t.files && t.files[id].owner == owner
    ensures id !in Shown(Done(t, owner, id, SetDeleted(true), now), reader, folder, page)
  {
    hide Shown, Done, Plan;
    UpdateEffect(t, owner, id, SetDeleted(true), now);
    PageIsRight(Done(t, owner, id, SetDeleted(true), now), reader, folder, page);
  }

  // ---------------------------------------------------------------- repository

  function Stopped(t: Tables, ws: seq<Write>, n: nat): Tables {
    PerformAll(t, ws[..Min(n, |ws|)])
  }

  lemma StoppedJoined(t: Tables, xs: seq<Write>, ys: seq<Write>, n: nat)
    ensures Stopped(t, xs + ys, n) ==
      if n < |xs| then Stopped(t, xs, n) else Stopped(PerformAll(t, xs), ys, n - |xs|)
  {
    hide PerformAll;
    if n < |xs| {
      assert (xs + ys)[..n] == xs[..n];
    } else {
      var m := Min(n - |xs|, |ys|);
      assert (xs + ys)[..|xs| + m] == xs + ys[..m];
      PerformJoined(t, xs, ys[..m]);
    }
  }

  lemma StoppedOne(t: Tables, w: Write, n: nat)
    ensures Stopped(t, [w], n) == if n == 0 then t else Perform(t, w)
  {
    if n > 0 {
      assert [w][..1] == [w];
      OneWrite(t, w);
    }
  }

  lemma AllOfIt(t: Tables, ws: seq<Write>, n: nat)
    requires n >= |ws|
    ensures Stopped(t, ws, n) == PerformAll(t, ws)
  {
    assert ws[..|ws|] == ws;
  }

  // A call whose writes were all performed.
  lemma Completed(t: Tables, owner: Owner, id: FileId, op: Op, now: nat, n: nat)
    requires !op.Create? && id in t.files && t.files[id].owner == owner && n >= |Plan(t, owner, id, op, now)|
    ensures var v := Stopped(t, Plan(t, owner, id, op, now), n);
      && v.files == t.files[id := NewFile(t.files[id], op, now)]
      && v.listed == (if op.Move? then t.listed + {(op.folder, id)} - {(t.files[id].folder, id)}
                      else t.listed + {(t.files[id].folder, id)})
  {
    hide Plan, PerformAll;
    AllOfIt(t, Plan(t, owner, id, op, now), n);
    UpdateEffect(t, owner, id, op, now);
  }

  // The database performs `answered` more writes, then fails.
  class MetadataRepo {
    var files: map<FileId, File>
    var listed: set<(FolderId, FileId)>
    var order: set<OrderRow>
    var answered: nat

    constructor (answered: nat)
      ensures View() == Tables(map[], {}, {}) && this.answered == answered
    {
      files := map[];
      listed := {};
      order := {};
      this.answered := answered;
    }

    ghost function View(): Tables
      reads this
    {
      Tables(files, listed, order)
    }

    twostate predicate Issued(ws: seq<Write>, ok: bool)
      reads this
    {
      && View() == Stopped(old(View()), ws, old(answered))
      && (ok <==> old(answered) >= |ws|)
      && answered == Max(old(answered) - |ws|, 0)
    }

    method Issue(w: Write) returns (ok: bool)
      modifies this
      ensures Issued([w], ok)
    {
      StoppedOne(View(), w, answered);
      ok := answered > 0;
      if ok {
        answered := answered - 1;
        match w
        case PutFile(id, file) => files := files[id := file];
        case PutListed(folder, id) => listed := listed + {(folder, id)};
        case DropListed(folder, id) => listed := listed - {(folder, id)};
        case PutOrder(row) => order := order + {row};
        case DropOrder(row) => order := order - {row};
      }
    }

    // Another owner's file is not found either.
    method GetFileByID(owner: Owner, id: FileId) returns (file: Option<File>)
      ensures file == if id in files && files[id].owner == owner then Some(files[id]) else None
    {
      file := None;
      if id in files && files[id].owner == owner {
        file := Some(files[id]);
      }
    }

    // The same statement list, one statement longer.
    method Then(ghost t: Tables, ghost n: nat, ghost ws: seq<Write>, w: Write) returns (ok: bool)
      requires n >= |ws| && View() == Stopped(t, ws, n) && answered == n - |ws|
      modifies this
      ensures View() == Stopped(t, ws + [w], n) && answered == Max(n - |ws| - 1, 0)
      ensures ok <==> n > |ws|
    {
      hide PerformAll, Perform;
      StoppedJoined(t, ws, [w], n);
      AllOfIt(t, ws, n);
      ok := Issue(w);
    }

    method ReplaceFilesByFolderUpdated(ghost t: Tables, ghost n: nat, ghost ws: seq<Write>,
                                       id: FileId, previous: File, next: File, now: nat) returns (ok: bool)
      requires n >= |ws| && View() == Stopped(t, ws, n) && answered == n - |ws|
      modifies this
      ensures View() == Stopped(t, ws + Replace(id, previous, next, now), n)
      ensures ok <==> n >= |ws| + |Replace(id, previous, next, now)|
      ensures answered == Max(n - |ws| - |Replace(id, previous, next, now)|, 0)
    {
      hide PerformAll, Stopped;
      if previous.folder == next.folder && previous.updatedAt * MILLISECOND == now {
        assert ws + Replace(id, previous, next, now) == ws;
        return true;
      }
      ghost var put, drop := PutOrder(PlaceOf(id, next)), DropOrder(PlaceOf(id, previous));
      assert ws + Replace(id, previous, next, now) == ws + [put] + [drop];
      StopsThere(t, ws + [put], [drop], n);
      ok := Then(t, n, ws, PutOrder(PlaceOf(id, next)));
      if ok {
        ok := Then(t, n, ws + [put], DropOrder(PlaceOf(id, previous)));
      }
    }

    // The row, and then its place in the order index.
    method PutFileAndPlace(ghost t: Tables, ghost n: nat, ghost ws: seq<Write>,
                           id: FileId, previous: File, next: File, now: nat) returns (ok: bool)
      requires n >= |ws| && View() == Stopped(t, ws, n) && answered == n - |ws|
      modifies this
      ensures View() == Stopped(t, ws + [PutFile(id, next)] + Replace(id, previous, next, now), n)
      ensures ok <==> n >= |ws| + 1 + |Replace(id, previous, next, now)|
      ensures answered == Max(n - |ws| - 1 - |Replace(id, previous, next, now)|, 0)
    {
      hide PerformAll, Stopped, Replace;
      StopsThere(t, ws + [PutFile(id, next)], Replace(id, previous, next, now), n);
      ok := Then(t, n, ws, PutFile(id, next));
      if ok {
        ok := ReplaceFilesByFolderUpdated(t, n, ws + [PutFile(id, next)], id, previous, next, now);
      }
    }

    // A rename, or a soft delete or restore: the folder listing, then the row.
    method Touch(owner: Owner, id: FileId, op: Op, now: nat) returns (ok: bool)
      requires op.Rename? || op.SetDeleted?
      modifies this
      ensures id in old(files) && old(files)[id].owner == owner ==> Issued(Plan(old(View()), owner, id, op, now), ok)
      ensures id !in old(files) || old(files)[id].owner != owner ==>
        !ok && View() == old(View()) && answered == old(answered)
    {
      hide PerformAll, Stopped, Replace;
      var found := GetFileByID(owner, id);
      if found.None? {
        return false;
      }
      var file := found.value;
      var next := NewFile(file, op, now);
      ghost var t, n, put := View(), answered, PutListed(file.folder, id);
      assert Plan(t, owner, id, op, now) == [put] + [PutFile(id, next)] + Replace(id, file, next, now);
      StopsThere(t, [put], [PutFile(id, next)] + Replace(id, file, next, now), n);
      assert [put] + ([PutFile(id, next)] + Replace(id, file, next, now)) == Plan(t, owner, id, op, now);
      ok := Issue(PutListed(file.folder, id));
      if ok {
        ok := PutFileAndPlace(t, n, [put], id, file, next, now);
      }
    }

    method UpdateFileName(owner: Owner, id: FileId, name: string, now: nat) returns (ok: bool)
      modifies this
      ensures id in old(files) && old(files)[id].owner == owner ==> Issued(Plan(old(View()), owner, id, Rename(name), now), ok)
      ensures id !in old(files) || old(files)[id].owner != owner ==>
        !ok && View() == old(View()) && answered == old(answered)
      // On success the row has the new name and keeps folder, owner and flag; every other file is as it was.
      ensures ok ==>
        && id in old(files) && old(files)[id].owner == owner
        && files == old(files)[id := old(files)[id].(name := name, updatedAt := now / 1_000_000)]
        && listed == old(listed) + {(old(files)[id].folder, id)}
    {
      ghost var t, n := View(), answered;
      ok := Touch(owner, id, Rename(name), now);
      if ok {
        Completed(t, owner, id, Rename(name), now, n);
      }
    }

    method SetFileDeleted(owner: Owner, id: FileId, deleted: bool, now: nat) returns (ok: bool)
      modifies this
      ensures id in old(files) && old(files)[id].owner == owner ==> Issued(Plan(old(View()), owner, id, SetDeleted(deleted), now), ok)
      ensures id !in old(files) || old(files)[id].owner != owner ==>
        !ok && View() == old(View()) && answered == old(answered)
      // On success the row has the flag and keeps name, folder and owner; every other file is as it was.
      ensures ok ==>
        && id in old(files) && old(files)[id].owner == owner
        && files == old(files)[id := old(files)[id].(deleted := deleted, updatedAt := now / 1_000_000)]
        && listed == old(listed) + {(old(files)[id].folder, id)}
    {
      ghost var t, n := View(), answered;
      ok := Touch(owner, id, SetDeleted(deleted), now);
      if ok {
        Completed(t, owner, id, SetDeleted(deleted), now, n);
      }
    }

    method MoveFile(owner: Owner, id: FileId, folder: FolderId, now: nat) returns (ok: bool)
      modifies this
      ensures id in old(files) && old(files)[id].owner == owner ==> Issued(Plan(old(View()), owner, id, Move(folder), now), ok)
      ensures id !in old(files) || old(files)[id].owner != owner ==>
        !ok && View() == old(View()) && answered == old(answered)
      // On success the row has the folder and keeps name, owner and flag; every other file is as it was.
      ensures ok ==>
        && id in old(files) && old(files)[id].owner == owner
        && files == old(files)[id := old(files)[id].(folder := folder, updatedAt := now / 1_000_000)]
        && listed == old(listed) + {(folder, id)} - {(old(files)[id].folder, id)}
    {
      hide PerformAll, Stopped, Replace;
      var found := GetFileByID(owner, id);
      if found.None? {
        return false;
      }
      var file := found.value;
      var next := NewFile(file, Move(folder), now);
      ghost var t, n, put, drop := View(), answered, PutListed(folder, id), DropListed(file.folder, id);
      ghost var rest := [PutFile(id, next)] + Replace(id, file, next, now);
      ghost var plan := Plan(t, owner, id, Move(folder), now);
      assert plan == [put, drop] + [PutFile(id, next)] + Replace(id, file, next, now);
      assert plan == [put] + ([drop] + rest) && plan == [put, drop] + rest && [put] + [drop] == [put, drop];
      StopsThere(t, [put], [drop] + rest, n);
      StopsThere(t, [put, drop], rest, n);
      ok := Issue(PutListed(folder, id));
      if !ok {
        return;
      }
      ok := Then(t, n, [put], DropListed(file.folder, id));
      if ok {
        ok := PutFileAndPlace(t, n, [put, drop], id, file, next, now);
      }
      if ok {
        Completed(t, owner, id, Move(folder), now, n);
      }
    }

    // `id` is drawn for this file.
    method CreateFile(owner: Owner, id: FileId, folder: FolderId, name: string, now: nat) returns (ok: bool)
      requires id !in files
      modifies this
      ensures Issued(Plan(old(View()), owner, id, Create(folder, name), now), ok)
      ensures ok ==>
        && files == old(files)[id := File(folder, owner, name, false, true, now / 1_000_000)]
        && listed == old(listed) + {(folder, id)} && order == old(order) + {OrderRow(folder, now / 1_000_000, id)}
    {
      hide PerformAll, Stopped;
      var file := File(folder, owner, name, false, true, Stored(now));
      ghost var t, n := View(), answered;
      ghost var a, b, c := PutListed(folder, id), PutFile(id, file), PutOrder(PlaceOf(id, file));
      assert Plan(t, owner, id, Create(folder, name), now) == [a] + [b, c] == [a] + [b] + [c] == [a, b] + [c];
      StopsThere(t, [a], [b, c], n);
      StopsThere(t, [a, b], [c], n);
      assert [a] + [b] == [a, b];
      ok := Issue(PutListed(folder, id));
      if !ok {
        return;
      }
      ok := Then(t, n, [a], PutFile(id, file));
      if !ok {
        return;
      }
      ok := Then(t, n, [a, b], PutOrder(PlaceOf(id, file)));
      if ok {
        AllOfIt(t, Plan(t, owner, id, Create(folder, name), now), n);
        CreateEffect(t, owner, id, Create(folder, name), now);
      }
    }

    // One page: `page` are the order rows the scan returns for this folder.
    method ListFilesByFolder(owner: Owner, folder: FolderId, page: seq<OrderRow>) returns (shown: seq<FileId>)
      ensures shown == Shown(View(), owner, folder, page)
      // Each live file of the owner and folder the page comes across, once.
      ensures Distinct(shown)
      ensures forall id :: id in shown <==>
        && (exists k :: 0 <= k < |page| && page[k].id == id)
        && id in files && files[id].owner == owner && files[id].folder == folder && files[id].current && !files[id].deleted
    {
      hide Shown, Scanned;
      shown := [];
      NothingShown(View(), owner, folder);
      var seen: set<FileId> := {};
      for i := 0 to |page|
        invariant shown == Shown(View(), owner, folder, page[..i])
        invariant forall id :: id in seen <==> Scanned(page[..i], id)
      {
        var id := page[i].id;
        assert page[..i + 1] == page[..i] + [page[i]];
        ShownOneMore(View(), owner, folder, page[..i], page[i]);
        forall k ensures Scanned(page[..i + 1], k) <==> Scanned(page[..i], k) || k == id {
          ScannedOneMore(page[..i], page[i], k);
        }
        if id in seen {
          continue;
        }
        seen := seen + {id};
        var file := GetFileByID(owner, id);
        if file.None? {
          continue;
        }
        if file.value.folder != folder {
          continue;
        }
        if !file.value.current || file.value.deleted {
          continue;
        }
        shown := shown + [id];
      }
      assert page[..|page|] == page;
      ShownIsRight(View(), owner, folder, page);
    }
  }

  lemma ShownIsRight(t: Tables, owner: Owner, folder: FolderId, page: seq<OrderRow>)
    ensures Distinct(Shown(t, owner, folder, page))
    ensures forall id :: id in Shown(t, owner, folder, page) <==>
      && (exists k :: 0 <= k < |page| && page[k].id == id)
      && id in t.files && t.files[id].owner == owner && t.files[id].folder == folder
      && t.files[id].current && !t.files[id].deleted
  {
    hide Shown;
    PageIsRight(t, owner, folder, page);
    forall id ensures Scanned(page, id) <==> exists k :: 0 <= k < |page| && page[k].id == id {
    }
  }

  lemma NothingShown(t: Tables, owner: Owner, folder: FolderId)
    ensures Shown(t, owner, folder, []) == [] && forall id :: !Scanned([], id)
  {
  }

  lemma ShownOneMore(t: Tables, owner: Owner, folder: FolderId, front: seq<OrderRow>, row: OrderRow)
    ensures Shown(t, owner, folder, front + [row]) ==
      Shown(t, owner, folder, front) + (if Scanned(front, row.id) || !Live(t, owner, folder, row.id) then [] else [row.id])
  {
    assert (front + [row])[..|front|] == front;
  }

  lemma ScannedOneMore(front: seq<OrderRow>, row: OrderRow, id: FileId)
    ensures Scanned(front + [row], id) <==> Scanned(front, id) || id == row.id
  {
    if Scanned(front, id) {
      var k :| 0 <= k < |front| && front[k].id == id;
      assert (front + [row])[k].id == id;
    }
    if id == row.id {
      assert (front + [row])[|front|].id == id;
    }
  }

  // A list that ran out stays where it is when more is added to it.
  lemma StopsThere(t: Tables, xs: seq<Write>, ys: seq<Write>, n: nat)
    ensures n <= |xs| ==> Stopped(t, xs + ys, n) == Stopped(t, xs, n)
  {
    if n <= |xs| {
      assert (xs + ys)[..n] == xs[..n];
    }
  }
}
