// services/metadata/internal/repository/crud_repo.go, hierarchy_repo.go and
// metadata_repo.go: the files of a folder in order of their last change, kept by
// every writer of a file row, and the listing that reads it.
module FileOrderIndex {
  import opened Common

  type FileId = string
  type FolderId = string
  type Owner = string

  // The service's clock counts nanoseconds; the database keeps milliseconds.
  const MILLISECOND: nat := 1_000_000

  function Stored(now: nat): nat {
    now / MILLISECOND
  }

  // A files_by_id row; updatedAt is what the database kept, in milliseconds.
  datatype File = File(folder: FolderId, owner: Owner, name: string, deleted: bool, current: bool, updatedAt: nat)

  // A row of files_by_folder_updated. Its other columns are never read.
  datatype OrderRow = OrderRow(folder: FolderId, updatedAt: nat, id: FileId)

  datatype Tables = Tables(
    files: map<FileId, File>,              // files_by_id
    listed: set<(FolderId, FileId)>,       // files_by_folder
    order: set<OrderRow>)

  // ---------------------------------------------------------------- operations

  datatype Write =
    | PutFile(id: FileId, file: File)
    | PutListed(folder: FolderId, id: FileId)
    | DropListed(folder: FolderId, id: FileId)
    | PutOrder(row: OrderRow)
    | DropOrder(row: OrderRow)

  function Perform(t: Tables, w: Write): Tables {
    match w
    case PutFile(id, file) => t.(files := t.files[id := file])
    case PutListed(folder, id) => t.(listed := t.listed + {(folder, id)})
    case DropListed(folder, id) => t.(listed := t.listed - {(folder, id)})
    case PutOrder(row) => t.(order := t.order + {row})
    case DropOrder(row) => t.(order := t.order - {row})
  }

  function PerformAll(t: Tables, ws: seq<Write>): Tables
    decreases |ws|
  {
    if ws == [] then t else PerformAll(Perform(t, ws[0]), ws[1..])
  }

  datatype Op =
    | Create(folder: FolderId, name: string)
    | Rename(name: string)
    | Move(folder: FolderId)
    | SetDeleted(deleted: bool)

  // Where a file's row belongs in the order index.
  function PlaceOf(id: FileId, file: File): OrderRow {
    OrderRow(file.folder, file.updatedAt, id)
  }

  // The file row an operation at this time writes.
  function NewFile(file: File, op: Op, now: nat): File
    requires !op.Create?
  {
    match op
    case Rename(name) => file.(name := name, updatedAt := Stored(now))
    case Move(folder) => file.(folder := folder, updatedAt := Stored(now))
    case SetDeleted(deleted) => file.(deleted := deleted, updatedAt := Stored(now))
  }

  // replaceFilesByFolderUpdated compares the time it read, in whole milliseconds,
  // with the clock's nanoseconds.
  predicate SamePlace(previous: File, next: File, now: nat) {
    previous.folder == next.folder && previous.updatedAt * MILLISECOND == now
  }

  function Replace(id: FileId, previous: File, next: File, now: nat): seq<Write> {
    if SamePlace(previous, next, now) then []
    else [PutOrder(PlaceOf(id, next)), DropOrder(PlaceOf(id, previous))]
  }

  // The writes of one call, in order, given what it reads. Other people's files and
  // missing files are refused. A create uses an id of its own.
  function Plan(t: Tables, owner: Owner, id: FileId, op: Op, now: nat): seq<Write> {
    if op.Create? then
      if id in t.files then []
      else
        var file := File(op.folder, owner, op.name, false, true, Stored(now));
        [PutListed(op.folder, id), PutFile(id, file), PutOrder(PlaceOf(id, file))]
    else if id !in t.files || t.files[id].owner != owner then []
    else
      var file, next := t.files[id], NewFile(t.files[id], op, now);
      (if op.Move? then [PutListed(op.folder, id), DropListed(file.folder, id)] else [PutListed(file.folder, id)])
      + [PutFile(id, next)]
      + Replace(id, file, next, now)
  }

  function Done(t: Tables, owner: Owner, id: FileId, op: Op, now: nat): Tables {
    PerformAll(t, Plan(t, owner, id, op, now))
  }

  // ---------------------------------------------------------------- placement

  // The file has exactly one row in the order index, at its own folder and time.
  ghost predicate PlacedFor(t: Tables, id: FileId) {
    forall row: OrderRow :: row.id == id ==> (row in t.order <==> id in t.files && row == PlaceOf(id, t.files[id]))
  }

  ghost predicate Placed(t: Tables) {
    forall id: FileId :: PlacedFor(t, id)
  }

  // The folder listing holds exactly the files' own folders.
  ghost predicate ListedFor(t: Tables, id: FileId) {
    forall folder: FolderId :: (folder, id) in t.listed <==> id in t.files && t.files[id].folder == folder
  }

  predicate About(w: Write, id: FileId) {
    match w
    case PutFile(k, _) => k == id
    case PutListed(_, k) => k == id
    case DropListed(_, k) => k == id
    case PutOrder(row) => row.id == id
    case DropOrder(row) => row.id == id
  }

  ghost predicate Only(t: Tables, v: Tables, id: FileId) {
    && (forall k: FileId :: k != id ==> (k in v.files <==> k in t.files) && (k in t.files ==> v.files[k] == t.files[k]))
    && (forall k: FileId, f: FolderId :: k != id ==> ((f, k) in v.listed <==> (f, k) in t.listed))
    && (forall row: OrderRow :: row.id != id ==> (row in v.order <==> row in t.order))
  }

  lemma {:induction false} WritesStayLocal(t: Tables, ws: seq<Write>, id: FileId)
    requires forall w :: w in ws ==> About(w, id)
    ensures Only(t, PerformAll(t, ws), id)
    decreases |ws|
  {
    if ws != [] {
      assert About(ws[0], id);
      WritesStayLocal(Perform(t, ws[0]), ws[1..], id);
    }
  }

  lemma PlanIsLocal(t: Tables, owner: Owner, id: FileId, op: Op, now: nat)
    ensures forall w :: w in Plan(t, owner, id, op, now) ==> About(w, id)
  {
  }

  lemma {:induction false} PerformJoined(t: Tables, xs: seq<Write>, ys: seq<Write>)
    ensures PerformAll(t, xs + ys) == PerformAll(PerformAll(t, xs), ys)
    decreases |xs|
  {
    if xs == [] {
      assert xs + ys == ys;
    } else {
      assert (xs + ys)[1..] == xs[1..] + ys;
      PerformJoined(Perform(t, xs[0]), xs[1..], ys);
    }
  }

  lemma OneWrite(t: Tables, w: Write)
    ensures PerformAll(t, [w]) == Perform(t, w)
  {
  }

  lemma TwoWrites(t: Tables, a: Write, b: Write)
    ensures PerformAll(t, [a, b]) == Perform(Perform(t, a), b)
  {
    PerformJoined(t, [a], [b]);
    OneWrite(t, a);
    OneWrite(PerformAll(t, [a]), b);
    assert [a] + [b] == [a, b];
  }

  // What a whole call on an existing file of the owner leaves behind.
  lemma UpdateEffect(t: Tables, owner: Owner, id: FileId, op: Op, now: nat)
    requires !op.Create? && id in t.files && t.files[id].owner == owner
    ensures var v := Done(t, owner, id, op, now);
      var file, next := t.files[id], NewFile(t.files[id], op, now);
      && v.files == t.files[id := next]
      && v.listed == (if op.Move? then t.listed + {(op.folder, id)} - {(file.folder, id)} else t.listed + {(file.folder, id)})
      && v.order == (if SamePlace(file, next, now) then t.order else t.order + {PlaceOf(id, next)} - {PlaceOf(id, file)})
  {
    hide Perform;
    var file, next := t.files[id], NewFile(t.files[id], op, now);
    var listing := if op.Move? then [PutListed(op.folder, id), DropListed(file.folder, id)] else [PutListed(file.folder, id)];
    PerformJoined(t, listing + [PutFile(id, next)], Replace(id, file, next, now));
    PerformJoined(t, listing, [PutFile(id, next)]);
    OneWrite(PerformAll(t, listing), PutFile(id, next));
    ListingEffect(t, id, file, op);
    ReplaceEffect(Perform(PerformAll(t, listing), PutFile(id, next)), id, file, next, now);
    PutFileEffect(PerformAll(t, listing), id, next);
  }

  lemma PutFileEffect(t: Tables, id: FileId, file: File)
    ensures Perform(t, PutFile(id, file)) == t.(files := t.files[id := file])
  {
  }

  lemma ListingEffect(t: Tables, id: FileId, file: File, op: Op)
    ensures PerformAll(t, if op.Move? then [PutListed(op.folder, id), DropListed(file.folder, id)] else [PutListed(file.folder, id)])
      == t.(listed := if op.Move? then t.listed + {(op.folder, id)} - {(file.folder, id)} else t.listed + {(file.folder, id)})
  {
    if op.Move? {
      TwoWrites(t, PutListed(op.folder, id), DropListed(file.folder, id));
    } else {
      OneWrite(t, PutListed(file.folder, id));
    }
  }

  lemma ReplaceEffect(t: Tables, id: FileId, file: File, next: File, now: nat)
    ensures PerformAll(t, Replace(id, file, next, now))
      == t.(order := if SamePlace(file, next, now) then t.order else t.order + {PlaceOf(id, next)} - {PlaceOf(id, file)})
  {
    if !SamePlace(file, next, now) {
      TwoWrites(t, PutOrder(PlaceOf(id, next)), DropOrder(PlaceOf(id, file)));
    }
  }

  lemma CreateEffect(t: Tables, owner: Owner, id: FileId, op: Op, now: nat)
    requires op.Create? && id !in t.files
    ensures var v := Done(t, owner, id, op, now);
      var file := File(op.folder, owner, op.name, false, true, Stored(now));
      v == Tables(t.files[id := file], t.listed + {(op.folder, id)}, t.order + {PlaceOf(id, file)})
  {
    var file := File(op.folder, owner, op.name, false, true, Stored(now));
    var a, b, c := PutListed(op.folder, id), PutFile(id, file), PutOrder(PlaceOf(id, file));
    TwoWrites(t, a, b);
    PerformJoined(t, [a, b], [c]);
    OneWrite(PerformAll(t, [a, b]), c);
    assert [a, b, c] == [a, b] + [c];
  }

  // The update lands in the millisecond of the previous one and in the same
  // folder, but not at its very beginning: the new row's key is the old row's key,
  // and the delete that follows the insert takes both.
  predicate LosesPlace(file: File, op: Op, now: nat)
    requires !op.Create?
  {
    && NewFile(file, op, now).folder == file.folder
    && Stored(now) == file.updatedAt
    && now % MILLISECOND != 0
  }

  lemma SamePlaceExactly(file: File, next: File, now: nat)
    requires next.updatedAt == Stored(now)
    ensures SamePlace(file, next, now) <==>
      file.folder == next.folder && file.updatedAt == next.updatedAt && now % MILLISECOND == 0
  {
    assert now == MILLISECOND * (now / MILLISECOND) + now % MILLISECOND;
  }

  // A completed rename, move, delete or restore keeps the file in its one place
  // exactly when it does not fall into the millisecond of the update before it.
  lemma UpdateKeepsPlaceExactlyWhen(t: Tables, owner: Owner, id: FileId, op: Op, now: nat)
    requires Placed(t) && !op.Create? && id in t.files && t.files[id].owner == owner
    ensures Placed(Done(t, owner, id, op, now)) <==> !LosesPlace(t.files[id], op, now)
    ensures LosesPlace(t.files[id], op, now) ==>
      id in Done(t, owner, id, op, now).files && forall row: OrderRow :: row in Done(t, owner, id, op, now).order ==> row.id != id
  {
    var v := Done(t, owner, id, op, now);
    var file, next := t.files[id], NewFile(t.files[id], op, now);
    UpdateEffect(t, owner, id, op, now);
    SamePlaceExactly(file, next, now);
    assert PlacedFor(t, id);
    PlanIsLocal(t, owner, id, op, now);
    WritesStayLocal(t, Plan(t, owner, id, op, now), id);
    if LosesPlace(file, op, now) {
      assert PlaceOf(id, next) == PlaceOf(id, file);
      assert PlaceOf(id, next) !in v.order;
      assert !PlacedFor(v, id);
    } else {
      forall k: FileId ensures PlacedFor(v, k) {
        assert PlacedFor(t, k);
      }
    }
  }

  lemma CreateKeepsPlaced(t: Tables, owner: Owner, id: FileId, op: Op, now: nat)
    requires Placed(t) && op.Create?
    ensures Placed(Done(t, owner, id, op, now))
  {
    if id !in t.files {
      var v := Done(t, owner, id, op, now);
      CreateEffect(t, owner, id, op, now);
      forall k: FileId ensures PlacedFor(v, k) {
        assert PlacedFor(t, k);
      }
    }
  }

  // At the repository a move keeps the folder listing right exactly when the
  // destination is another folder; the service refuses the other case beforehand.
  lemma MoveKeepsListingExactlyWhen(t: Tables, owner: Owner, id: FileId, op: Op, now: nat)
    requires ListedFor(t, id) && op.Move? && id in t.files && t.files[id].owner == owner
    ensures ListedFor(Done(t, owner, id, op, now), id) <==> op.folder != t.files[id].folder
  {
    UpdateEffect(t, owner, id, op, now);
    var v := Done(t, owner, id, op, now);
    if op.folder == t.files[id].folder {
      assert (op.folder, id) !in v.listed;
    }
  }

  // ---------------------------------------------------------------- runs

  datatype Call = Call(owner: Owner, id: FileId, op: Op, now: nat)

  function After(calls: seq<Call>): Tables {
    if calls == [] then Tables(map[], {}, {})
    else
      var call := calls[|calls| - 1];
      Done(After(calls[..|calls| - 1]), call.owner, call.id, call.op, call.now)
  }

  // The stored time of each update is later than the one before it.
  predicate Later(calls: seq<Call>, i: nat)
    requires i < |calls|
  {
    var t, call := After(calls[..i]), calls[i];
    !call.op.Create? && call.id in t.files ==> Stored(call.now) > t.files[call.id].updatedAt
  }

  // Over every run of completed creates, renames, moves, deletes and restores with
  // increasing stored times, each file has exactly one row in the order index, at
  // its own folder and time.
  lemma {:induction false} RunsKeepPlaced(calls: seq<Call>)
    requires forall i :: 0 <= i < |calls| ==> Later(calls, i)
    ensures Placed(After(calls))
  {
    if calls != [] {
      var front, call := calls[..|calls| - 1], calls[|calls| - 1];
      forall i | 0 <= i < |front| ensures Later(front, i) {
        assert Later(calls, i);
        assert front[..i] == calls[..i];
      }
      RunsKeepPlaced(front);
      assert Later(calls, |calls| - 1);
      var t := After(front);
      if call.op.Create? {
        CreateKeepsPlaced(t, call.owner, call.id, call.op, call.now);
      } else if call.id in t.files && t.files[call.id].owner == call.owner {
        UpdateKeepsPlaceExactlyWhen(t, call.owner, call.id, call.op, call.now);
      }
    }
  }

  // Two renames within one millisecond and the file has left the order index: the
  // listing of its folder no longer shows it.
  lemma TwoRenamesInOneMillisecond()
    ensures var calls := [Call("o", "f", Create("d", "a"), 1_000_000), Call("o", "f", Rename("b"), 2_000_001),
                          Call("o", "f", Rename("c"), 2_000_002)];
      var t := After(calls);
      "f" in t.files && forall row: OrderRow :: row in t.order ==> row.id != "f"
  {
    var a, b, c := Call("o", "f", Create("d", "a"), 1_000_000), Call("o", "f", Rename("b"), 2_000_001),
                   Call("o", "f", Rename("c"), 2_000_002);
    assert [a, b, c][..2] == [a, b] && [a, b][..1] == [a] && [a][..0] == [];
    CreateEffect(After([]), "o", "f", a.op, a.now);
    CreateKeepsPlaced(After([]), "o", "f", a.op, a.now);
    UpdateEffect(After([a]), "o", "f", b.op, b.now);
    UpdateKeepsPlaceExactlyWhen(After([a]), "o", "f", b.op, b.now);
    UpdateKeepsPlaceExactlyWhen(After([a, b]), "o", "f", c.op, c.now);
  }

  // ---------------------------------------------------------------- crashes

  // A listing of the file's folder comes across it.
  ghost predicate Listable(t: Tables, id: FileId) {
    id in t.files && exists row: OrderRow :: row in t.order && row.id == id && row.folder == t.files[id].folder
  }

  // A call on a file of the owner that stops after k writes leaves it out of every
  // listing exactly in the middle of a move to another folder, when the row has
  // moved and its order row has not: inserting before deleting does not help there.
  lemma CrashHidesExactlyInMoves(t: Tables, owner: Owner, id: FileId, op: Op, now: nat, k: nat)
    requires Placed(t) && !op.Create? && id in t.files && t.files[id].owner == owner && !LosesPlace(t.files[id], op, now)
    requires k <= |Plan(t, owner, id, op, now)|
    ensures !Listable(PerformAll(t, Plan(t, owner, id, op, now)[..k]), id)
      <==> op.Move? && op.folder != t.files[id].folder && k == 3
  {
    hide Perform, Placed, LosesPlace;
    var plan := Plan(t, owner, id, op, now);
    var file, next := t.files[id], NewFile(t.files[id], op, now);
    PlacedOf(t, id);
    var head := if op.Move? then 3 else 2;
    if k < head {
      var v := PerformAll(t, plan[..k]);
      BeforeTheRow(t, plan[..k]);
      assert PlaceOf(id, file) in v.order;
    } else if k == head {
      var v := PerformAll(t, plan[..k]);
      PerformJoined(t, plan[..head - 1], [PutFile(id, next)]);
      assert plan[..k] == plan[..head - 1] + [PutFile(id, next)];
      BeforeTheRow(t, plan[..head - 1]);
      OneWrite(PerformAll(t, plan[..head - 1]), PutFile(id, next));
      PutFileEffect(PerformAll(t, plan[..head - 1]), id, next);
      assert v.order == t.order && v.files[id] == next;
      assert PlaceOf(id, file) in v.order;
    } else {
      AfterTheRow(t, owner, id, op, now, k);
    }
  }

  lemma PlacedOf(t: Tables, id: FileId)
    requires Placed(t) && id in t.files
    ensures forall row: OrderRow :: row.id == id ==> (row in t.order <==> row == PlaceOf(id, t.files[id]))
  {
    assert PlacedFor(t, id);
  }

  // Writes to the folder listing alone.
  lemma {:induction false} BeforeTheRow(t: Tables, ws: seq<Write>)
    requires forall w :: w in ws ==> w.PutListed? || w.DropListed?
    ensures PerformAll(t, ws).files == t.files && PerformAll(t, ws).order == t.order
    decreases |ws|
  {
    if ws != [] {
      assert ws[0] in ws;
      BeforeTheRow(Perform(t, ws[0]), ws[1..]);
    }
  }

  // Once the new order row is written the file stays listable.
  lemma AfterTheRow(t: Tables, owner: Owner, id: FileId, op: Op, now: nat, k: nat)
    requires Placed(t) && !op.Create? && id in t.files && t.files[id].owner == owner && !LosesPlace(t.files[id], op, now)
    requires (if op.Move? then 3 else 2) < k <= |Plan(t, owner, id, op, now)|
    ensures Listable(PerformAll(t, Plan(t, owner, id, op, now)[..k]), id)
  {
    hide Perform;
    var plan := Plan(t, owner, id, op, now);
    var file, next := t.files[id], NewFile(t.files[id], op, now);
    var place := PlaceOf(id, next);
    if k == |plan| {
      assert plan[..k] == plan;
      UpdateEffect(t, owner, id, op, now);
      SamePlaceExactly(file, next, now);
      assert place in PerformAll(t, plan).order;
    } else {
      assert plan[..k] == plan[..k - 1] + [PutOrder(place)];
      PerformJoined(t, plan[..k - 1], [PutOrder(place)]);
      var before := PerformAll(t, plan[..k - 1]);
      OneWrite(before, PutOrder(place));
      assert plan[..k - 1] == plan[..k - 2] + [PutFile(id, next)];
      PerformJoined(t, plan[..k - 2], [PutFile(id, next)]);
      OneWrite(PerformAll(t, plan[..k - 2]), PutFile(id, next));
      PutFileEffect(PerformAll(t, plan[..k - 2]), id, next);
      PutOrderEffect(before, place);
    }
  }

  lemma PutOrderEffect(t: Tables, row: OrderRow)
    ensures Perform(t, PutOrder(row)) == t.(order := t.order + {row})
  {
  }
}
