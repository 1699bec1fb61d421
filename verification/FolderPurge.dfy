// services/metadata/internal/repository/purge_metadata.go: removing the rows of a
// whole folder subtree, in three phases, and what a run that dies on the way
// leaves for the next one.
module FolderPurge {
  import opened Common
  import opened FolderTree

  const ITEM_INDEXES := [ByName, BySize, ByUpdated]

  // ---------------------------------------------------------------- what goes

  // The purge takes a folder below the root, unless its row shows another owner.
  ghost predicate Doomed(t: Tables, owner: Owner, root: FolderId, f: FolderId) {
    Reachable(t.byParent, root, f) && (f in t.byId ==> t.byId[f].owner == owner)
  }

  // The folder outside the subtree that lists the root among its items.
  function SurvivingParent(t: Tables, owner: Owner, root: FolderId): Option<FolderId> {
    if root in t.byId && t.byId[root].owner == owner then t.byId[root].parent else None
  }

  ghost predicate DoomedItem(t: Tables, owner: Owner, root: FolderId, item: Item) {
    || Doomed(t, owner, root, item.folder)
    || (SurvivingParent(t, owner, root) == Some(item.folder) && Doomed(t, owner, root, item.id))
  }

  // The listing of a folder under the parent its row names.
  ghost predicate DoomedEdge(t: Tables, owner: Owner, root: FolderId, e: Edge) {
    Doomed(t, owner, root, e.1) && e.1 in t.byId && t.byId[e.1].parent == Some(e.0)
  }

  ghost predicate ItemsRemoved(t: Tables, left: set<Item>, owner: Owner, root: FolderId) {
    forall item :: item in left <==> item in t.items && !DoomedItem(t, owner, root, item)
  }

  // A full purge removes exactly the doomed rows.
  ghost predicate Removed(t: Tables, v: Tables, owner: Owner, root: FolderId) {
    && ItemsRemoved(t, v.items, owner, root)
    && (forall f :: f in v.byId <==> f in t.byId && !Doomed(t, owner, root, f))
    && (forall f :: f in v.byId ==> v.byId[f] == t.byId[f])
    && (forall k :: k in v.byOwner <==> k in t.byOwner && !(k.0 == owner && Doomed(t, owner, root, k.1)))
    && (forall e :: e in v.byParent <==> e in t.byParent && !DoomedEdge(t, owner, root, e))
  }

  // The three folder tables say the same.
  ghost predicate Agrees(t: Tables) {
    && (forall f :: f in t.byId ==> (t.byId[f].owner, f) in t.byOwner)
    && (forall k :: k in t.byOwner ==> k.1 in t.byId && t.byId[k.1].owner == k.0)
    && (forall f :: f in t.byId && t.byId[f].parent.Some? ==> (t.byId[f].parent.value, f) in t.byParent)
    && (forall e :: e in t.byParent ==> e.1 in t.byId && t.byId[e.1].parent == Some(e.0))
  }

  // On tables that agree, a full purge leaves tables that agree, in which no row
  // at all names a folder of the subtree that belongs to the owner.
  lemma PurgeKeepsAgreement(t: Tables, v: Tables, owner: Owner, root: FolderId)
    requires Agrees(t) && Removed(t, v, owner, root)
    ensures Agrees(v)
    ensures forall f :: Doomed(t, owner, root, f) ==>
      && f !in v.byId
      && (forall o :: (o, f) !in v.byOwner)
      && (forall p :: (p, f) !in v.byParent)
      && (forall item :: item in v.items ==> item.folder != f)
    ensures forall p :: SurvivingParent(t, owner, root) == Some(p) ==>
      forall item :: item in v.items && item.folder == p ==> !Doomed(t, owner, root, item.id)
  {
    hide Reachable;
  }

  // ---------------------------------------------------------------- crashes

  // A run that died before the folder rows were touched: only doomed items are
  // missing.
  ghost predicate DiedEarly(t: Tables, v: Tables, owner: Owner, root: FolderId) {
    && v.byId == t.byId && v.byOwner == t.byOwner && v.byParent == t.byParent
    && v.items <= t.items
    && forall item :: item in t.items && !DoomedItem(t, owner, root, item) ==> item in v.items
  }

  // A run that died while deleting folder rows: the items are done.
  ghost predicate DiedLate(t: Tables, v: Tables, owner: Owner, root: FolderId) {
    && ItemsRemoved(t, v.items, owner, root)
    && v.byId.Keys <= t.byId.Keys && v.byOwner <= t.byOwner && v.byParent <= t.byParent
    && (forall f :: f in v.byId ==> v.byId[f] == t.byId[f])
    && (forall f :: f in t.byId && f !in v.byId ==> Doomed(t, owner, root, f))
    && (forall k :: k in t.byOwner && k !in v.byOwner ==> k.0 == owner && Doomed(t, owner, root, k.1))
    && (forall e :: e in t.byParent && e !in v.byParent ==> DoomedEdge(t, owner, root, e))
  }

  // After an early death a second, full run ends where one full run would have.
  lemma RerunConverges(t: Tables, v: Tables, w: Tables, owner: Owner, root: FolderId)
    requires DiedEarly(t, v, owner, root) && Removed(v, w, owner, root)
    ensures Removed(t, w, owner, root)
  {
    hide Reachable;
    forall f ensures Doomed(v, owner, root, f) <==> Doomed(t, owner, root, f) {
    }
  }

  // The rows of these folders deleted, as the third phase does one by one.
  function Without(t: Tables, owner: Owner, gone: set<FolderId>): Tables {
    Tables(t.byId - gone,
           (set k | k in t.byOwner && !(k.0 == owner && k.1 in gone)),
           (set e | e in t.byParent && !(e.1 in gone && e.1 in t.byId && t.byId[e.1].parent == Some(e.0))),
           t.items)
  }

  function FirstOf(walk: seq<FolderId>, m: nat): set<FolderId>
    requires m <= |walk|
  {
    set k | 0 <= k < m :: walk[k]
  }

  // Deletion follows the walk, parents first. Death after m folders leaves a folder
  // the next run cannot reach exactly when a folder that is still there had its
  // parent deleted and that parent is not the root.
  ghost predicate Orphaned(t: Tables, root: FolderId, walk: seq<FolderId>, m: nat)
    requires m <= |walk|
  {
    exists k :: m <= k < |walk| && walk[k] in t.byId && t.byId[walk[k]].parent.Some?
      && t.byId[walk[k]].parent.value != root && t.byId[walk[k]].parent.value in FirstOf(walk, m)
  }

  // A folder cut off stays out of reach: the listing of its parent is gone.
  lemma {:induction false} DeletedIsUnreachable(t: Tables, v: Tables, owner: Owner, root: FolderId, gone: set<FolderId>, p: FolderId, n: nat)
    requires Agrees(t) && v == Without(t, owner, gone) && p in gone && p != root
    ensures p !in Within(v.byParent, root, n)
  {
    if n > 0 {
      DeletedIsUnreachable(t, v, owner, root, gone, p, n - 1);
    }
  }

  lemma OrphanIsUnreachable(t: Tables, v: Tables, owner: Owner, root: FolderId, gone: set<FolderId>, f: FolderId)
    requires Agrees(t) && v == Without(t, owner, gone) && f != root && f in t.byId
    requires t.byId[f].parent.Some? && t.byId[f].parent.value in gone && t.byId[f].parent.value != root
    ensures !Reachable(v.byParent, root, f)
  {
    forall n: nat ensures f !in Within(v.byParent, root, n) {
      if n > 0 {
        OrphanStep(t, v, owner, root, gone, f, n);
      }
    }
  }

  lemma {:induction false} OrphanStep(t: Tables, v: Tables, owner: Owner, root: FolderId, gone: set<FolderId>, f: FolderId, n: nat)
    requires Agrees(t) && v == Without(t, owner, gone) && f != root && f in t.byId
    requires t.byId[f].parent.Some? && t.byId[f].parent.value in gone && t.byId[f].parent.value != root
    ensures f !in Within(v.byParent, root, n)
  {
    if n > 0 {
      OrphanStep(t, v, owner, root, gone, f, n - 1);
      DeletedIsUnreachable(t, v, owner, root, gone, t.byId[f].parent.value, n - 1);
    }
  }

  // Whatever is not cut off can still be reached.
  lemma {:induction false} RestIsReachable(t: Tables, v: Tables, owner: Owner, root: FolderId, walk: seq<FolderId>, m: nat, f: FolderId, n: nat)
    requires Agrees(t) && BreadthFirst(t.byParent, root, walk) && m <= |walk| && !Orphaned(t, root, walk, m)
    requires v == Without(t, owner, FirstOf(walk, m))
    requires f in Within(t.byParent, root, n) && (f == root || f !in FirstOf(walk, m))
    ensures f in Within(v.byParent, root, n)
    decreases n
  {
    hide BreadthFirst;
    if n > 0 {
      if f in Within(t.byParent, root, n - 1) {
        RestIsReachable(t, v, owner, root, walk, m, f, n - 1);
      } else {
        var p := ParentIsWithin(t.byParent, root, f, n - 1);
        assert f != root;
        RestStep(t, root, walk, m, f, p, n);
        RestIsReachable(t, v, owner, root, walk, m, p, n - 1);
        assert (p, f) in v.byParent;
      }
    }
  }

  lemma RestStep(t: Tables, root: FolderId, walk: seq<FolderId>, m: nat, f: FolderId, p: FolderId, n: nat)
    requires Agrees(t) && BreadthFirst(t.byParent, root, walk) && m <= |walk| && !Orphaned(t, root, walk, m)
    requires (p, f) in t.byParent && f in Within(t.byParent, root, n) && f !in FirstOf(walk, m)
    ensures p == root || p !in FirstOf(walk, m)
  {
    assert Reachable(t.byParent, root, f);
    var k :| 0 <= k < |walk| && walk[k] == f;
    assert forall j :: 0 <= j < m ==> walk[j] in FirstOf(walk, m);
    assert m <= k;
  }

  // So the re-run finishes the purge of a subtree the owner owns exactly when no
  // remaining folder lost a parent other than the root.
  lemma RerunFinishesExactlyWhen(t: Tables, w: Tables, owner: Owner, root: FolderId, walk: seq<FolderId>, m: nat)
    requires Agrees(t) && BreadthFirst(t.byParent, root, walk) && m <= |walk|
    requires forall f :: f in walk && f in t.byId ==> t.byId[f].owner == owner
    requires Removed(Without(t, owner, FirstOf(walk, m)), w, owner, root)
    ensures (forall f :: f in walk ==> f !in w.byId) <==> !Orphaned(t, root, walk, m)
  {
    var v := Without(t, owner, FirstOf(walk, m));
    if Orphaned(t, root, walk, m) {
      var k :| m <= k < |walk| && walk[k] in t.byId && t.byId[walk[k]].parent.Some?
        && t.byId[walk[k]].parent.value != root && t.byId[walk[k]].parent.value in FirstOf(walk, m);
      OrphanIsUnreachable(t, v, owner, root, FirstOf(walk, m), walk[k]);
      assert walk[k] in walk && walk[k] in w.byId;
    } else {
      forall f | f in walk ensures f !in w.byId {
        if f in v.byId {
          assert Reachable(t.byParent, root, f);
          var n: nat :| f in Within(t.byParent, root, n);
          RestIsReachable(t, v, owner, root, walk, m, f, n);
          assert Reachable(v.byParent, root, f);
        }
      }
    }
  }

  // It happens: of the chain r, a, b a run that dies after two folders leaves b.
  lemma ChainLeavesAnOrphan()
    ensures exists t: Tables, walk: seq<FolderId> ::
      && Agrees(t) && BreadthFirst(t.byParent, "r", walk) && |walk| == 3
      && (forall f :: f in walk ==> f in t.byId && t.byId[f].owner == "o")
      && Orphaned(t, "r", walk, 2)
  {
    hide Within;
    var t := Tables(map["r" := Folder("o", None), "a" := Folder("o", Some("r")), "b" := Folder("o", Some("a"))],
                    {("o", "r"), ("o", "a"), ("o", "b")}, {("r", "a"), ("a", "b")}, {});
    var walk := ["r", "a", "b"];
    ChainIsWalked();
    assert walk[1] in FirstOf(walk, 2) && walk[2] in t.byId;
    assert Orphaned(t, "r", walk, 2);
    assert Agrees(t);
  }

  lemma ChainIsWalked()
    ensures BreadthFirst({("r", "a"), ("a", "b")}, "r", ["r", "a", "b"])
  {
    hide Walking, BreadthFirst, Within;
    var edges: set<Edge> := {("r", "a"), ("a", "b")};
    StartWalking(edges, "r");
    Append(edges, "r", ["r"], [0], 0, "a");
    assert ["r"] + ["a"] == ["r", "a"] && [0] + [0 + 1] == [0, 1];
    Advance(edges, "r", ["r", "a"], [0, 1], 0);
    Append(edges, "r", ["r", "a"], [0, 1], 1, "b");
    assert ["r", "a"] + ["b"] == ["r", "a", "b"] && [0, 1] + [1 + 1] == [0, 1, 2];
    Advance(edges, "r", ["r", "a", "b"], [0, 1, 2], 1);
    Advance(edges, "r", ["r", "a", "b"], [0, 1, 2], 2);
    DoneWalking(edges, "r", ["r", "a", "b"], [0, 1, 2]);
  }

  // A death between the row and the listing of one folder: the next run no longer
  // knows the parent and never removes the listing.
  lemma ListingOfLostRowStays(v: Tables, w: Tables, owner: Owner, root: FolderId, e: Edge)
    requires Removed(v, w, owner, root) && e in v.byParent && e.1 !in v.byId
    ensures e in w.byParent
  {
  }

  // ---------------------------------------------------------------- repository

  // purgedFolder: one folder the sweep may delete, with the parent its row named.
  datatype Purged = Purged(id: FolderId, parent: Option<FolderId>, stored: bool)

  // The database performs `answered` more deletes, then fails.
  class MetadataRepo {
    var byId: map<FolderId, Folder>
    var byOwner: set<(Owner, FolderId)>
    var byParent: set<Edge>
    var items: set<Item>
    var answered: nat

    constructor (t: Tables, answered: nat)
      ensures View() == t && this.answered == answered
    {
      byId, byOwner, byParent, items := t.byId, t.byOwner, t.byParent, t.items;
      this.answered := answered;
    }

    ghost function View(): Tables
      reads this
    {
      Tables(byId, byOwner, byParent, items)
    }

    method Answer() returns (ok: bool)
      modifies this`answered
      ensures ok <==> old(answered) > 0
      ensures answered == if ok then old(answered) - 1 else 0
    {
      ok := answered > 0;
      if ok {
        answered := answered - 1;
      }
    }

    // deleteFolderItemRows: the rows of one folder's partitions, all of them or
    // those of the given item ids.
    method DeleteFolderItemRows(folder: FolderId, only: Option<set<FolderId>>) returns (ok: bool)
      modifies this`items, this`answered
      ensures items <= old(items)
      ensures forall item :: item in old(items) && item !in items ==> Swept(item, folder, only)
      ensures ok ==> forall item :: item in items ==> !Swept(item, folder, only)
      ensures !ok ==> answered == 0
    {
      for i := 0 to |ITEM_INDEXES|
        invariant items <= old(items)
        invariant forall item :: item in old(items) && item !in items ==> Swept(item, folder, only)
        invariant forall item :: item in items && item.index in ITEM_INDEXES[..i] ==> !Swept(item, folder, only)
      {
        var rows := set item | item in items && item.index == ITEM_INDEXES[i] && Swept(item, folder, only);
        while rows != {}
          invariant items <= old(items)
          invariant forall item :: item in old(items) && item !in items ==> Swept(item, folder, only)
          invariant forall item :: item in items && item.index in ITEM_INDEXES[..i] ==> !Swept(item, folder, only)
          invariant forall item :: item in items && item.index == ITEM_INDEXES[i] && item !in rows ==>
            !Swept(item, folder, only)
          decreases rows
        {
          var row :| row in rows;
          rows := rows - {row};
          ok := Answer();
          if !ok {
            return;
          }
          items := items - {row};
        }
        assert ITEM_INDEXES[..i + 1] == ITEM_INDEXES[..i] + [ITEM_INDEXES[i]];
      }
      EveryIndex();
      ok := true;
    }

    // The rows of the walk this owner may delete, read before anything is deleted.
    method LoadFolders(owner: Owner, ghost root: FolderId, subtree: seq<FolderId>) returns (folders: seq<Purged>)
      requires BreadthFirst(byParent, root, subtree)
      ensures ListsDoomed(View(), owner, root, folders)
      ensures folders != [] && SurvivingParent(View(), owner, root).Some? ==> folders[0].id == root
    {
      hide Reachable, Distinct;
      folders := [];
      for i := 0 to |subtree|
        invariant forall p :: p in folders ==>
          && p.id in subtree[..i] && (p.id in byId ==> byId[p.id].owner == owner)
          && p.stored == (p.id in byId) && p.parent == (if p.stored then byId[p.id].parent else None)
        invariant forall f :: f in subtree[..i] && (f in byId ==> byId[f].owner == owner) ==> exists p :: p in folders && p.id == f
        invariant i > 0 && SurvivingParent(View(), owner, root).Some? ==> folders != [] && folders[0].id == root
      {
        var id := subtree[i];
        assert subtree[..i + 1] == subtree[..i] + [id];
        if id in byId && byId[id].owner != owner {
          continue;
        }
        var p := Purged(id, if id in byId then byId[id].parent else None, id in byId);
        ghost var before := folders;
        folders := folders + [p];
        assert p in folders && forall q :: q in before ==> q in folders;
      }
      assert subtree[..|subtree|] == subtree;
    }

    // Phases 1 and 2: the item rows inside the doomed folders, and those naming
    // them in the parent that stays.
    method SweepItems(ghost t: Tables, owner: Owner, root: FolderId, folders: seq<Purged>) returns (ok: bool)
      requires t == View() && ListsDoomed(t, owner, root, folders) && folders != []
      requires SurvivingParent(t, owner, root).Some? ==> folders[0].id == root
      modifies this`items, this`answered
      ensures DiedEarly(t, View(), owner, root)
      ensures ok ==> ItemsRemoved(t, items, owner, root)
      ensures !ok ==> answered == 0
    {
      hide Doomed;
      for i := 0 to |folders|
        invariant DiedEarly(t, View(), owner, root)
        invariant forall item, k :: item in items && 0 <= k < i ==> item.folder != folders[k].id
      {
        assert folders[i] in folders && Doomed(t, owner, root, folders[i].id);
        ok := DeleteFolderItemRows(folders[i].id, None);
        if !ok {
          return;
        }
      }
      forall item | item in items ensures !Doomed(t, owner, root, item.folder) {
        assert forall p :: p in folders ==> p.id != item.folder;
      }
      ok := true;
      if folders[0].id == root && folders[0].stored && folders[0].parent.Some? {
        assert folders[0] in folders;
        RootIsDoomed(t, owner, root, folders);
        var purged := set p | p in folders :: p.id;
        ok := DeleteFolderItemRows(folders[0].parent.value, Some(purged));
      }
    }

    // The three rows of one folder.
    method DeleteFolder(ghost t: Tables, owner: Owner, ghost root: FolderId, f: Purged) returns (ok: bool)
      requires DiedLate(t, View(), owner, root) && Doomed(t, owner, root, f.id)
      requires f.parent.Some? ==> DoomedEdge(t, owner, root, (f.parent.value, f.id))
      modifies this`byId, this`byOwner, this`byParent, this`answered
      ensures DiedLate(t, View(), owner, root)
      ensures byId.Keys <= old(byId).Keys && byOwner <= old(byOwner) && byParent <= old(byParent)
      ensures ok ==> f.id !in byId && (owner, f.id) !in byOwner
      ensures ok && f.parent.Some? ==> (f.parent.value, f.id) !in byParent
      ensures !ok ==> answered == 0
    {
      hide Doomed, DoomedEdge, ItemsRemoved;
      ok := Answer();
      if !ok {
        return;
      }
      byId := byId - {f.id};
      ok := Answer();
      if !ok {
        return;
      }
      byOwner := byOwner - {(owner, f.id)};
      if f.parent.Some? {
        ok := Answer();
        if ok {
          byParent := byParent - {(f.parent.value, f.id)};
        }
      }
    }

    // Phase 3: the folder rows, one folder after the other.
    method DeleteFolders(ghost t: Tables, owner: Owner, ghost root: FolderId, folders: seq<Purged>) returns (ok: bool)
      requires ListsDoomed(t, owner, root, folders) && ItemsRemoved(t, items, owner, root)
      requires byId == t.byId && byOwner == t.byOwner && byParent == t.byParent
      modifies this
      ensures DiedLate(t, View(), owner, root)
      ensures ok ==> Removed(t, View(), owner, root)
      ensures !ok ==> answered == 0
    {
      hide Doomed, ItemsRemoved, Removed, DiedLate;
      StartsLate(t, View(), owner, root);
      for i := 0 to |folders|
        invariant DiedLate(t, View(), owner, root)
        invariant forall k :: 0 <= k < i ==> folders[k].id !in byId && (owner, folders[k].id) !in byOwner
        invariant forall k :: 0 <= k < i && folders[k].parent.Some? ==> (folders[k].parent.value, folders[k].id) !in byParent
      {
        var f := folders[i];
        assert f in folders && Doomed(t, owner, root, f.id);
        ok := DeleteFolder(t, owner, root, f);
        if !ok {
          return;
        }
      }
      ok := true;
      AllGone(t, View(), owner, root, folders);
    }

    // On success exactly the doomed rows are gone. A failure before the folder rows
    // leaves those untouched; any failure leaves every other row.
    method RemoveFolderProjections(owner: Owner, root: FolderId) returns (ok: bool)
      modifies this
      ensures ok ==> Removed(old(View()), View(), owner, root)
      ensures !ok ==> DiedEarly(old(View()), View(), owner, root) || DiedLate(old(View()), View(), owner, root)
      ensures !ok ==> answered == 0
    {
      hide Reachable, BreadthFirst, Doomed;
      ghost var t := View();
      var subtree := FolderSubtree(byParent, root);
      var folders := LoadFolders(owner, root, subtree);
      if folders == [] {
        return true;
      }
      ok := SweepItems(t, owner, root, folders);
      if ok {
        ok := DeleteFolders(t, owner, root, folders);
      }
    }
  }

  lemma StartsLate(t: Tables, v: Tables, owner: Owner, root: FolderId)
    requires ItemsRemoved(t, v.items, owner, root)
    requires v.byId == t.byId && v.byOwner == t.byOwner && v.byParent == t.byParent
    ensures DiedLate(t, v, owner, root)
  {
  }

  lemma RootIsDoomed(t: Tables, owner: Owner, root: FolderId, folders: seq<Purged>)
    requires ListsDoomed(t, owner, root, folders) && folders != [] && folders[0].id == root && folders[0].stored
    ensures SurvivingParent(t, owner, root) == folders[0].parent
  {
    assert folders[0] in folders;
    assert Doomed(t, owner, root, root);
  }

  lemma AllGone(t: Tables, v: Tables, owner: Owner, root: FolderId, folders: seq<Purged>)
    requires ListsDoomed(t, owner, root, folders) && DiedLate(t, v, owner, root)
    requires forall k :: 0 <= k < |folders| ==> folders[k].id !in v.byId && (owner, folders[k].id) !in v.byOwner
    requires forall k :: 0 <= k < |folders| && folders[k].parent.Some? ==> (folders[k].parent.value, folders[k].id) !in v.byParent
    ensures Removed(t, v, owner, root)
  {
    hide Doomed, ItemsRemoved;
    forall f | Doomed(t, owner, root, f)
      ensures f !in v.byId && (owner, f) !in v.byOwner
      ensures forall e: Edge :: e.1 == f && DoomedEdge(t, owner, root, e) ==> e !in v.byParent
    {
      var p :| p in folders && p.id == f;
    }
  }

  // The rows one sweep of a folder's partitions is after.
  predicate Swept(item: Item, folder: FolderId, only: Option<set<FolderId>>) {
    item.folder == folder && (only.None? || item.id in only.value)
  }

  lemma EveryIndex()
    ensures forall x: ItemIndex :: x in ITEM_INDEXES[..|ITEM_INDEXES|]
  {
    assert ITEM_INDEXES[0] == ByName && ITEM_INDEXES[1] == BySize && ITEM_INDEXES[2] == ByUpdated;
    forall x: ItemIndex ensures x in ITEM_INDEXES[..|ITEM_INDEXES|] {
      match x case ByName => case BySize => case ByUpdated =>
    }
  }

  // The list holds exactly the doomed folders, each with the parent its row names.
  ghost predicate ListsDoomed(t: Tables, owner: Owner, root: FolderId, folders: seq<Purged>) {
    && (forall f :: Doomed(t, owner, root, f) <==> exists p :: p in folders && p.id == f)
    && (forall p :: p in folders ==>
          p.stored == (p.id in t.byId) && p.parent == if p.stored then t.byId[p.id].parent else None)
  }
}
