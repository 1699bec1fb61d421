// services/metadata/internal/repository/purge_metadata.go: walking a folder's
// subtree, and removing its rows from every table that names them.
module FolderTree {
  import opened Common

  type FolderId = string
  type Owner = string

  datatype Folder = Folder(owner: Owner, parent: Option<FolderId>)

  datatype ItemIndex = ByName | BySize | ByUpdated

  // A row of a folder item index; files and subfolders are mixed in it.
  datatype Item = Item(index: ItemIndex, folder: FolderId, sortKey: string, isFile: bool, id: string)

  type Edge = (FolderId, FolderId)

  datatype Tables = Tables(
    byId: map<FolderId, Folder>,
    byOwner: set<(Owner, FolderId)>,
    byParent: set<Edge>,              // (parent, child)
    items: set<Item>)

  function Children(edges: set<Edge>, f: FolderId): set<FolderId> {
    set e | e in edges && e.0 == f :: e.1
  }

  // ---------------------------------------------------------------- reachability

  // The folders at most n levels below the root.
  function Within(edges: set<Edge>, root: FolderId, n: nat): (r: set<FolderId>)
    ensures root in r
  {
    if n == 0 then {root}
    else Within(edges, root, n - 1) + (set e | e in edges && e.0 in Within(edges, root, n - 1) :: e.1)
  }

  ghost predicate Reachable(edges: set<Edge>, root: FolderId, f: FolderId) {
    exists n: nat :: f in Within(edges, root, n)
  }

  lemma ChildIsWithin(edges: set<Edge>, root: FolderId, f: FolderId, c: FolderId, n: nat)
    requires f in Within(edges, root, n) && (f, c) in edges
    ensures c in Within(edges, root, n + 1)
  {
  }

  lemma {:induction false} WithinGrows(edges: set<Edge>, root: FolderId, m: nat, n: nat)
    requires m <= n
    ensures Within(edges, root, m) <= Within(edges, root, n)
    decreases n
  {
    if m < n {
      WithinGrows(edges, root, m, n - 1);
    }
  }

  // A set that holds the root and every child of its members holds everything
  // reachable.
  lemma {:induction false} ClosedHoldsAll(edges: set<Edge>, root: FolderId, s: set<FolderId>, n: nat)
    requires root in s && forall e :: e in edges && e.0 in s ==> e.1 in s
    ensures Within(edges, root, n) <= s
  {
    if n > 0 {
      ClosedHoldsAll(edges, root, s, n - 1);
    }
  }

  // A breadth-first walk of everything below the root: each folder once, no folder
  // before one that is nearer.
  ghost predicate BreadthFirst(edges: set<Edge>, root: FolderId, walk: seq<FolderId>) {
    && walk != [] && walk[0] == root
    && Distinct(walk)
    && (forall f :: f in walk <==> Reachable(edges, root, f))
    && (forall j, k, n: nat :: 0 <= j < k < |walk| && walk[k] in Within(edges, root, n) ==> walk[j] in Within(edges, root, n))
  }

  // The walk so far: the first i folders are expanded, `level` is the distance of
  // each folder from the root, and no distance goes beyond the next level.
  ghost predicate Walking(edges: set<Edge>, root: FolderId, walk: seq<FolderId>, level: seq<nat>, i: nat) {
    && |level| == |walk| > 0 && walk[0] == root && i <= |walk|
    && Distinct(walk)
    && (forall k :: 0 <= k < |walk| ==> walk[k] in Within(edges, root, level[k]))
    && (forall k, n: nat :: 0 <= k < |walk| && n < level[k] ==> walk[k] !in Within(edges, root, n))
    && (forall j, k :: 0 <= j < k < |walk| ==> level[j] <= level[k])
    && (forall k, c :: 0 <= k < i && (walk[k], c) in edges ==> c in walk)
    && (i < |walk| ==> level[|walk| - 1] <= level[i] + 1)
    && (i < |walk| ==> forall f :: f in Within(edges, root, level[i]) ==> f in walk)
  }

  lemma StartWalking(edges: set<Edge>, root: FolderId)
    ensures Walking(edges, root, [root], [0], 0)
  {
  }

  // A folder of the next level has a parent in this one.
  lemma ParentIsWithin(edges: set<Edge>, root: FolderId, f: FolderId, n: nat) returns (p: FolderId)
    requires f in Within(edges, root, n + 1) && f !in Within(edges, root, n)
    ensures p in Within(edges, root, n) && (p, f) in edges
  {
    var e :| e in edges && e.0 in Within(edges, root, n) && e.1 == f;
    p := e.0;
  }

  lemma DistinctAppend(walk: seq<FolderId>, c: FolderId)
    requires Distinct(walk) && c !in walk
    ensures Distinct(walk + [c])
  {
  }

  // A new child of the folder being expanded goes to the end.
  lemma Append(edges: set<Edge>, root: FolderId, walk: seq<FolderId>, level: seq<nat>, i: nat, c: FolderId)
    requires Walking(edges, root, walk, level, i) && i < |walk| && (walk[i], c) in edges && c !in walk
    ensures Walking(edges, root, walk + [c], level + [level[i] + 1], i)
  {
    hide Within, Distinct;
    ChildIsWithin(edges, root, walk[i], c, level[i]);
    DistinctAppend(walk, c);
    var longer, levels := walk + [c], level + [level[i] + 1];
    forall k, n: nat | 0 <= k < |longer| && n < levels[k] ensures longer[k] !in Within(edges, root, n) {
      if k == |walk| {
        WithinGrows(edges, root, n, level[i]);
      }
    }
    forall k, d | 0 <= k < i && (longer[k], d) in edges ensures d in longer {
      assert (walk[k], d) in edges;
    }
  }

  // All children of folder i are on the walk: go on to the next.
  lemma Advance(edges: set<Edge>, root: FolderId, walk: seq<FolderId>, level: seq<nat>, i: nat)
    requires Walking(edges, root, walk, level, i) && i < |walk|
    requires forall c :: (walk[i], c) in edges ==> c in walk
    ensures Walking(edges, root, walk, level, i + 1)
  {
    hide Within, Distinct;
    if i + 1 < |walk| && level[i + 1] > level[i] {
      var n := level[i];
      assert level[i + 1] == n + 1;
      forall f | f in Within(edges, root, n + 1) ensures f in walk {
        if f !in Within(edges, root, n) {
          var p := ParentIsWithin(edges, root, f, n);
          ExpandedUpTo(edges, root, walk, level, i, p);
        }
      }
    }
  }

  // A folder at most as far as folder i, when the next one is farther, was expanded.
  lemma ExpandedUpTo(edges: set<Edge>, root: FolderId, walk: seq<FolderId>, level: seq<nat>, i: nat, p: FolderId)
    requires Walking(edges, root, walk, level, i) && i + 1 < |walk| && level[i + 1] > level[i]
    requires forall c :: (walk[i], c) in edges ==> c in walk
    requires p in Within(edges, root, level[i])
    ensures forall c :: (p, c) in edges ==> c in walk
  {
    hide Within, Distinct;
    var k :| 0 <= k < |walk| && walk[k] == p;
    assert level[k] <= level[i];
    assert k <= i;
  }

  lemma DoneWalking(edges: set<Edge>, root: FolderId, walk: seq<FolderId>, level: seq<nat>)
    requires Walking(edges, root, walk, level, |walk|)
    ensures BreadthFirst(edges, root, walk)
  {
    var s := set f | f in walk;
    forall f ensures f in walk <==> Reachable(edges, root, f) {
      if Reachable(edges, root, f) {
        var n: nat :| f in Within(edges, root, n);
        forall e | e in edges && e.0 in s ensures e.1 in s {
          var k :| 0 <= k < |walk| && walk[k] == e.0;
          assert (walk[k], e.1) in edges;
        }
        ClosedHoldsAll(edges, root, s, n);
      }
    }
    forall j, k, n: nat | 0 <= j < k < |walk| && walk[k] in Within(edges, root, n)
      ensures walk[j] in Within(edges, root, n)
    {
      assert level[j] <= level[k] <= n;
      WithinGrows(edges, root, level[j], n);
    }
  }

  // The folders found so far, as the walk's lookup set.
  ghost predicate SeenOnce(edges: set<Edge>, root: FolderId, walk: seq<FolderId>, seen: set<FolderId>) {
    && seen <= {root} + (set e | e in edges :: e.1)
    && |seen| == |walk|
    && forall f :: f in seen <==> f in walk
  }

  lemma SeenOneMore(edges: set<Edge>, root: FolderId, walk: seq<FolderId>, seen: set<FolderId>, f: FolderId, c: FolderId)
    requires SeenOnce(edges, root, walk, seen) && (f, c) in edges && c !in seen
    ensures SeenOnce(edges, root, walk + [c], seen + {c})
  {
  }

  lemma WalkIsBounded(edges: set<Edge>, root: FolderId, walk: seq<FolderId>, seen: set<FolderId>)
    requires SeenOnce(edges, root, walk, seen)
    ensures |walk| <= |{root} + (set e | e in edges :: e.1)|
  {
    SubsetSize(seen, {root} + (set e | e in edges :: e.1));
  }

  // FolderSubtree: a worklist that grows while it is scanned. It ends on any
  // table, cycles included.
  method FolderSubtree(edges: set<Edge>, root: FolderId) returns (subtree: seq<FolderId>)
    ensures BreadthFirst(edges, root, subtree)
  {
    hide Within, Distinct, BreadthFirst, SeenOnce;
    var seen := {root};
    subtree := [root];
    ghost var level: seq<nat> := [0];
    var i := 0;
    StartWalking(edges, root);
    StartSeen(edges, root);
    WalkIsBounded(edges, root, subtree, seen);
    while i < |subtree|
      invariant Walking(edges, root, subtree, level, i)
      invariant SeenOnce(edges, root, subtree, seen)
      decreases |{root} + (set e | e in edges :: e.1)| - i
    {
      WalkIsBounded(edges, root, subtree, seen);
      subtree, seen, level := Expand(edges, root, subtree, seen, level, i);
      i := i + 1;
    }
    DoneWalking(edges, root, subtree, level);
  }

  lemma StartSeen(edges: set<Edge>, root: FolderId)
    ensures SeenOnce(edges, root, [root], {root})
  {
  }

  // One round of the walk: the children of folder i that were not seen yet.
  method Expand(edges: set<Edge>, root: FolderId, walk: seq<FolderId>, found: set<FolderId>, ghost levels: seq<nat>, i: nat)
      returns (subtree: seq<FolderId>, seen: set<FolderId>, ghost level: seq<nat>)
    requires Walking(edges, root, walk, levels, i) && i < |walk| == |levels| && SeenOnce(edges, root, walk, found)
    ensures Walking(edges, root, subtree, level, i + 1) && SeenOnce(edges, root, subtree, seen)
    ensures walk <= subtree
  {
    hide Within, Distinct, Walking;
    subtree, seen, level := walk, found, levels;
    var left := Children(edges, walk[i]);
    while left != {}
      invariant Walking(edges, root, subtree, level, i) && SeenOnce(edges, root, subtree, seen)
      invariant walk <= subtree && |level| == |subtree|
      invariant left <= Children(edges, walk[i])
      invariant forall c :: (walk[i], c) in edges && c !in left ==> c in seen
      decreases left
    {
      var child :| child in left;
      left := left - {child};
      if child !in seen {
        Append(edges, root, subtree, level, i, child);
        SeenOneMore(edges, root, subtree, seen, walk[i], child);
        level := level + [level[i] + 1];
        seen := seen + {child};
        subtree := subtree + [child];
      }
    }
    Advance(edges, root, subtree, level, i);
  }
}
