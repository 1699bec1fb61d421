// services/metadata/internal/content/server.go: locating a byte range in a list
// of blocks (manifestOffsets) and writing it in order from fetches that
// complete in any order (streamRange).
module BlockStream {
  import opened Common

  type Byte = b: int | 0 <= b < 256 witness 0

  datatype Block = Block(hash: string, size: int)

  // A file's download manifest. `total` is what the response headers announce.
  datatype Manifest = Manifest(blocks: seq<Block>, total: int)

  // Block contents by hash (the object store's blocks/ tree).
  type BlockStore = map<string, seq<Byte>>

  function Prefix(blocks: seq<Block>, k: nat): int
    requires k <= |blocks|
  {
    if k == 0 then 0 else Prefix(blocks, k - 1) + blocks[k - 1].size
  }

  // Positive sizes that add up to the announced total.
  ghost predicate WellFormed(m: Manifest) {
    && (forall i :: 0 <= i < |m.blocks| ==> m.blocks[i].size > 0)
    && Prefix(m.blocks, |m.blocks|) == m.total
  }

  // Every block is stored with exactly its recorded size.
  ghost predicate Stored(m: Manifest, store: BlockStore) {
    forall i :: 0 <= i < |m.blocks| ==>
      m.blocks[i].hash in store && |store[m.blocks[i].hash]| == m.blocks[i].size
  }

  // The bytes of the first k blocks.
  function Bytes(m: Manifest, store: BlockStore, k: nat): seq<Byte>
    requires k <= |m.blocks|
    requires Stored(m, store)
  {
    if k == 0 then [] else Bytes(m, store, k - 1) + store[m.blocks[k - 1].hash]
  }

  // The file: the concatenation of its blocks.
  function File(m: Manifest, store: BlockStore): seq<Byte>
    requires Stored(m, store)
  {
    Bytes(m, store, |m.blocks|)
  }

  lemma {:induction false} BytesLength(m: Manifest, store: BlockStore, k: nat)
    requires k <= |m.blocks| && Stored(m, store)
    ensures |Bytes(m, store, k)| == Prefix(m.blocks, k)
  {
    if k > 0 {
      BytesLength(m, store, k - 1);
    }
  }

  lemma {:induction false} BytesPrefix(m: Manifest, store: BlockStore, j: nat, k: nat)
    requires j <= k <= |m.blocks| && Stored(m, store)
    ensures Bytes(m, store, j) <= Bytes(m, store, k)
    decreases k
  {
    if j < k {
      BytesPrefix(m, store, j, k - 1);
    }
  }

  lemma {:induction false} PrefixGrows(blocks: seq<Block>, j: nat, k: nat)
    requires j <= k <= |blocks|
    requires forall i :: 0 <= i < |blocks| ==> blocks[i].size > 0
    ensures Prefix(blocks, j) <= Prefix(blocks, k)
    ensures j < k ==> Prefix(blocks, j) < Prefix(blocks, k)
    decreases k
  {
    if j < k {
      PrefixGrows(blocks, j, k - 1);
    }
  }

  // ---------------------------------------------------------------- offsets

  // The prefix-sum slice of manifestOffsets.
  method PrefixSums(blocks: seq<Block>) returns (offsets: array<int>)
    ensures fresh(offsets) && offsets.Length == |blocks| + 1
    ensures forall k :: 0 <= k <= |blocks| ==> offsets[k] == Prefix(blocks, k)
  {
    offsets := new int[|blocks| + 1];
    offsets[0] := 0;
    for i := 0 to |blocks|
      invariant forall k :: 0 <= k <= i ==> offsets[k] == Prefix(blocks, k)
    {
      offsets[i + 1] := offsets[i] + blocks[i].size;
    }
  }

  // sort.Search over "offsets[i+1] > target": the least such index, or n.
  method Search(offsets: array<int>, n: nat, target: int) returns (i: nat)
    requires offsets.Length == n + 1
    requires forall a, b :: 0 <= a < b <= n ==> offsets[a] <= offsets[b]
    ensures i <= n
    ensures forall k :: 1 <= k <= i ==> offsets[k] <= target
    ensures forall k :: i < k <= n ==> offsets[k] > target
  {
    i := 0;
    var j := n;
    while i < j
      invariant i <= j <= n
      invariant forall k :: 1 <= k <= i ==> offsets[k] <= target
      invariant forall k :: j < k <= n ==> offsets[k] > target
    {
      var h := (i + j) / 2;
      if offsets[h + 1] > target {
        j := h;
      } else {
        i := h + 1;
      }
    }
  }

  datatype Span = Span(firstIdx: int, lastIdx: int, firstOff: int, lastOff: int)

  // Block i holds byte position `at`, at offset `off` inside the block.
  ghost predicate Holds(m: Manifest, i: int, off: int, at: int) {
    0 <= i < |m.blocks| && 0 <= off < m.blocks[i].size && Prefix(m.blocks, i) + off == at
  }

  // Searching the prefix sums for a position finds the block that holds it.
  lemma FoundBlockHolds(m: Manifest, i: nat, at: int)
    requires WellFormed(m) && 0 <= at < m.total && i <= |m.blocks|
    requires forall k :: 1 <= k <= i ==> Prefix(m.blocks, k) <= at
    requires forall k :: i < k <= |m.blocks| ==> Prefix(m.blocks, k) > at
    ensures i < |m.blocks| && Holds(m, i, at - Prefix(m.blocks, i), at)
  {
    assert Prefix(m.blocks, 0) == 0 && Prefix(m.blocks, |m.blocks|) > at;
    assert i < |m.blocks|;
    assert Prefix(m.blocks, i + 1) == Prefix(m.blocks, i) + m.blocks[i].size;
  }

  // manifestOffsets. None is the run-time panic of indexing offsets with -1,
  // which happens exactly for a manifest without blocks.
  method ManifestOffsets(m: Manifest, start: int, end: int) returns (r: Option<Span>)
    requires WellFormed(m)
    requires 0 <= start <= end + 1 && end < m.total && (start == end + 1 ==> m.total == 0)
    ensures r.None? <==> m.blocks == []
    ensures r.Some? ==> Covers(m, r.value, start, end)
  {
    var n := |m.blocks|;
    var offsets := PrefixSums(m.blocks);
    forall a, b | 0 <= a < b <= n ensures offsets[a] <= offsets[b] {
      PrefixGrows(m.blocks, a, b);
    }
    PrefixGrows(m.blocks, 0, n);
    var firstIdx: int := Search(offsets, n, start);
    var lastIdx: int := Search(offsets, n, end);
    if n > 0 {
      FoundBlockHolds(m, firstIdx, start);
      FoundBlockHolds(m, lastIdx, end);
    }
    if lastIdx >= n {
      lastIdx := n - 1;
    }
    if lastIdx < 0 {
      return None;
    }
    return Some(Span(firstIdx, lastIdx, start - offsets[firstIdx], end - offsets[lastIdx]));
  }

  // A position is held by only one block, so ManifestOffsets has one answer.
  lemma HolderIsUnique(m: Manifest, i: int, x: int, j: int, y: int, at: int)
    requires WellFormed(m) && Holds(m, i, x, at) && Holds(m, j, y, at)
    ensures i == j && x == y
  {
    if i < j {
      PrefixGrows(m.blocks, i + 1, j);
    } else if j < i {
      PrefixGrows(m.blocks, j + 1, i);
    }
  }

  // ---------------------------------------------------------------- segments

  // What the worker asks for: from where in block i, and how many bytes.
  function Offset(s: Span, i: int): int {
    if i == s.firstIdx then s.firstOff else 0
  }

  function Length(m: Manifest, s: Span, i: int): int
    requires 0 <= i < |m.blocks|
  {
    if i == s.lastIdx then s.lastOff + 1 - Offset(s, i) else m.blocks[i].size - Offset(s, i)
  }

  ghost predicate Covers(m: Manifest, s: Span, start: int, end: int) {
    0 <= start <= end && Holds(m, s.firstIdx, s.firstOff, start) && Holds(m, s.lastIdx, s.lastOff, end)
  }

  lemma CoversInOrder(m: Manifest, s: Span, start: int, end: int)
    requires WellFormed(m) && Covers(m, s, start, end)
    ensures s.firstIdx <= s.lastIdx
    ensures s.firstIdx == s.lastIdx ==> s.firstOff <= s.lastOff
    ensures forall i :: s.firstIdx <= i <= s.lastIdx ==>
      0 <= Offset(s, i) < Offset(s, i) + Length(m, s, i) <= m.blocks[i].size
  {
    if s.lastIdx < s.firstIdx {
      PrefixGrows(m.blocks, s.lastIdx + 1, s.firstIdx);
    }
  }

  // ReadBlockRange: the ranged read of one stored block.
  function ReadBlockRange(store: BlockStore, hash: string, offset: int, length: int): Option<seq<Byte>> {
    if hash in store && 0 <= offset <= offset + length <= |store[hash]|
    then Some(store[hash][offset..offset + length])
    else None
  }

  // The bytes block i contributes to the range.
  function Segment(m: Manifest, store: BlockStore, s: Span, i: int): seq<Byte>
    requires 0 <= i < |m.blocks|
  {
    match ReadBlockRange(store, m.blocks[i].hash, Offset(s, i), Length(m, s, i))
    case Some(b) => b
    case None => []
  }

  // The segments of blocks firstIdx..k-1, joined.
  function Joined(m: Manifest, store: BlockStore, s: Span, k: int): seq<Byte>
    requires 0 <= s.firstIdx <= k <= |m.blocks|
    decreases k
  {
    if k == s.firstIdx then [] else Joined(m, store, s, k - 1) + Segment(m, store, s, k - 1)
  }

  lemma SliceRight(a: seq<Byte>, b: seq<Byte>, x: nat, y: nat)
    requires x <= y <= |b|
    ensures (a + b)[|a| + x..|a| + y] == b[x..y]
  {
  }

  lemma SliceAcross(a: seq<Byte>, b: seq<Byte>, x: nat, y: nat)
    requires x <= |a| && y <= |b|
    ensures (a + b)[x..|a| + y] == a[x..] + b[..y]
  {
  }

  // Where the first k blocks stop contributing.
  function StopAt(m: Manifest, s: Span, end: int, k: int): int
    requires 0 <= k <= |m.blocks|
  {
    if k == s.lastIdx + 1 then end + 1 else Prefix(m.blocks, k)
  }

  lemma FirstSegment(m: Manifest, store: BlockStore, s: Span, start: int, end: int)
    requires WellFormed(m) && Stored(m, store) && Covers(m, s, start, end)
    ensures var k := s.firstIdx + 1;
      start <= StopAt(m, s, end, k) <= |Bytes(m, store, k)| &&
      Segment(m, store, s, s.firstIdx) == Bytes(m, store, k)[start..StopAt(m, s, end, k)]
  {
    CoversInOrder(m, s, start, end);
    var i := s.firstIdx;
    BytesLength(m, store, i);
    SliceRight(Bytes(m, store, i), store[m.blocks[i].hash], s.firstOff, s.firstOff + Length(m, s, i));
  }

  lemma NextSegment(m: Manifest, store: BlockStore, s: Span, start: int, end: int, i: int)
    requires WellFormed(m) && Stored(m, store) && Covers(m, s, start, end)
    requires s.firstIdx < i <= s.lastIdx && start <= |Bytes(m, store, i)|
    ensures start <= StopAt(m, s, end, i + 1) <= |Bytes(m, store, i + 1)|
    ensures Bytes(m, store, i)[start..] + Segment(m, store, s, i) == Bytes(m, store, i + 1)[start..StopAt(m, s, end, i + 1)]
  {
    CoversInOrder(m, s, start, end);
    BytesLength(m, store, i);
    SliceAcross(Bytes(m, store, i), store[m.blocks[i].hash], start, Length(m, s, i));
  }

  lemma {:induction false} JoinedIsTheRange(m: Manifest, store: BlockStore, s: Span, start: int, end: int, k: int)
    requires WellFormed(m) && Stored(m, store) && Covers(m, s, start, end)
    requires s.firstIdx < k <= s.lastIdx + 1
    ensures start <= StopAt(m, s, end, k) <= |Bytes(m, store, k)|
    ensures Joined(m, store, s, k) == Bytes(m, store, k)[start..StopAt(m, s, end, k)]
    decreases k
  {
    var i := k - 1;
    var soFar := Joined(m, store, s, i);
    assert Joined(m, store, s, k) == soFar + Segment(m, store, s, i);
    if i == s.firstIdx {
      FirstSegment(m, store, s, start, end);
      assert soFar == [];
    } else {
      JoinedIsTheRange(m, store, s, start, end, i);
      assert soFar == Bytes(m, store, i)[start..] by {
        BytesLength(m, store, i);
      }
      NextSegment(m, store, s, start, end, i);
    }
  }

  // The segments in block order are exactly the requested bytes of the file.
  lemma SegmentsJoinToRange(m: Manifest, store: BlockStore, s: Span, start: int, end: int)
    requires WellFormed(m) && Stored(m, store) && Covers(m, s, start, end)
    ensures s.lastIdx + 1 <= |m.blocks|
    ensures s.firstIdx <= s.lastIdx
    ensures 0 <= start <= end + 1 <= |File(m, store)|
    ensures Joined(m, store, s, s.lastIdx + 1) == File(m, store)[start..end + 1]
  {
    CoversInOrder(m, s, start, end);
    JoinedIsTheRange(m, store, s, start, end, s.lastIdx + 1);
    BytesPrefix(m, store, s.lastIdx + 1, |m.blocks|);
  }

  // ---------------------------------------------------------------- stream

  // One message on the results channel: which block, and its body (none when
  // the fetch failed).
  datatype Arrival = Arrival(idx: int, body: Option<seq<Byte>>)

  datatype Stop = Finished | FetchFailed(idx: int) | CopyFailed(idx: int)

  function Indices(arrivals: seq<Arrival>): set<int> {
    set a | a in arrivals :: a.idx
  }

  // What the worker pool can put on the channel (proved of the pool below):
  // each block of the span at most once, with the bytes that were asked for.
  ghost predicate Deliverable(m: Manifest, store: BlockStore, s: Span, arrivals: seq<Arrival>) {
    && (forall i, j :: 0 <= i < j < |arrivals| ==> arrivals[i].idx != arrivals[j].idx)
    && (forall a :: a in arrivals ==> Answers(m, store, s, a))
  }

  ghost predicate Answers(m: Manifest, store: BlockStore, s: Span, a: Arrival) {
    && 0 <= s.firstIdx <= a.idx <= s.lastIdx < |m.blocks|
    && (a.body.Some? ==> a.body.value == Segment(m, store, s, a.idx))
  }

  // io.Copy of one body: `cut` says how many bytes of which blocks get through
  // before the connection breaks.
  function Copied(body: seq<Byte>, idx: int, cut: map<int, nat>): seq<Byte> {
    if idx in cut then body[..Min(cut[idx], |body|)] else body
  }

  lemma {:induction false} JoinedPrefix(m: Manifest, store: BlockStore, s: Span, j: int, k: int)
    requires 0 <= s.firstIdx <= j <= k <= |m.blocks|
    ensures Joined(m, store, s, j) <= Joined(m, store, s, k)
    decreases k
  {
    if j < k {
      JoinedPrefix(m, store, s, j, k - 1);
    }
  }

  // The reorder buffer between two results: blocks before `next` are on the
  // wire, those in `pending` wait for a gap to close.
  ghost predicate Buffered(m: Manifest, store: BlockStore, s: Span, seen: set<int>,
                           next: int, pending: map<int, seq<Byte>>, written: seq<Byte>)
  {
    && 0 <= s.firstIdx <= next <= s.lastIdx + 1 <= |m.blocks|
    && written == Joined(m, store, s, next)
    && (forall j :: j in pending ==> next <= j <= s.lastIdx && pending[j] == Segment(m, store, s, j))
    && (forall j :: j in seen <==> (s.firstIdx <= j < next || j in pending))
  }

  // Copy one body whose turn it is.
  method CopyNext(m: Manifest, store: BlockStore, s: Span, next: int, body: seq<Byte>, cut: map<int, nat>, written: seq<Byte>)
      returns (out: seq<Byte>, ok: bool)
    requires 0 <= s.firstIdx <= next <= s.lastIdx < |m.blocks|
    requires written == Joined(m, store, s, next) && body == Segment(m, store, s, next)
    ensures ok <==> next !in cut
    ensures ok ==> out == Joined(m, store, s, next + 1)
    ensures out <= Joined(m, store, s, s.lastIdx + 1)
  {
    ok := next !in cut;
    out := written + Copied(body, next, cut);
    JoinedPrefix(m, store, s, next + 1, s.lastIdx + 1);
    assert out <= Joined(m, store, s, next + 1);
  }

  // The inner loop: write every waiting body that has become next.
  method Drain(m: Manifest, store: BlockStore, s: Span, ghost seen: set<int>,
               next0: int, pending0: map<int, seq<Byte>>, cut: map<int, nat>, written0: seq<Byte>)
      returns (next: int, pending: map<int, seq<Byte>>, written: seq<Byte>, ok: bool)
    requires Buffered(m, store, s, seen, next0, pending0, written0)
    ensures written <= Joined(m, store, s, s.lastIdx + 1)
    ensures ok ==> Buffered(m, store, s, seen, next, pending, written) && next !in pending
    ensures !ok ==> next in cut
  {
    next, pending, written, ok := next0, pending0, written0, true;
    while next in pending
      invariant Buffered(m, store, s, seen, next, pending, written)
      decreases |pending|
    {
      var body := pending[next];
      pending := pending - {next};
      written, ok := CopyNext(m, store, s, next, body, cut, written);
      if !ok {
        return;
      }
      next := next + 1;
    }
    JoinedPrefix(m, store, s, next, s.lastIdx + 1);
  }

  // The body of the receive loop, for one result.
  method Receive(m: Manifest, store: BlockStore, s: Span, ghost seen: set<int>, res: Arrival,
                 next0: int, pending0: map<int, seq<Byte>>, cut: map<int, nat>, written0: seq<Byte>)
      returns (next: int, pending: map<int, seq<Byte>>, written: seq<Byte>, stop: Stop)
    requires Buffered(m, store, s, seen, next0, pending0, written0) && next0 !in pending0
    requires Answers(m, store, s, res) && res.idx !in seen
    ensures written <= Joined(m, store, s, s.lastIdx + 1)
    ensures stop.Finished? ==> res.body.Some?
    ensures stop.Finished? ==> Buffered(m, store, s, seen + {res.idx}, next, pending, written) && next !in pending
    ensures stop.FetchFailed? ==> res == Arrival(stop.idx, None)
    ensures stop.CopyFailed? ==> stop.idx in cut
  {
    next, pending, written, stop := next0, pending0, written0, Finished;
    JoinedPrefix(m, store, s, next, s.lastIdx + 1);
    if res.body.None? {
      stop := FetchFailed(res.idx);
    } else if res.idx == next {
      var ok;
      written, ok := CopyNext(m, store, s, next, res.body.value, cut, written);
      if !ok {
        stop := CopyFailed(res.idx);
        return;
      }
      next, pending, written, ok := Drain(m, store, s, seen + {res.idx}, next + 1, pending, cut, written);
      if !ok {
        stop := CopyFailed(next);
      }
    } else {
      pending := pending[res.idx := res.body.value];
    }
  }

  lemma IndicesStep(m: Manifest, store: BlockStore, s: Span, arrivals: seq<Arrival>, i: nat)
    requires i < |arrivals| && Deliverable(m, store, s, arrivals)
    ensures Answers(m, store, s, arrivals[i])
    ensures arrivals[i].idx !in Indices(arrivals[..i])
    ensures Indices(arrivals[..i + 1]) == Indices(arrivals[..i]) + {arrivals[i].idx}
  {
    assert arrivals[..i + 1] == arrivals[..i] + [arrivals[i]];
  }

  lemma NoGapLeft(m: Manifest, store: BlockStore, s: Span, seen: set<int>,
                  next: int, pending: map<int, seq<Byte>>, written: seq<Byte>)
    requires Buffered(m, store, s, seen, next, pending, written) && next !in pending
    ensures written <= Joined(m, store, s, s.lastIdx + 1)
    ensures (forall i :: s.firstIdx <= i <= s.lastIdx ==> i in seen) ==> written == Joined(m, store, s, s.lastIdx + 1)
  {
    JoinedPrefix(m, store, s, next, s.lastIdx + 1);
    if next <= s.lastIdx {
      assert next !in seen;
    }
  }

  // streamRange's reorder buffer, fed with results in the order the channel
  // yields them.
  method StreamRange(m: Manifest, store: BlockStore, s: Span, arrivals: seq<Arrival>, cut: map<int, nat>)
      returns (written: seq<Byte>, stop: Stop)
    requires 0 <= s.firstIdx <= s.lastIdx < |m.blocks|
    requires Deliverable(m, store, s, arrivals)
    // Whatever happens, what was written is the beginning of the range.
    ensures written <= Joined(m, store, s, s.lastIdx + 1)
    // Every block arrived and nothing failed: the whole range was written.
    ensures stop.Finished? && (forall i :: s.firstIdx <= i <= s.lastIdx ==> i in Indices(arrivals))
      ==> written == Joined(m, store, s, s.lastIdx + 1)
    // It ends early only on a real failure, and a failed fetch always ends it.
    ensures stop.Finished? ==> forall k :: 0 <= k < |arrivals| ==> arrivals[k].body.Some?
    ensures stop.FetchFailed? ==> Arrival(stop.idx, None) in arrivals
    ensures stop.CopyFailed? ==> stop.idx in cut
  {
    var pending: map<int, seq<Byte>> := map[];
    var next := s.firstIdx;
    ghost var seen: set<int> := {};
    written, stop := [], Finished;
    for i := 0 to |arrivals|
      invariant Buffered(m, store, s, seen, next, pending, written)
      invariant seen == Indices(arrivals[..i])
      invariant next !in pending && stop.Finished?
      invariant forall k :: 0 <= k < i ==> arrivals[k].body.Some?
    {
      IndicesStep(m, store, s, arrivals, i);
      next, pending, written, stop := Receive(m, store, s, seen, arrivals[i], next, pending, cut, written);
      if !stop.Finished? {
        return;
      }
      seen := seen + {arrivals[i].idx};
    }
    assert arrivals[..|arrivals|] == arrivals;
    NoGapLeft(m, store, s, seen, next, pending, written);
  }
}
