// services/metadata/internal/content/server.go, handleContent after the ticket
// checks: from a Range header to the status and the bytes of the answer, on
// either tier, and what a client gets that downloads a file in pieces.
module ContentServer {
  import opened Common
  import opened Decimal
  import opened RangeRequest
  import opened BlockStream
  import opened Consolidation

  // The channel a span's worker pool feeds (WorkerPool.ReceivedIsDeliverable).
  type Deliveries = Span -> seq<Arrival>

  ghost predicate Honest(m: Manifest, store: BlockStore, deliveries: Deliveries) {
    forall s: Span :: 0 <= s.firstIdx <= s.lastIdx < |m.blocks| ==> Deliverable(m, store, s, deliveries(s))
  }

  // No fetch fails and no request is cut short for this span.
  ghost predicate AllArrive(s: Span, deliveries: Deliveries) {
    && (forall i :: s.firstIdx <= i <= s.lastIdx ==> i in Indices(deliveries(s)))
    && (forall a :: a in deliveries(s) ==> a.body.Some?)
  }

  datatype Response =
    | NotSatisfiable
    | Crashed                                                   // headers sent, then a panic
    | Answer(range: Range, announced: int, body: seq<Byte>)

  lemma FileLength(m: Manifest, store: BlockStore)
    requires WellFormed(m) && Stored(m, store)
    ensures |File(m, store)| == m.total
    ensures m.total == 0 <==> m.blocks == []
  {
    BytesLength(m, store, |m.blocks|);
    PrefixGrows(m.blocks, 0, |m.blocks|);
  }

  // The bytes of [start, end].
  function Slice(m: Manifest, store: BlockStore, start: int, end: int): seq<Byte>
    requires Stored(m, store)
    requires 0 <= start <= end + 1 <= |File(m, store)|
  {
    File(m, store)[start..end + 1]
  }

  // The block path: locate, then stream. None is the panic of manifestOffsets.
  method ServeLive(m: Manifest, store: BlockStore, r: Range, deliveries: Deliveries, cut: map<int, nat>)
      returns (body: Option<seq<Byte>>)
    requires WellFormed(m) && Stored(m, store) && Honest(m, store, deliveries)
    requires 0 <= r.start <= r.end + 1 <= |File(m, store)| && (r.start == r.end + 1 ==> m.total == 0)
    ensures body.None? <==> m.blocks == []
    ensures body.Some? ==> body.value <= Slice(m, store, r.start, r.end)
    ensures body.Some? && cut == map[] && (forall s: Span :: AllArrive(s, deliveries))
      ==> body.value == Slice(m, store, r.start, r.end)
  {
    FileLength(m, store);
    var span := ManifestOffsets(m, r.start, r.end);
    if span.None? {
      return None;
    }
    var s := span.value;
    SegmentsJoinToRange(m, store, s, r.start, r.end);
    var arrivals := deliveries(s);
    var written, stop := StreamRange(m, store, s, arrivals, cut);
    if cut == map[] && AllArrive(s, deliveries) {
      assert !stop.FetchFailed?;
    }
    return Some(written);
  }

  // What a request may be answered with; `whole` when nothing fails on the way.
  ghost predicate RightAnswer(m: Manifest, store: BlockStore, header: string, whole: bool, resp: Response)
    requires Stored(m, store)
  {
    && (resp.NotSatisfiable? <==> ParseRange(header, m.total).None?)
    && (resp.Crashed? <==> ParseRange(header, m.total).Some? && m.blocks == [])
    && (resp.Answer? ==>
          && ParseRange(header, m.total) == Some(resp.range)
          && 0 <= resp.range.start <= resp.range.end + 1 <= |File(m, store)|
          && resp.announced == resp.range.end + 1 - resp.range.start
          // Never a wrong byte: the body is the range, or its beginning.
          && resp.body <= Slice(m, store, resp.range.start, resp.range.end)
          && (whole ==> resp.body == Slice(m, store, resp.range.start, resp.range.end)))
  }

  // Nothing fails during this request, whichever tier serves it.
  ghost predicate Undisturbed(assembled: Option<seq<Byte>>, deliveries: Deliveries, cut: map<int, nat>) {
    cut == map[] && (assembled.Some? || forall s: Span :: AllArrive(s, deliveries))
  }

  // GET with an optional Range header. `assembled` is the consolidated object
  // when one is ready to be streamed; `cut` breaks the client connection.
  method HandleContent(m: Manifest, store: BlockStore, assembled: Option<seq<Byte>>, header: string,
                       deliveries: Deliveries, cut: map<int, nat>) returns (resp: Response)
    requires WellFormed(m) && Stored(m, store) && Honest(m, store, deliveries)
    requires assembled.Some? ==> m.blocks != [] && assembled.value == File(m, store)
    ensures RightAnswer(m, store, header, Undisturbed(assembled, deliveries, cut), resp)
    // Without a Range header the answer is the whole file, not a part of it.
    ensures header == "" && m.blocks != [] ==>
      && resp.Answer? && !resp.range.partial && resp.announced == m.total
      && (Undisturbed(assembled, deliveries, cut) ==> resp.body == File(m, store))
    ensures resp.Answer? ==> (resp.range.partial <==> header != "")
  {
    FileLength(m, store);
    var parsed := ParseRange(header, m.total);
    if parsed.None? {
      return NotSatisfiable;
    }
    AcceptedRangeIsInside(header, m.total);
    var r := parsed.value;
    var announced := if r.partial then r.end - r.start + 1 else m.total;
    if assembled.Some? {
      var body := ReadObjectRange(assembled.value, r.start, r.end - r.start + 1);
      return Answer(r, announced, Copied(body.value, 0, cut));
    }
    var live := ServeLive(m, store, r, deliveries, cut);
    if live.None? {
      return Crashed;
    }
    return Answer(r, announced, live.value);
  }

  // A client that splits a file at any increasing cut points.
  ghost predicate CutPoints(cuts: seq<nat>, total: int) {
    && |cuts| >= 1 && cuts[0] == 0
    && (forall i :: 0 <= i < |cuts| - 1 ==> cuts[i] < cuts[i + 1])
    && cuts[|cuts| - 1] == total
  }

  // The Range header that asks for the piece [from, to).
  function PieceHeader(from: nat, to: nat): string
    requires from < to
  {
    UNIT + Print(from) + "-" + Print(to - 1)
  }

  lemma {:induction false} CutsGrow(cuts: seq<nat>, total: int, j: nat, k: nat)
    requires CutPoints(cuts, total) && j <= k < |cuts|
    ensures cuts[j] <= cuts[k]
    decreases k
  {
    if j < k {
      assert cuts[k - 1] < cuts[k - 1 + 1];
      CutsGrow(cuts, total, j, k - 1);
    }
  }

  // An undisturbed answer to the header of a piece is the piece.
  lemma PieceIsServed(m: Manifest, store: BlockStore, from: nat, to: nat, resp: Response)
    requires WellFormed(m) && Stored(m, store) && from < to <= m.total <= MAX_INT64
    requires RightAnswer(m, store, PieceHeader(from, to), true, resp)
    ensures to <= |File(m, store)| && resp.Answer? && resp.body == File(m, store)[from..to]
  {
    hide ParseRange, Print, File, WellFormed, Stored;
    FileLength(m, store);
    ClosedFormIsExact(from, to - 1, m.total);
  }

  // Each request for a piece was answered without a failure, on either tier.
  ghost predicate PiecesServed(m: Manifest, store: BlockStore, cuts: seq<nat>, answers: seq<Response>)
    requires Stored(m, store) && CutPoints(cuts, m.total)
  {
    && |answers| == |cuts| - 1
    && forall i :: 0 <= i < |answers| ==> RightAnswer(m, store, PieceHeader(cuts[i], cuts[i + 1]), true, answers[i])
  }

  // The bodies of the first k answers, one after the other.
  function FirstBodies(answers: seq<Response>, k: nat): seq<Byte>
    requires k <= |answers|
  {
    if k == 0 then [] else FirstBodies(answers, k - 1) + (if answers[k - 1].Answer? then answers[k - 1].body else [])
  }

  lemma {:induction false} FirstBodiesAreAPrefix(m: Manifest, store: BlockStore, cuts: seq<nat>, answers: seq<Response>, k: nat)
    requires WellFormed(m) && Stored(m, store) && CutPoints(cuts, m.total) && m.total <= MAX_INT64
    requires PiecesServed(m, store, cuts, answers) && k < |cuts|
    ensures cuts[k] <= |File(m, store)| && FirstBodies(answers, k) == File(m, store)[..cuts[k]]
  {
    hide RightAnswer, PieceHeader, WellFormed, Stored, File;
    if k > 0 {
      FirstBodiesAreAPrefix(m, store, cuts, answers, k - 1);
      PieceIsAnswered(m, store, cuts, answers, k - 1);
    }
  }

  lemma PieceIsAnswered(m: Manifest, store: BlockStore, cuts: seq<nat>, answers: seq<Response>, i: nat)
    requires WellFormed(m) && Stored(m, store) && CutPoints(cuts, m.total) && m.total <= MAX_INT64
    requires PiecesServed(m, store, cuts, answers) && i < |answers|
    ensures cuts[i] < cuts[i + 1] <= |File(m, store)|
    ensures answers[i].Answer? && answers[i].body == File(m, store)[cuts[i]..cuts[i + 1]]
  {
    hide RightAnswer, PieceHeader, WellFormed, Stored, File;
    CutsGrow(cuts, m.total, i + 1, |cuts| - 1);
    assert cuts[i] < cuts[i + 1];
    PieceIsServed(m, store, cuts[i], cuts[i + 1], answers[i]);
  }

  // A client that asks for a file in pieces, as "bytes=from-to" each, gets bodies
  // that put together are the file, whichever tier answers each request.
  lemma PiecesReassemble(m: Manifest, store: BlockStore, cuts: seq<nat>, answers: seq<Response>)
    requires WellFormed(m) && Stored(m, store) && CutPoints(cuts, m.total) && m.total <= MAX_INT64
    requires PiecesServed(m, store, cuts, answers)
    ensures (forall i :: 0 <= i < |answers| ==> answers[i].Answer?)
    ensures FirstBodies(answers, |answers|) == File(m, store)
  {
    hide RightAnswer, PieceHeader, WellFormed, Stored, File;
    FirstBodiesAreAPrefix(m, store, cuts, answers, |answers|);
    FileLength(m, store);
    forall i | 0 <= i < |answers| ensures answers[i].Answer? {
      PieceIsAnswered(m, store, cuts, answers, i);
    }
  }
}
