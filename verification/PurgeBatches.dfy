// services/metadata/internal/purge/coordinator.go: how a job's block list is cut
// into decrement requests, and what a re-drive publishes again.
module PurgeBatches {
  import opened Common
  import MsgIds

  type JobId = string

  const MAX_OPS: nat := 500

  // ---------------------------------------------------------------- hashes

  predicate IsHexDigit(c: char) {
    '0' <= c <= '9' || 'a' <= c <= 'f' || 'A' <= c <= 'F'
  }

  function Nibble(c: char): (v: nat)
    requires IsHexDigit(c)
    ensures v < 16
  {
    if c <= '9' then c as int - '0' as int
    else if 'a' <= c then c as int - 'a' as int + 10
    else c as int - 'A' as int + 10
  }

  predicate IsHexString(s: string) {
    |s| % 2 == 0 && forall i :: 0 <= i < |s| ==> IsHexDigit(s[i])
  }

  // hex.DecodeString
  function HexDecode(s: string): (r: Option<seq<nat>>)
    ensures r.Some? <==> IsHexString(s)
    ensures r.Some? ==> |r.value| == |s| / 2
    ensures r.Some? ==> forall k :: 0 <= k < |r.value| ==> r.value[k] == 16 * Nibble(s[2 * k]) + Nibble(s[2 * k + 1])
  {
    if IsHexString(s)
    then Some(seq(|s| / 2, k requires 0 <= k < |s| / 2 => 16 * Nibble(s[2 * k]) + Nibble(s[2 * k + 1])))
    else None
  }

  const LOWER_DIGITS := "0123456789abcdef"
  const UPPER_DIGITS := "0123456789ABCDEF"

  // Bytes as hexadecimal text in one of the two spellings.
  function HexEncode(digits: string, bytes: seq<nat>): string
    requires |digits| == 16 && forall i :: 0 <= i < |bytes| ==> bytes[i] < 256
  {
    seq(2 * |bytes|, k requires 0 <= k < 2 * |bytes| => digits[if k % 2 == 0 then bytes[k / 2] / 16 else bytes[k / 2] % 16])
  }

  lemma NibbleReadsDigits(v: nat)
    requires v < 16
    ensures IsHexDigit(LOWER_DIGITS[v]) && Nibble(LOWER_DIGITS[v]) == v
    ensures IsHexDigit(UPPER_DIGITS[v]) && Nibble(UPPER_DIGITS[v]) == v
  {
  }

  // The two characters of byte k.
  lemma EncodedAt(digits: string, bytes: seq<nat>, k: nat)
    requires |digits| == 16 && (forall i :: 0 <= i < |bytes| ==> bytes[i] < 256) && k < |bytes|
    ensures var s := HexEncode(digits, bytes);
      |s| == 2 * |bytes| && s[2 * k] == digits[bytes[k] / 16] && s[2 * k + 1] == digits[bytes[k] % 16]
  {
    assert (2 * k) / 2 == k && (2 * k) % 2 == 0 && (2 * k + 1) / 2 == k && (2 * k + 1) % 2 == 1;
  }

  lemma EncodedIsHex(digits: string, bytes: seq<nat>)
    requires |digits| == 16 && (forall v :: 0 <= v < 16 ==> IsHexDigit(digits[v]))
    requires forall i :: 0 <= i < |bytes| ==> bytes[i] < 256
    ensures IsHexString(HexEncode(digits, bytes))
  {
    hide IsHexDigit;
  }

  // Decoding returns the bytes that were printed, in either spelling.
  lemma HexRoundTrip(digits: string, bytes: seq<nat>)
    requires digits == LOWER_DIGITS || digits == UPPER_DIGITS
    requires forall i :: 0 <= i < |bytes| ==> bytes[i] < 256
    ensures HexDecode(HexEncode(digits, bytes)) == Some(bytes)
  {
    hide Nibble, IsHexDigit, HexEncode;
    forall v: nat | v < 16 ensures IsHexDigit(digits[v]) && Nibble(digits[v]) == v {
      NibbleReadsDigits(v);
    }
    EncodedIsHex(digits, bytes);
    var s := HexEncode(digits, bytes);
    var r := HexDecode(s).value;
    EncodedLength(digits, bytes);
    forall k | 0 <= k < |bytes| ensures k < |r| && r[k] == bytes[k] {
      EncodedAt(digits, bytes, k);
    }
    assert r == bytes;
  }

  lemma EncodedLength(digits: string, bytes: seq<nat>)
    requires |digits| == 16 && forall i :: 0 <= i < |bytes| ==> bytes[i] < 256
    ensures |HexEncode(digits, bytes)| == 2 * |bytes|
  {
  }

  // ---------------------------------------------------------------- batches

  // One decrement: the global occurrence index in the block list, and the hash.
  datatype Op = Op(occurrence: nat, hash: seq<nat>)

  datatype Request = DecrefRequested(job: JobId, batch: nat, count: nat, ops: seq<Op>)

  datatype Message = Message(id: string, body: Request)

  function BatchCount(blocks: nat): (n: nat)
    ensures n >= 1
  {
    Max((blocks + MAX_OPS - 1) / MAX_OPS, 1)
  }

  lemma BatchCountBounds(blocks: nat)
    requires blocks > 0
    ensures (BatchCount(blocks) - 1) * MAX_OPS < blocks <= BatchCount(blocks) * MAX_OPS
  {
  }

  function Lo(batch: nat): nat { batch * MAX_OPS }

  function Hi(batch: nat, blocks: nat): nat { Min(Lo(batch) + MAX_OPS, blocks) }

  // The op of occurrence i, as the wire carries it.
  function OpAt(blocks: seq<string>, i: nat): Option<Op>
    requires i < |blocks|
  {
    match HexDecode(blocks[i])
    case None => None
    case Some(h) => Some(Op(U32(i), h))
  }

  // The ops of occurrences lo..hi-1; None when one of the hashes does not decode.
  function OpsBetween(blocks: seq<string>, lo: nat, hi: nat): (r: Option<seq<Op>>)
    requires lo <= hi <= |blocks|
    ensures r.Some? <==> forall i :: lo <= i < hi ==> IsHexString(blocks[i])
    ensures r.Some? ==> |r.value| == hi - lo
    ensures r.Some? ==> forall k :: 0 <= k < hi - lo ==> OpAt(blocks, lo + k) == Some(r.value[k])
    decreases hi - lo
  {
    if lo == hi then Some([])
    else
      match (OpsBetween(blocks, lo, hi - 1), OpAt(blocks, hi - 1))
      case (Some(ops), Some(op)) => Some(ops + [op])
      case _ => None
  }

  function BatchOps(blocks: seq<string>, batch: nat): Option<seq<Op>>
    requires Lo(batch) <= |blocks|
  {
    OpsBetween(blocks, Lo(batch), Hi(batch, |blocks|))
  }

  lemma BatchStartsInside(blocks: nat, batch: nat)
    requires batch < BatchCount(blocks)
    ensures Lo(batch) <= Hi(batch, blocks) <= blocks
    ensures Hi(batch, blocks) - Lo(batch) <= MAX_OPS
    ensures blocks > 0 ==> Lo(batch) < Hi(batch, blocks)
    ensures blocks > 0 && batch + 1 == BatchCount(blocks) ==> Hi(batch, blocks) == blocks
    ensures batch + 1 < BatchCount(blocks) ==> Hi(batch, blocks) == Lo(batch + 1)
  {
    if blocks > 0 {
      BatchCountBounds(blocks);
      assert batch * MAX_OPS <= (BatchCount(blocks) - 1) * MAX_OPS;
    }
  }

  // The message of one batch: the first publish, or the given re-drive attempt.
  function MessageOf(job: JobId, blocks: seq<string>, count: nat, batch: nat, attempt: Option<nat>): Option<Message>
    requires Lo(batch) <= |blocks|
  {
    match BatchOps(blocks, batch)
    case None => None
    case Some(ops) =>
      var wire := match attempt case None => None case Some(a) => Some(U32(a));
      Some(Message(MsgIds.IdOf(MsgIds.Publish(job, U32(batch), wire)),
                   DecrefRequested(job, U32(batch), U32(count), ops)))
  }

  // ---------------------------------------------------------------- partition

  // The ops of batches 0..n-1, one after the other.
  function OpsOfBatches(blocks: seq<string>, n: nat): Option<seq<Op>>
    requires n <= BatchCount(|blocks|)
  {
    if n == 0 then Some([])
    else
      BatchStartsInside(|blocks|, n - 1);
      match (OpsOfBatches(blocks, n - 1), BatchOps(blocks, n - 1))
      case (Some(ops), Some(more)) => Some(ops + more)
      case _ => None
  }

  lemma {:induction false} OpsAppend(blocks: seq<string>, lo: nat, mid: nat, hi: nat)
    requires lo <= mid <= hi <= |blocks|
    requires OpsBetween(blocks, lo, hi).Some?
    ensures OpsBetween(blocks, lo, mid).Some? && OpsBetween(blocks, mid, hi).Some?
    ensures OpsBetween(blocks, lo, hi).value == OpsBetween(blocks, lo, mid).value + OpsBetween(blocks, mid, hi).value
    decreases hi - mid
  {
    if mid < hi {
      OpsAppend(blocks, lo, mid, hi - 1);
    }
  }

  lemma {:induction false} BatchesCover(blocks: seq<string>, n: nat)
    requires blocks != [] && 0 < n <= BatchCount(|blocks|)
    requires OpsBetween(blocks, 0, |blocks|).Some?
    ensures Hi(n - 1, |blocks|) <= |blocks|
    ensures OpsOfBatches(blocks, n) == OpsBetween(blocks, 0, Hi(n - 1, |blocks|))
  {
    hide BatchCount, OpsBetween, OpAt, IsHexString;
    BatchStartsInside(|blocks|, n - 1);
    OpsAppend(blocks, 0, Hi(n - 1, |blocks|), |blocks|);
    OpsAppend(blocks, 0, Lo(n - 1), Hi(n - 1, |blocks|));
    if n > 1 {
      BatchStartsInside(|blocks|, n - 2);
      BatchesCover(blocks, n - 1);
    }
  }

  // The published batches hold every occurrence of the block list exactly once
  // and in order: joined, they are the list itself, each entry with its own
  // decoded hash. Each batch has between 1 and 500 ops, which is what the
  // decrement worker accepts.
  lemma BatchesPartitionTheBlockList(blocks: seq<string>)
    requires blocks != []
    requires forall i :: 0 <= i < |blocks| ==> IsHexString(blocks[i])
    ensures OpsOfBatches(blocks, BatchCount(|blocks|)).Some?
    ensures var ops := OpsOfBatches(blocks, BatchCount(|blocks|)).value;
      && |ops| == |blocks|
      && (forall i :: 0 <= i < |blocks| ==> ops[i].occurrence == U32(i) && Some(ops[i].hash) == HexDecode(blocks[i]))
    ensures forall b :: 0 <= b < BatchCount(|blocks|) ==> Decodes(blocks, b) && 1 <= |BatchOps(blocks, b).value| <= MAX_OPS
  {
    var n := BatchCount(|blocks|);
    BatchesCover(blocks, n);
    BatchStartsInside(|blocks|, n - 1);
    var ops := OpsOfBatches(blocks, n).value;
    forall i | 0 <= i < |blocks|
      ensures ops[i].occurrence == U32(i) && Some(ops[i].hash) == HexDecode(blocks[i])
    {
      assert OpAt(blocks, 0 + i) == Some(ops[i]);
    }
    forall b | 0 <= b < n
      ensures Decodes(blocks, b) && 1 <= |BatchOps(blocks, b).value| <= MAX_OPS
    {
      BatchStartsInside(|blocks|, b);
    }
  }

  // Occurrence numbers travel as 32 bits. They identify the entries of a list
  // exactly when it has at most 2^32 of them.
  lemma OccurrencesIdentifyEntries(n: nat)
    ensures (forall i: nat, j: nat :: i < j < n ==> U32(i) != U32(j)) <==> n <= WORD
  {
    if n > WORD {
      assert U32(0) == U32(WORD);
    } else {
      forall i: nat, j: nat | i < j < n ensures U32(i) != U32(j) {
        assert U32(i) == i && U32(j) == j;
      }
    }
  }

  // ---------------------------------------------------------------- publishing

  datatype PublishResult = Published | UndecodableHash(batch: nat) | BatchOutOfRange(batch: nat) | NoBatchCount | BusDown

  // Batch b exists in the list and all of its hashes decode.
  predicate Decodes(blocks: seq<string>, b: nat) {
    Lo(b) <= |blocks| && BatchOps(blocks, b).Some?
  }

  // `sent` are the messages of these batches, in this order, at one attempt.
  ghost predicate MessagesOf(sent: seq<Message>, job: JobId, blocks: seq<string>, count: nat,
                             batches: seq<nat>, attempt: Option<nat>)
  {
    && |sent| == |batches|
    && forall k :: 0 <= k < |sent| ==>
         Lo(batches[k]) <= |blocks| && MessageOf(job, blocks, count, batches[k], attempt) == Some(sent[k])
  }

  // The batches a re-drive owes: those of 0..n-1 not recorded as done.
  function Missing(n: nat, done: set<nat>): (r: seq<nat>)
    ensures forall b: nat :: b in r <==> b < n && b !in done
  {
    if n == 0 then []
    else if n - 1 in done then Missing(n - 1, done)
    else Missing(n - 1, done) + [n - 1]
  }

  lemma {:induction false} MissingIncreases(n: nat, done: set<nat>)
    ensures forall i, j :: 0 <= i < j < |Missing(n, done)| ==> Missing(n, done)[i] < Missing(n, done)[j]
  {
    if n > 0 {
      MissingIncreases(n - 1, done);
      var r := Missing(n - 1, done);
      forall k | 0 <= k < |r| ensures r[k] < n - 1 {
        assert r[k] in r;
      }
    }
  }

  function FirstNats(n: nat): (r: seq<nat>)
    ensures |r| == n && forall k :: 0 <= k < n ==> r[k] == k
  {
    seq(n, k => k)
  }

  // A re-drive repeats the first publish of a batch bit for bit, under an id
  // that no other publish of any job, batch or attempt carries.
  lemma RedriveRepeatsTheBatch(job: JobId, blocks: seq<string>, batch: nat, attempt: nat, other: MsgIds.Publish)
    requires batch < BatchCount(|blocks|) && Decodes(blocks, batch)
    ensures var first := MessageOf(job, blocks, BatchCount(|blocks|), batch, None);
      var again := MessageOf(job, blocks, BatchCount(|blocks|), batch, Some(attempt));
      && first.Some? && again.Some?
      && again.value.body == first.value.body
      && again.value.id != first.value.id
      && (again.value.id == MsgIds.IdOf(other) <==> other == MsgIds.Publish(job, U32(batch), Some(U32(attempt))))
  {
    var mine := MsgIds.Publish(job, U32(batch), Some(U32(attempt)));
    MsgIds.IdsNeverCollide(mine, other);
    MsgIds.IdsNeverCollide(mine, MsgIds.Publish(job, U32(batch), None));
  }

  // The messages offered for these batches, leaving out those with a bad hash.
  function Offers(job: JobId, blocks: seq<string>, count: nat, batches: seq<nat>, attempt: Option<nat>): seq<Message> {
    if batches == [] then []
    else
      var b := batches[|batches| - 1];
      Offers(job, blocks, count, batches[..|batches| - 1], attempt)
      + (if Decodes(blocks, b) then [MessageOf(job, blocks, count, b, attempt).value] else [])
  }

  // When every hash decodes, each batch has its one message, in order.
  lemma {:induction false} OffersAreTheMessages(job: JobId, blocks: seq<string>, count: nat, batches: seq<nat>, attempt: Option<nat>)
    requires forall b :: b in batches ==> Decodes(blocks, b)
    ensures MessagesOf(Offers(job, blocks, count, batches, attempt), job, blocks, count, batches, attempt)
  {
    hide MessageOf, Lo, BatchOps;
    if batches != [] {
      OffersAreTheMessages(job, blocks, count, batches[..|batches| - 1], attempt);
      LastDecodes(job, blocks, count, batches[|batches| - 1], attempt);
    }
  }

  lemma LastDecodes(job: JobId, blocks: seq<string>, count: nat, b: nat, attempt: Option<nat>)
    requires Decodes(blocks, b)
    ensures Lo(b) <= |blocks| && MessageOf(job, blocks, count, b, attempt).Some?
  {
  }

  // And no other list of messages is that.
  lemma MessagesAreTheOffers(sent: seq<Message>, job: JobId, blocks: seq<string>, count: nat, batches: seq<nat>, attempt: Option<nat>)
    requires MessagesOf(sent, job, blocks, count, batches, attempt)
    ensures forall b :: b in batches ==> Decodes(blocks, b)
    ensures sent == Offers(job, blocks, count, batches, attempt)
  {
    forall b | b in batches ensures Decodes(blocks, b) {
      var k :| 0 <= k < |batches| && batches[k] == b;
      assert MessageOf(job, blocks, count, batches[k], attempt) == Some(sent[k]);
    }
    OffersAreTheMessages(job, blocks, count, batches, attempt);
  }

  // The NATS connection. It accepts the first `accepts` messages offered and
  // then fails.
  class Bus {
    var stream: seq<Message>
    var accepts: nat

    constructor (accepts: nat)
      ensures stream == [] && this.accepts == accepts
    {
      stream := [];
      this.accepts := accepts;
    }

    method Publish(m: Message) returns (ok: bool)
      modifies this
      ensures ok == (old(accepts) > 0)
      ensures ok ==> stream == old(stream) + [m] && accepts == old(accepts) - 1
      ensures !ok ==> stream == old(stream) && accepts == old(accepts)
    {
      ok := accepts > 0;
      if ok {
        stream := stream + [m];
        accepts := accepts - 1;
      }
    }
  }

  // The hash loop shared by publishRequestV2 and publishBatchRedrive.
  method BuildOps(blocks: seq<string>, lo: nat, hi: nat) returns (r: Option<seq<Op>>)
    requires lo <= hi <= |blocks|
    ensures r == OpsBetween(blocks, lo, hi)
  {
    var ops := [];
    for i := lo to hi
      invariant OpsBetween(blocks, lo, i) == Some(ops)
    {
      var h := HexDecode(blocks[i]);
      if h.None? {
        return None;
      }
      ops := ops + [Op(U32(i), h.value)];
    }
    return Some(ops);
  }

  // publishRequestV2 after the batch count is recorded: what reaches the stream
  // is always a run of complete leading batches, all of them on success.
  method PublishAll(bus: Bus, job: JobId, blocks: seq<string>) returns (r: PublishResult, ghost sent: seq<Message>)
    modifies bus
    ensures bus.stream == old(bus.stream) + sent
    ensures |sent| <= BatchCount(|blocks|)
    ensures MessagesOf(sent, job, blocks, BatchCount(|blocks|), FirstNats(|sent|), None)
    ensures r.Published? <==> |sent| == BatchCount(|blocks|)
    ensures r.UndecodableHash? ==> r.batch == |sent| && !Decodes(blocks, |sent|)
    ensures !r.Published? && !r.UndecodableHash? ==> r == BusDown && bus.accepts == 0
  {
    var count := BatchCount(|blocks|);
    sent := [];
    for batch := 0 to count
      invariant |sent| == batch
      invariant MessagesOf(sent, job, blocks, count, FirstNats(batch), None)
      invariant bus.stream == old(bus.stream) + sent
    {
      BatchStartsInside(|blocks|, batch);
      var ops := BuildOps(blocks, Lo(batch), Hi(batch, |blocks|));
      if ops.None? {
        return UndecodableHash(batch), sent;
      }
      var m := Message(MsgIds.DecrefRequested(job, U32(batch)), DecrefRequested(job, U32(batch), U32(count), ops.value));
      assert MessageOf(job, blocks, count, batch, None) == Some(m);
      var ok := bus.Publish(m);
      if !ok {
        return BusDown, sent;
      }
      sent := sent + [m];
    }
    return Published, sent;
  }

  // publishBatchRedrive: one batch, under an id that carries the attempt.
  method PublishBatchRedrive(bus: Bus, job: JobId, blocks: seq<string>, count: nat, batch: nat, attempt: nat)
      returns (r: PublishResult, ghost m: Option<Message>)
    modifies bus
    ensures r.Published? ==> Lo(batch) <= |blocks| && m.Some? && m == MessageOf(job, blocks, count, batch, Some(attempt))
    ensures r.Published? ==> bus.stream == old(bus.stream) + [m.value]
    ensures !r.Published? ==> bus.stream == old(bus.stream)
    ensures r.BatchOutOfRange? <==> Lo(batch) >= |blocks|
    ensures r.UndecodableHash? <==> Lo(batch) < |blocks| && !Decodes(blocks, batch)
    ensures !r.Published? && !r.BatchOutOfRange? && !r.UndecodableHash? ==> r == BusDown && bus.accepts == 0
  {
    m := None;
    if Lo(batch) >= |blocks| {
      return BatchOutOfRange(batch), m;
    }
    var ops := BuildOps(blocks, Lo(batch), Hi(batch, |blocks|));
    if ops.None? {
      return UndecodableHash(batch), m;
    }
    var wire := Message(MsgIds.DecrefRequestedRedrive(job, U32(batch), U32(attempt)),
                        DecrefRequested(job, U32(batch), U32(count), ops.value));
    m := Some(wire);
    var ok := bus.Publish(wire);
    return if ok then Published else BusDown, m;
  }

  // PublishRequestRedrive: the missing batches in order, under ids that carry
  // the attempt. It covers the batches below `reached`, all of them on success.
  method Redrive(bus: Bus, job: JobId, blocks: seq<string>, count: nat, done: set<nat>, attempt: nat)
      returns (r: PublishResult, ghost sent: seq<Message>, ghost reached: nat)
    modifies bus
    ensures bus.stream == old(bus.stream) + sent
    ensures reached <= count && MessagesOf(sent, job, blocks, count, Missing(reached, done), Some(attempt))
    ensures forall b: nat :: b < reached && b !in done ==> Lo(b) < |blocks|
    ensures r.NoBatchCount? <==> count == 0
    ensures r.Published? ==> reached == count
    ensures !r.Published? && !r.NoBatchCount? ==> reached < count && reached !in done
    ensures r.BatchOutOfRange? ==> Lo(reached) >= |blocks|
    ensures r.UndecodableHash? ==> !Decodes(blocks, reached)
    ensures r.BusDown? ==> bus.accepts == 0
  {
    sent, reached := [], 0;
    if count == 0 {
      return NoBatchCount, sent, reached;
    }
    for batch := 0 to count
      invariant reached == batch
      invariant MessagesOf(sent, job, blocks, count, Missing(batch, done), Some(attempt))
      invariant forall b: nat :: b < batch && b !in done ==> Lo(b) < |blocks|
      invariant bus.stream == old(bus.stream) + sent
    {
      if batch !in done {
        ghost var m;
        r, m := PublishBatchRedrive(bus, job, blocks, count, batch, attempt);
        if !r.Published? {
          return;
        }
        sent := sent + [m.value];
      }
      reached := batch + 1;
    }
    return Published, sent, reached;
  }
}
