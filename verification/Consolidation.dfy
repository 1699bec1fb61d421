// services/metadata/internal/content/s3.go and stitcher_worker.go: assembling a
// file's blocks into one object by server-side part copies, and reading it back.
module Consolidation {
  import opened Common
  import opened BlockStream

  // stitcher_worker.go, minStitchPartSize: 5 MiB.
  const MIN_PART_SIZE := 5 * 1024 * 1024

  // Every block but the last meets the part minimum.
  predicate Eligible(blocks: seq<Block>, minPart: int) {
    forall i :: 0 <= i < |blocks| - 1 ==> blocks[i].size >= minPart
  }

  method FirstIneligibleBlock(blocks: seq<Block>, minPart: int) returns (idx: int)
    ensures idx == -1 <==> Eligible(blocks, minPart)
    ensures idx != -1 ==> 0 <= idx < |blocks| - 1 && blocks[idx].size < minPart && Eligible(blocks[..idx + 1], minPart)
  {
    for i := 0 to |blocks|
      invariant forall k :: 0 <= k < i ==> k < |blocks| - 1 && blocks[k].size >= minPart
    {
      if i == |blocks| - 1 {
        return -1;
      }
      if blocks[i].size < minPart {
        return i;
      }
    }
    return -1;
  }

  // blockObjectKey accepts 64 hexadecimal characters.
  predicate IsHex(c: char) {
    '0' <= c <= '9' || 'a' <= c <= 'f' || 'A' <= c <= 'F'
  }

  predicate ValidHash(hash: string) {
    |hash| == 64 && forall i :: 0 <= i < |hash| ==> IsHex(hash[i])
  }

  // 64 characters, each a hexadecimal digit in either case.
  lemma ValidHashExactlyWhen(hash: string)
    ensures ValidHash(hash) <==> |hash| == 64 && forall c :: c in hash ==> c in "0123456789abcdefABCDEF"
  {
    var digits := "0123456789abcdefABCDEF";
    forall c ensures IsHex(c) <==> c in digits {
      if IsHex(c) {
        var k := if c <= '9' then c as int - '0' as int else if c <= 'F' then c as int - 'A' as int + 16 else c as int - 'a' as int + 10;
        assert digits[k] == c;
      }
    }
  }

  function ConsolidatedKey(fileId: string): string {
    "consolidated/" + fileId
  }

  // The store joins the parts of a multipart upload by ascending part number.
  function ByPartNumber(parts: map<int, seq<Byte>>, n: nat): seq<Byte> {
    if n == 0 then []
    else ByPartNumber(parts, n - 1) + (if n in parts then parts[n] else [])
  }

  datatype StitchResult =
    | Done(key: string)
    | NoBlocks
    | NotEligible(idx: int)
    | BadHash(idx: int)
    | StoreFailed
    | Unverified(key: string)  // assembled, but the final HEAD request failed

  // A layout that can be assembled at all.
  predicate Stitchable(blocks: seq<Block>, minPart: int) {
    blocks != [] && Eligible(blocks, minPart) && forall i :: 0 <= i < |blocks| ==> ValidHash(blocks[i].hash)
  }

  // The manifest a list of blocks belongs to.
  function ManifestOf(blocks: seq<Block>): Manifest {
    Manifest(blocks, Prefix(blocks, |blocks|))
  }

  predicate Present(blocks: seq<Block>, store: BlockStore) {
    forall i :: 0 <= i < |blocks| ==> blocks[i].hash in store
  }

  // What the store holds for the first n blocks, whatever sizes are recorded.
  function Contents(blocks: seq<Block>, store: BlockStore, n: nat): seq<Byte>
    requires n <= |blocks| && Present(blocks, store)
  {
    if n == 0 then [] else Contents(blocks, store, n - 1) + store[blocks[n - 1].hash]
  }

  lemma {:induction false} ContentsAreTheFile(blocks: seq<Block>, store: BlockStore, n: nat)
    requires n <= |blocks| && Stored(ManifestOf(blocks), store)
    ensures Present(blocks, store) && Contents(blocks, store, n) == Bytes(ManifestOf(blocks), store, n)
  {
    if n > 0 {
      ContentsAreTheFile(blocks, store, n - 1);
    }
  }

  lemma {:induction false} PartsAreTheBlocks(blocks: seq<Block>, store: BlockStore, parts: map<int, seq<Byte>>, n: nat)
    requires n <= |blocks| && Present(blocks, store)
    requires forall k :: 1 <= k <= n ==> k in parts && parts[k] == store[blocks[k - 1].hash]
    ensures ByPartNumber(parts, n) == Contents(blocks, store, n)
  {
    if n > 0 {
      PartsAreTheBlocks(blocks, store, parts, n - 1);
    }
  }

  class Stitcher {
    const blockTree: BlockStore
    var objects: map<string, seq<Byte>>  // the consolidated/ tree

    constructor (blocks: BlockStore)
      ensures blockTree == blocks && objects == map[]
    {
      blockTree := blocks;
      objects := map[];
    }

    // Stitch. The store answers the first `answered` of the calls this makes
    // (create, one copy a block, complete, head) and fails the next one; copying a
    // block it does not hold fails too.
    method Stitch(fileId: string, blocks: seq<Block>, minPart: int, answered: nat) returns (r: StitchResult)
      modifies this`objects
      // Refused before anything is created: exactly the empty and the ineligible layouts.
      ensures r.NoBlocks? <==> blocks == []
      ensures r.NotEligible? <==> blocks != [] && !Eligible(blocks, minPart)
      ensures r.NotEligible? ==>
        0 <= r.idx < |blocks| - 1 && blocks[r.idx].size < minPart && Eligible(blocks[..r.idx + 1], minPart)
      ensures r.BadHash? ==>
        && 0 <= r.idx < |blocks| && !ValidHash(blocks[r.idx].hash) && answered >= r.idx + 1
        && forall k :: 0 <= k < r.idx ==> ValidHash(blocks[k].hash) && blocks[k].hash in blockTree
      ensures r.StoreFailed? ==>
        answered < |blocks| + 2 || exists k :: 0 <= k < |blocks| && ValidHash(blocks[k].hash) && blocks[k].hash !in blockTree
      ensures r.Unverified? <==> Stitchable(blocks, minPart) && Present(blocks, blockTree) && answered == |blocks| + 2
      // Assembled means assembled byte for byte; anything else leaves no object behind.
      ensures r.Done? || r.Unverified? ==>
        && r.key == ConsolidatedKey(fileId) && Present(blocks, blockTree)
        && objects == old(objects)[r.key := Contents(blocks, blockTree, |blocks|)]
        && (Stored(ManifestOf(blocks), blockTree) ==> objects[r.key] == File(ManifestOf(blocks), blockTree))
      ensures !r.Done? && !r.Unverified? ==> objects == old(objects)
      // Nothing but a missing block stands in the way of an accepted layout.
      ensures r.Done? <==> Stitchable(blocks, minPart) && Present(blocks, blockTree) && answered >= |blocks| + 3
    {
      if blocks == [] {
        return NoBlocks;
      }
      var idx := FirstIneligibleBlock(blocks, minPart);
      if idx >= 0 {
        return NotEligible(idx);
      }
      var key := ConsolidatedKey(fileId);
      if answered < 1 {
        return StoreFailed;
      }
      var parts: map<int, seq<Byte>> := map[];
      var partNumber := 1;
      for i := 0 to |blocks|
        invariant partNumber == i + 1 && answered >= i + 1
        invariant forall k :: 0 <= k < i ==> ValidHash(blocks[k].hash) && blocks[k].hash in blockTree
        invariant forall k :: 1 <= k <= i ==> k in parts && parts[k] == blockTree[blocks[k - 1].hash]
        invariant objects == old(objects)
      {
        if !ValidHash(blocks[i].hash) {
          return BadHash(i);
        }
        if answered < i + 2 || blocks[i].hash !in blockTree {
          return StoreFailed;
        }
        parts := parts[partNumber := blockTree[blocks[i].hash]];
        partNumber := partNumber + 1;
      }
      if answered < |blocks| + 2 {
        return StoreFailed;
      }
      objects := objects[key := ByPartNumber(parts, partNumber - 1)];
      PartsAreTheBlocks(blocks, blockTree, parts, |blocks|);
      if Stored(ManifestOf(blocks), blockTree) {
        ContentsAreTheFile(blocks, blockTree, |blocks|);
      }
      if answered < |blocks| + 3 {
        return Unverified(key);
      }
      return Done(key);
    }
  }

  // ReadObjectRange: the ranged read of one whole object.
  function ReadObjectRange(content: seq<Byte>, offset: int, length: int): Option<seq<Byte>> {
    if 0 <= offset && 0 < length && offset + length <= |content|
    then Some(content[offset..offset + length])
    else None
  }

  // For any non-empty range the consolidated object answers with the very bytes
  // the block path joins from its segments.
  lemma TiersAgree(m: Manifest, store: BlockStore, s: Span, start: int, end: int)
    requires WellFormed(m) && Stored(m, store) && Covers(m, s, start, end)
    ensures s.firstIdx <= s.lastIdx + 1 <= |m.blocks|
    ensures ReadObjectRange(File(m, store), start, end - start + 1) == Some(Joined(m, store, s, s.lastIdx + 1))
  {
    SegmentsJoinToRange(m, store, s, start, end);
  }
}
