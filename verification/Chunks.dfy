/** Files as chunks: sizes, digests and manifests
    (trenchchat/core/protocol.py, trenchchat/core/files.py). SHA-256 is a
    parameter of everything that hashes. */
module Chunks {
  import opened Prelude

  const FILE_CHUNK_BYTES: int := 32768
  const CHUNK_HASH_BYTES: int := 32

  type Sha = Bytes -> Bytes

  ghost predicate IsSha256(sha: Sha) {
    forall b :: |sha(b)| == CHUNK_HASH_BYTES
  }

  datatype Manifest = Manifest(size: nat, hash: Bytes, root: Bytes)

  /** The chunk count a file of this size is stored and served as. */
  function ChunkCount(size: nat): nat {
    (size + FILE_CHUNK_BYTES - 1) / FILE_CHUNK_BYTES
  }

  /** The length of one chunk, the last one being the short one. */
  function ChunkSizeAt(size: nat, idx: nat): int {
    if idx < ChunkCount(size) - 1 then FILE_CHUNK_BYTES
    else size - (ChunkCount(size) - 1) * FILE_CHUNK_BYTES
  }

  lemma ChunkBounds(size: nat, idx: nat)
    requires idx < ChunkCount(size)
    ensures 0 <= idx * FILE_CHUNK_BYTES < size
    ensures 1 <= ChunkSizeAt(size, idx) <= FILE_CHUNK_BYTES
    ensures idx * FILE_CHUNK_BYTES + ChunkSizeAt(size, idx)
            == if idx == ChunkCount(size) - 1 then size else (idx + 1) * FILE_CHUNK_BYTES
  {
  }

  /** Chunk idx of a file, as slicing cuts it. */
  function Chunk(data: Bytes, idx: nat): (c: Bytes)
    requires idx < ChunkCount(|data|)
    ensures |c| == ChunkSizeAt(|data|, idx)
  {
    ChunkBounds(|data|, idx);
    var start := idx * FILE_CHUNK_BYTES;
    data[start..if start + FILE_CHUNK_BYTES < |data| then start + FILE_CHUNK_BYTES else |data|]
  }

  /** Chunks first..last-1 of a file. */
  function ChunkRange(data: Bytes, first: nat, last: nat): (r: seq<Bytes>)
    requires first <= last <= ChunkCount(|data|)
    ensures |r| == last - first
    ensures forall i | 0 <= i < |r| :: r[i] == Chunk(data, first + i)
  {
    seq(last - first, i requires 0 <= i < last - first => Chunk(data, first + i))
  }

  /** A run of consecutive chunks joins back to the bytes it was cut from. */
  lemma {:induction false} RangeJoins(data: Bytes, first: nat, last: nat)
    requires first < last <= ChunkCount(|data|)
    ensures 0 <= first * FILE_CHUNK_BYTES <= (if last == ChunkCount(|data|) then |data| else last * FILE_CHUNK_BYTES) <= |data|
    ensures Join(ChunkRange(data, first, last))
            == data[first * FILE_CHUNK_BYTES..if last == ChunkCount(|data|) then |data| else last * FILE_CHUNK_BYTES]
    decreases last - first
  {
    ChunkBounds(|data|, first);
    ChunkBounds(|data|, last - 1);
    var r := ChunkRange(data, first, last);
    if first + 1 == last {
      assert r[1..] == [];
      assert Join(r) == r[0];
    } else {
      RangeJoins(data, first + 1, last);
      assert r[1..] == ChunkRange(data, first + 1, last);
    }
  }

  /** Splitting a file into chunks loses nothing. */
  lemma ChunksJoinToFile(data: Bytes)
    ensures Join(ChunkRange(data, 0, ChunkCount(|data|))) == data
  {
    if data != [] {
      RangeJoins(data, 0, ChunkCount(|data|));
    }
  }

  function SumOfSizes(size: nat, count: nat): int {
    if count == 0 then 0 else SumOfSizes(size, count - 1) + ChunkSizeAt(size, count - 1)
  }

  /** Chunk sizes add up to the file size. */
  lemma {:induction false} ChunkSizesAddUp(size: nat, count: nat)
    requires count <= ChunkCount(size)
    ensures SumOfSizes(size, count) == if count == ChunkCount(size) then size else count * FILE_CHUNK_BYTES
  {
    if count > 0 {
      ChunkBounds(size, count - 1);
      ChunkSizesAddUp(size, count - 1);
    }
  }

  /* Digests. */

  function ChunkHashes(sha: Sha, data: Bytes): (r: seq<Bytes>)
    ensures |r| == ChunkCount(|data|)
    ensures forall i | 0 <= i < |r| :: r[i] == sha(Chunk(data, i))
  {
    seq(ChunkCount(|data|), i requires 0 <= i < ChunkCount(|data|) => sha(Chunk(data, i)))
  }

  function ChunkRoot(sha: Sha, hashes: seq<Bytes>): Bytes {
    sha(Join(hashes))
  }

  function ManifestFor(sha: Sha, data: Bytes): Manifest {
    Manifest(|data|, sha(data), ChunkRoot(sha, ChunkHashes(sha, data)))
  }

  /** A received chunk list cut into digests; the last piece may be short. */
  function SplitHashes(data: Bytes): seq<Bytes> {
    if data == [] then []
    else if |data| <= CHUNK_HASH_BYTES then [data]
    else [data[..CHUNK_HASH_BYTES]] + SplitHashes(data[CHUNK_HASH_BYTES..])
  }

  /** Cutting the concatenation of 32-byte digests gives the digests back. */
  lemma {:induction false} SplitJoinedHashes(hashes: seq<Bytes>)
    requires forall i | 0 <= i < |hashes| :: |hashes[i]| == CHUNK_HASH_BYTES
    ensures SplitHashes(Join(hashes)) == hashes
    ensures |Join(hashes)| == |hashes| * CHUNK_HASH_BYTES
  {
    if hashes != [] {
      var joined, rest := Join(hashes), hashes[1..];
      SplitJoinedHashes(rest);
      assert joined[..CHUNK_HASH_BYTES] == hashes[0] && joined[CHUNK_HASH_BYTES..] == Join(rest);
      assert hashes == [hashes[0]] + rest;
      if rest == [] {
        assert Join(rest) == [] && joined == hashes[0];
      }
    }
  }

  /** Cutting loses nothing either: the pieces join back to what was cut. */
  lemma {:induction false} SplitLosesNothing(data: Bytes)
    ensures Join(SplitHashes(data)) == data
    ensures |data| % CHUNK_HASH_BYTES == 0 ==>
              |SplitHashes(data)| == |data| / CHUNK_HASH_BYTES
              && forall h | h in SplitHashes(data) :: |h| == CHUNK_HASH_BYTES
  {
    if data != [] {
      if |data| <= CHUNK_HASH_BYTES {
        assert [data][1..] == [];
      } else {
        var rest := data[CHUNK_HASH_BYTES..];
        SplitLosesNothing(rest);
        assert SplitHashes(data)[1..] == SplitHashes(rest);
      }
    }
  }
}
