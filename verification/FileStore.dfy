/** The shared-file tables as the download engine relies on them
    (trenchchat/core/storage.py): a row per file, and one row per chunk. */
module FileStore {
  import opened Prelude
  import opened Chunks

  type Hash = Bytes

  datatype Row = Row(chunkCount: nat, complete: bool, own: bool)

  datatype Store = Store(rows: map<Hash, Row>, chunks: map<(Hash, nat), Bytes>) {
    predicate Complete(h: Hash) { h in rows && rows[h].complete }

    /** Which chunks of a file are held. */
    function Indices(h: Hash): set<nat> {
      set k | k in chunks && k.0 == h :: k.1
    }

    /** Opening a row keeps what is there; own is only ever raised. */
    function Begin(h: Hash, size: nat, own: bool): Store {
      if h in rows then this.(rows := rows[h := rows[h].(own := rows[h].own || own)])
      else this.(rows := rows[h := Row(ChunkCount(size), false, own)])
    }

    /** A chunk row is inserted or, if one is there already, left as it is. */
    function Put(h: Hash, idx: nat, content: Bytes): Store {
      if (h, idx) in chunks then this else this.(chunks := chunks[(h, idx) := content])
    }

    function MarkComplete(h: Hash): Store {
      if h in rows then this.(rows := rows[h := rows[h].(complete := true)]) else this
    }

    function Delete(h: Hash): Store {
      Store(rows - {h}, map k | k in chunks && k.0 != h :: chunks[k])
    }

    function DeleteAll(hs: set<Hash>): Store {
      Store(rows - hs, map k | k in chunks && k.0 !in hs :: chunks[k])
    }

    /** The stored chunks among first..last-1, in order. */
    function Range(h: Hash, first: nat, last: nat): seq<Bytes>
      decreases last - first
    {
      if first >= last then []
      else (if (h, first) in chunks then [chunks[(h, first)]] else []) + Range(h, first + 1, last)
    }

    /** The bytes of every chunk row of a file, in index order, for a file whose indices lie below count. */
    function Content(h: Hash, count: nat): Bytes {
      Join(Range(h, 0, count))
    }
  }

  predicate HasAll(st: Store, h: Hash, first: nat, last: nat) {
    forall i: nat | first <= i < last :: (h, i) in st.chunks
  }

  lemma {:induction false} RangeOfAll(st: Store, h: Hash, first: nat, last: nat)
    ensures |st.Range(h, first, last)| <= if first <= last then last - first else 0
    ensures first <= last && |st.Range(h, first, last)| == last - first ==> HasAll(st, h, first, last)
    ensures first <= last && HasAll(st, h, first, last) ==>
              |st.Range(h, first, last)| == last - first
              && forall i | 0 <= i < last - first :: st.Range(h, first, last)[i] == st.chunks[(h, first + i)]
    decreases last - first
  {
    if first < last {
      RangeOfAll(st, h, first + 1, last);
    }
  }

  /** Reading a range depends only on the chunk rows in it. */
  lemma {:induction false} RangeSame(a: Store, b: Store, h: Hash, first: nat, last: nat)
    requires forall i: nat | first <= i < last ::
               ((h, i) in a.chunks <==> (h, i) in b.chunks)
               && ((h, i) in a.chunks ==> a.chunks[(h, i)] == b.chunks[(h, i)])
    ensures a.Range(h, first, last) == b.Range(h, first, last)
    decreases last - first
  {
    if first < last {
      RangeSame(a, b, h, first + 1, last);
    }
  }

  /** Rows that are exactly a file's chunks read back as the file. */
  lemma ContentIsFile(st: Store, h: Hash, data: Bytes)
    requires forall i | 0 <= i < ChunkCount(|data|) :: (h, i) in st.chunks && st.chunks[(h, i)] == Chunk(data, i)
    ensures st.Content(h, ChunkCount(|data|)) == data
  {
    var n := ChunkCount(|data|);
    RangeOfAll(st, h, 0, n);
    assert st.Range(h, 0, n) == ChunkRange(data, 0, n);
    ChunksJoinToFile(data);
  }
}
