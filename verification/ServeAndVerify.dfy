/** Serving a file and verifying what was served undo each other
    (trenchchat/core/files.py). */
module ServeAndVerify {
  import opened Prelude
  import opened Chunks
  import opened FileStore
  import opened Download
  import opened Engine
  import EngineProgress
  import opened EngineSafety

  function Digests(sha: Sha, chunks: seq<Bytes>): (r: seq<Bytes>)
    ensures |r| == |chunks| && forall i | 0 <= i < |r| :: r[i] == sha(chunks[i])
  {
    seq(|chunks|, i requires 0 <= i < |chunks| => sha(chunks[i]))
  }

  /** The answer to a request for the chunk list of a file held here, if all of it is. */
  function ServedChunkList(sha: Sha, st: Store, h: Hash, count: nat): Option<Bytes> {
    var chunks := st.Range(h, 0, count);
    if |chunks| != count then None else Some(Join(Digests(sha, chunks)))
  }

  /** The answer to a request for chunks from first on; a request past the end gets none. */
  function ServedChunks(st: Store, h: Hash, count: nat, first: nat, wanted: nat): Option<Bytes> {
    if first >= count then None
    else
      var chunks := st.Range(h, first, if wanted < count - first then first + wanted else count);
      if chunks == [] then None else Some(Join(chunks))
  }

  /** What a holder can be asked for. */
  datatype Question = TheList | TheChunks(first: nat, wanted: nat)

  /** What a node answers: nothing unless its own row calls the file complete,
      and then by the count in that row, whatever the asker takes the count to be. */
  function Served(sha: Sha, st: Store, h: Hash, q: Question): Option<Bytes> {
    if !st.Complete(h) then None
    else
      match q
      case TheList => ServedChunkList(sha, st, h, st.rows[h].chunkCount)
      case TheChunks(first, wanted) => ServedChunks(st, h, st.rows[h].chunkCount, first, wanted)
  }

  /** The first chunks stored are those of the file, whatever lies past them. */
  predicate HoldsFirst(st: Store, h: Hash, data: Bytes) {
    forall i: nat | i < ChunkCount(|data|) :: (h, i) in st.chunks && st.chunks[(h, i)] == Chunk(data, i)
  }

  lemma HeldRange(st: Store, h: Hash, data: Bytes, first: nat, last: nat)
    requires HoldsFirst(st, h, data) && first <= last <= ChunkCount(|data|)
    ensures st.Range(h, first, last) == ChunkRange(data, first, last)
  {
    RangeOfAll(st, h, first, last);
  }

  lemma {:induction false} RangeOfNone(st: Store, h: Hash, first: nat, last: nat)
    requires forall i: nat | first <= i < last :: (h, i) !in st.chunks
    ensures st.Range(h, first, last) == []
    decreases last - first
  {
    if first < last {
      RangeOfNone(st, h, first + 1, last);
    }
  }

  /** Reading past the end of a file reads up to its end, if no chunk row lies past it. */
  lemma HeldRangePast(st: Store, h: Hash, data: Bytes, first: nat, last: nat)
    requires HoldsFirst(st, h, data) && first <= ChunkCount(|data|) <= last && NothingPast(st, h, ChunkCount(|data|))
    ensures st.Range(h, first, last) == ChunkRange(data, first, ChunkCount(|data|))
  {
    var n := ChunkCount(|data|);
    forall i: nat | n <= i < last ensures (h, i) !in st.chunks {
      assert (h, i) in st.chunks ==> i in st.Indices(h);
    }
    RangeSplits(st, h, first, n, last);
    HeldRange(st, h, data, first, n);
    RangeOfNone(st, h, n, last);
  }

  lemma DigestsJoined(sha: Sha, chunks: seq<Bytes>)
    requires IsSha256(sha)
    ensures |Join(Digests(sha, chunks))| == |chunks| * CHUNK_HASH_BYTES
    ensures SplitHashes(Join(Digests(sha, chunks))) == Digests(sha, chunks)
  {
    SplitJoinedHashes(Digests(sha, chunks));
  }

  /** The list a holder of the file serves passes the check against the signed
      root exactly if the holder's row has the file's count. With that count it
      is taken, and is the list of the file's digests; with a smaller one it is
      served and makes the holder suspect; with a greater one it is refused. */
  lemma ServedListPassesIffCountFits(sha: Sha, server: Store, data: Bytes, dl: Dl, st: Store)
    requires IsSha256(sha) && HoldsFirst(server, sha(data), data) && server.Complete(sha(data)) && dl.manifest == ManifestFor(sha, data)
    ensures var r, n := Served(sha, server, sha(data), TheList), server.rows[sha(data)].chunkCount;
            && (r.Some? && ListMatches(sha, dl, r.value) <==> n == ChunkCount(|data|))
            && (n == ChunkCount(|data|) ==>
                  OnChunkList(sha, dl, st, r.value) == Turn(RoundReset(dl.(chunkList := Some(ChunkHashes(sha, data)))), st, true, Kept))
            && (n < ChunkCount(|data|) ==> r.Some? && OnChunkList(sha, dl, st, r.value).dl.suspect == With(dl.suspect, dl.holder))
            && (n > ChunkCount(|data|) && NothingPast(server, sha(data), ChunkCount(|data|)) ==> r.None?)
  {
    var h, n, m := sha(data), server.rows[sha(data)].chunkCount, ChunkCount(|data|);
    var chunks := server.Range(h, 0, n);
    DigestsJoined(sha, chunks);
    if n <= m {
      HeldRange(server, h, data, 0, n);
      if n == m {
        assert Digests(sha, chunks) == ChunkHashes(sha, data);
      }
    } else if NothingPast(server, h, m) {
      HeldRangePast(server, h, data, 0, n);
    }
  }

  /** The chunks first..last-1 of a file entered in the tables, unless they are there already. */
  function PutRange(st: Store, h: Hash, data: Bytes, first: nat, last: nat): Store
    requires first <= last <= ChunkCount(|data|)
    decreases last - first
  {
    if first == last then st else PutRange(st.Put(h, first, Chunk(data, first)), h, data, first + 1, last)
  }

  lemma FirstChunkOfReply(data: Bytes, reply: Bytes, offset: nat, idx: nat, last: nat)
    requires idx < last <= ChunkCount(|data|) && offset <= |reply| && reply[offset..] == Join(ChunkRange(data, idx, last))
    ensures var length := ChunkSizeAt(|data|, idx);
            && offset + length <= |reply| && reply[offset..offset + length] == Chunk(data, idx)
            && reply[offset + length..] == Join(ChunkRange(data, idx + 1, last))
  {
    ChunkBounds(|data|, idx);
    var range, chunk := ChunkRange(data, idx, last), Chunk(data, idx);
    assert range[0] == chunk && range[1..] == ChunkRange(data, idx + 1, last);
    assert reply[offset..] == chunk + Join(range[1..]);
  }

  /** What is held grows by exactly the indices first..last-1. */
  ghost predicate Adds(held: set<nat>, now: set<nat>, first: nat, last: nat) {
    forall i :: i in now <==> i in held || first <= i < last
  }

  lemma AddsOneMore(held: set<nat>, now: set<nat>, first: nat, last: nat)
    requires first < last && Adds(held + {first}, now, first + 1, last)
    ensures Adds(held, now, first, last)
  {
  }

  /** Whatever is joined from consecutive chunks is cut back into exactly those chunks, with nothing left over. */
  lemma {:induction false} ReplyIsCutBack(sha: Sha, m: Manifest, data: Bytes, held: set<nat>, st: Store,
                                          reply: Bytes, offset: nat, idx: nat, last: nat, stored: nat)
    requires m == ManifestFor(sha, data) && idx <= last <= ChunkCount(|data|)
    requires offset <= |reply| && reply[offset..] == Join(ChunkRange(data, idx, last))
    ensures var t := TakeIn(sha, m, ChunkHashes(sha, data), {}, held, st, reply, offset, idx, stored);
            && t.stop == Consumed && t.used == |reply| && t.stored == stored + (last - idx)
            && t.store == PutRange(st, m.hash, data, idx, last)
            && Adds(held, t.held, idx, last)
    decreases last - idx
  {
    hide TakeIn, ChunkSizeAt, Join, ChunkRange, Chunk, Store.Put, Adds;
    if idx == last {
      NothingLeft(sha, m, data, held, st, reply, offset, idx, stored);
    } else {
      var next := offset + ChunkSizeAt(|data|, idx);
      OneChunkTaken(sha, m, data, held, st, reply, offset, idx, last, stored);
      ReplyIsCutBack(sha, m, data, held + {idx}, st.Put(m.hash, idx, Chunk(data, idx)), reply, next, idx + 1, last, stored + 1);
      AddsOneMore(held, TakeIn(sha, m, ChunkHashes(sha, data), {}, held, st, reply, offset, idx, stored).held, idx, last);
    }
  }

  lemma NothingLeft(sha: Sha, m: Manifest, data: Bytes, held: set<nat>, st: Store, reply: Bytes, offset: nat, idx: nat, stored: nat)
    requires m == ManifestFor(sha, data) && idx <= ChunkCount(|data|)
    requires offset <= |reply| && reply[offset..] == Join(ChunkRange(data, idx, idx))
    ensures TakeIn(sha, m, ChunkHashes(sha, data), {}, held, st, reply, offset, idx, stored) == Intake(held, st, stored, |reply|, Consumed)
    ensures Adds(held, held, idx, idx)
  {
    assert ChunkRange(data, idx, idx) == [];
  }

  lemma OneChunkTaken(sha: Sha, m: Manifest, data: Bytes, held: set<nat>, st: Store,
                      reply: Bytes, offset: nat, idx: nat, last: nat, stored: nat)
    requires m == ManifestFor(sha, data) && idx < last <= ChunkCount(|data|)
    requires offset <= |reply| && reply[offset..] == Join(ChunkRange(data, idx, last))
    ensures var list, next := ChunkHashes(sha, data), offset + ChunkSizeAt(|data|, idx);
            && next <= |reply| && reply[next..] == Join(ChunkRange(data, idx + 1, last))
            && TakeIn(sha, m, list, {}, held, st, reply, offset, idx, stored)
               == TakeIn(sha, m, list, {}, held + {idx}, st.Put(m.hash, idx, Chunk(data, idx)), reply, next, idx + 1, stored + 1)
  {
    ChunkBounds(|data|, idx);
    FirstChunkOfReply(data, reply, offset, idx, last);
    hide ChunkRange, Join, Chunk, ChunkSizeAt;
  }

  /** How far a range request is answered: as asked, to the count in the holder's row, to the end of the file. */
  function Reach(first: nat, wanted: nat, rowCount: nat, count: nat): nat {
    var asked := if wanted < rowCount - first then first + wanted else rowCount;
    if asked < count then asked else count
  }

  lemma ServedRange(sha: Sha, server: Store, data: Bytes, first: nat, wanted: nat)
    requires HoldsFirst(server, sha(data), data) && server.Complete(sha(data)) && first < ChunkCount(|data|) && wanted >= 1
    requires first + wanted <= ChunkCount(|data|) || NothingPast(server, sha(data), ChunkCount(|data|))
    ensures var r, n := Served(sha, server, sha(data), TheChunks(first, wanted)), server.rows[sha(data)].chunkCount;
            && (r.None? <==> first >= n)
            && (first < n ==>
                  var last := Reach(first, wanted, n, ChunkCount(|data|));
                  first < last <= ChunkCount(|data|) && r == Some(Join(ChunkRange(data, first, last))))
  {
    var h, n, m := sha(data), server.rows[sha(data)].chunkCount, ChunkCount(|data|);
    if first < n {
      var asked := if wanted < n - first then first + wanted else n;
      if asked <= m {
        HeldRange(server, h, data, first, asked);
      } else {
        HeldRangePast(server, h, data, first, asked);
      }
    }
  }

  /** A range request is refused exactly if it starts at or past the count in
      the holder's row. Every other is taken whole: exactly the chunks asked for
      as far as that count and the file go, and no reason to suspect the holder. */
  lemma ServedRangeIsTaken(sha: Sha, server: Store, data: Bytes, held: set<nat>, st: Store, first: nat, wanted: nat)
    requires HoldsFirst(server, sha(data), data) && server.Complete(sha(data)) && first < ChunkCount(|data|) && wanted >= 1
    requires first + wanted <= ChunkCount(|data|) || NothingPast(server, sha(data), ChunkCount(|data|))
    ensures var r, n := Served(sha, server, sha(data), TheChunks(first, wanted)), server.rows[sha(data)].chunkCount;
            && (r.None? <==> first >= n)
            && (first < n ==>
                  var last := Reach(first, wanted, n, ChunkCount(|data|));
                  var t := TakeIn(sha, ManifestFor(sha, data), ChunkHashes(sha, data), {}, held, st, r.value, 0, first, 0);
                  && first < last
                  && t.stop == Consumed && t.used == |r.value| && t.stored == last - first
                  && t.store == PutRange(st, sha(data), data, first, last)
                  && Adds(held, t.held, first, last))
  {
    hide Served, HoldsFirst, TakeIn, Join, Reach, PutRange, ChunkHashes;
    ServedRange(sha, server, data, first, wanted);
    var n := server.rows[sha(data)].chunkCount;
    if first < n {
      var last := Reach(first, wanted, n, ChunkCount(|data|));
      var reply := Join(ChunkRange(data, first, last));
      assert reply[0..] == reply;
      ReplyIsCutBack(sha, ManifestFor(sha, data), data, held, st, reply, 0, first, last, 0);
    }
  }

  /* A whole download from an honest holder. */

  /** The held chunks, and no others, are stored, and they are the file's own. */
  predicate Verbatim(sha: Sha, data: Bytes, dl: Dl, st: Store) {
    && dl.manifest == ManifestFor(sha, data) && dl.Hash() in st.rows
    && (forall k | k in st.chunks && k.0 == dl.Hash() :: k.1 in dl.held)
    && (forall i | i in dl.held :: i < dl.Count() && (dl.Hash(), i) in st.chunks
                                   && st.chunks[(dl.Hash(), i)] == Chunk(data, i))
  }

  /** The download of a shared file by someone who holds some of its chunks and was told no lies. */
  predicate OnTrack(sha: Sha, data: Bytes, dl: Dl, st: Store) {
    && Verbatim(sha, data, dl, st) && dl.phase == Fetching
    && (dl.chunkList.Some? ==> dl.chunkList.value == ChunkHashes(sha, data))
    && dl.NextIndex().Some?
    && dl.holder.Some? && dl.holder.value !in dl.suspect && dl.window >= 1
  }

  /** What a download asks its holder for next. */
  function Asks(dl: Dl): Option<Question> {
    if dl.chunkList.None? then Some(TheList)
    else if dl.NextIndex().None? then None
    else Some(TheChunks(dl.NextIndex().value, RunLength(dl, dl.NextIndex().value, 1)))
  }

  /** One request to the holder and its answer, by the holder's own tables. */
  function Exchange(sha: Sha, around: Around, server: Store, dl: Dl, st: Store): Turn
    requires ListFits(dl)
  {
    var d := dl.(wantsList := dl.chunkList.None?);
    var reply := if Asks(dl).None? then None else Served(sha, server, dl.Hash(), Asks(dl).value);
    OnAnswer(sha, around, {}, d, st, if reply.Some? then Reply(reply.value) else Failure(true))
  }

  function Exchanges(sha: Sha, around: Around, server: Store, dl: Dl, st: Store, rounds: nat): (Dl, Store)
    decreases rounds
  {
    if rounds == 0 || dl.phase != Fetching || !ListFits(dl) then (dl, st)
    else
      var t := Exchange(sha, around, server, dl, st);
      Exchanges(sha, around, server, t.dl, t.store, rounds - 1)
  }

  lemma {:induction false} PutRangeAdds(st: Store, h: Hash, data: Bytes, first: nat, last: nat)
    requires first <= last <= ChunkCount(|data|)
    ensures var t := PutRange(st, h, data, first, last);
            && t.rows == st.rows
            && (forall k | k in st.chunks :: k in t.chunks && t.chunks[k] == st.chunks[k])
            && (forall k | k in t.chunks && k !in st.chunks ::
                  k.0 == h && first <= k.1 < last && t.chunks[k] == Chunk(data, k.1))
            && HasAll(t, h, first, last)
    decreases last - first
  {
    hide Chunk;
    if first < last {
      var next := st.Put(h, first, Chunk(data, first));
      assert (h, first) in next.chunks && next.rows == st.rows;
      assert forall k | k in st.chunks :: k in next.chunks && next.chunks[k] == st.chunks[k];
      assert forall k | k in next.chunks && k !in st.chunks :: k == (h, first) && next.chunks[k] == Chunk(data, first);
      hide Store.Put;
      PutRangeAdds(next, h, data, first + 1, last);
    }
  }

  lemma FullyHeld(sha: Sha, data: Bytes, dl: Dl, st: Store)
    requires Verbatim(sha, data, dl, st) && |dl.held| >= dl.Count()
    ensures |st.Range(dl.Hash(), 0, dl.Count())| == dl.Count()
    ensures st.Content(dl.Hash(), dl.Count()) == data
  {
    var n := dl.Count();
    EngineProgress.LeftIsBounded(dl);
    EngineProgress.BelowHasSize(dl.held, n);
    forall i: nat | i < n ensures i in dl.held {
      if i !in dl.held {
        EngineProgress.BelowHasSize(dl.held + {i}, n);
      }
    }
    RangeOfAll(st, dl.Hash(), 0, n);
    ContentIsFile(st, dl.Hash(), data);
  }

  /** The file is held, whole, complete, and byte for byte what was shared; and the holder is not blamed for anything. */
  predicate Delivered(sha: Sha, data: Bytes, dl: Dl, st: Store) {
    dl.phase == Done && st.Complete(sha(data)) && st.Content(sha(data), ChunkCount(|data|)) == data
  }

  lemma TakenIsVerbatim(sha: Sha, data: Bytes, dl: Dl, d: Dl, st: Store, first: nat, last: nat)
    requires Verbatim(sha, data, dl, st) && first <= last <= dl.Count()
    requires d.manifest == dl.manifest && forall i :: i in d.held <==> i in dl.held || first <= i < last
    ensures Verbatim(sha, data, d, PutRange(st, dl.Hash(), data, first, last))
  {
    PutRangeAdds(st, dl.Hash(), data, first, last);
  }

  /** A range that was taken whole either finishes the file or leaves the download on track. */
  lemma TakenRangeFollows(sha: Sha, around: Around, data: Bytes, dl: Dl, intake: Intake)
    requires Verbatim(sha, data, dl.(held := intake.held), intake.store) && dl.phase == Fetching
    requires dl.chunkList == Some(ChunkHashes(sha, data)) && dl.holder.Some? && dl.holder.value !in dl.suspect && dl.window >= 1
    requires intake.stop == Consumed && intake.stored > 0
    ensures var t := AfterIntake(sha, around, dl, intake);
            && t.dl.suspect == dl.suspect
            && (Delivered(sha, data, t.dl, t.store) ==> |intake.held| >= dl.Count())
            && (Delivered(sha, data, t.dl, t.store)
                || (OnTrack(sha, data, t.dl, t.store) && t.dl.chunkList.Some? && t.dl.held == intake.held))
  {
    var next := Credited(dl.(held := intake.held), false);
    assert Verbatim(sha, data, next, intake.store);
    hide Verbatim;
    if |next.held| >= next.Count() {
      FullyHeld(sha, data, next, intake.store);
      RangeSame(intake.store, intake.store.MarkComplete(next.Hash()), next.Hash(), 0, next.Count());
      VerbatimHasRow(sha, data, next, intake.store);
    } else if next.NextIndex().None? {
      AllHeldIsMany(next.held, next.Count());
    }
  }

  lemma VerbatimHasRow(sha: Sha, data: Bytes, dl: Dl, st: Store)
    requires Verbatim(sha, data, dl, st)
    ensures dl.Hash() == sha(data) && dl.Count() == ChunkCount(|data|) && dl.Hash() in st.rows
  {
  }

  /** The answer to the next range, cut back. */
  lemma RangeReply(sha: Sha, around: Around, server: Store, data: Bytes, dl: Dl, st: Store) returns (intake: Intake)
    requires HoldsFirst(server, sha(data), data) && server.Complete(sha(data))
    requires OnTrack(sha, data, dl, st) && dl.chunkList.Some? && dl.NextIndex().value < server.rows[sha(data)].chunkCount
    ensures Exchange(sha, around, server, dl, st) == AfterIntake(sha, around, dl.(wantsList := false, fetch := None), intake)
    ensures intake.stop == Consumed && intake.stored > 0
    ensures Verbatim(sha, data, dl.(wantsList := false, fetch := None, held := intake.held), intake.store)
    ensures dl.held <= intake.held && dl.NextIndex().value in intake.held
    ensures forall i | i in intake.held :: i in dl.held || i < server.rows[sha(data)].chunkCount
  {
    hide AfterIntake, TakeIn, RunLength, Served, HoldsFirst, PutRange;
    var n, first := dl.Count(), dl.NextIndex().value;
    var wanted, rowCount := RunLength(dl, first, 1), server.rows[sha(data)].chunkCount;
    var last := Reach(first, wanted, rowCount, n);
    var d := dl.(wantsList := false, fetch := None);
    ServedRangeIsTaken(sha, server, data, dl.held, st, first, wanted);
    var reply := Served(sha, server, sha(data), TheChunks(first, wanted)).value;
    intake := TakeIn(sha, d.manifest, d.chunkList.value, {}, d.held, st, reply, 0, first, 0);
    TakenIsVerbatim(sha, data, dl, d.(held := intake.held), st, first, last);
  }

  /** One exchange for chunks, with a holder whose row reaches the first one missing:
      what its row reaches is fetched, and no more. */
  lemma RangeExchange(sha: Sha, around: Around, server: Store, data: Bytes, dl: Dl, st: Store)
    requires HoldsFirst(server, sha(data), data) && server.Complete(sha(data))
    requires OnTrack(sha, data, dl, st) && dl.chunkList.Some? && dl.NextIndex().value < server.rows[sha(data)].chunkCount
    ensures var t, n := Exchange(sha, around, server, dl, st), server.rows[sha(data)].chunkCount;
            && t.dl.suspect == dl.suspect
            && (Delivered(sha, data, t.dl, t.store) ==> forall i | i in dl.Missing() :: i < n)
            && (Delivered(sha, data, t.dl, t.store)
                || (OnTrack(sha, data, t.dl, t.store) && t.dl.chunkList.Some? && t.dl.Missing() < dl.Missing()
                    && forall i | i in dl.Missing() && i >= n :: i in t.dl.Missing()))
  {
    hide AfterIntake, Exchange, Verbatim, HoldsFirst, Dl.NextIndex;
    var d := dl.(wantsList := false, fetch := None);
    var first := dl.NextIndex().value;
    NextIsMissing(dl);
    var intake := RangeReply(sha, around, server, data, dl, st);
    HeldBelow(sha, data, d.(held := intake.held), intake.store);
    IntakeKeeps(sha, around, d, intake);
    TakenRangeFollows(sha, around, data, d, intake);
    var t := AfterIntake(sha, around, d, intake);
    if !Delivered(sha, data, t.dl, t.store) {
      MissingShrinks(dl, t.dl, first);
    } else {
      forall i | i in dl.Missing() ensures i < server.rows[sha(data)].chunkCount {
        assert i !in d.(held := intake.held).Missing();
      }
    }
  }

  lemma MissingShrinks(dl: Dl, d: Dl, i: nat)
    requires d.manifest == dl.manifest && dl.held <= d.held && i in dl.Missing() && i in d.held
    ensures d.Missing() < dl.Missing()
  {
    assert i !in d.Missing();
  }

  lemma NextIsMissing(dl: Dl)
    requires dl.NextIndex().Some?
    ensures dl.NextIndex().value in dl.Missing()
  {
  }

  /** What is held of a file lies in it, so holding as many as its count is holding all. */
  lemma HeldBelow(sha: Sha, data: Bytes, dl: Dl, st: Store)
    requires Verbatim(sha, data, dl, st)
    ensures |dl.held| >= dl.Count() ==> dl.Missing() == {}
  {
    var n := dl.Count();
    forall i: nat | i < n && |dl.held| >= n ensures i in dl.held {
      if i !in dl.held {
        EngineProgress.BelowHasSize(dl.held + {i}, n);
      }
    }
  }

  lemma {:induction false} HonestHolderSends(sha: Sha, around: Around, server: Store, data: Bytes, dl: Dl, st: Store, rounds: nat)
    requires HoldsFirst(server, sha(data), data) && server.Complete(sha(data)) && OnTrack(sha, data, dl, st) && dl.chunkList.Some?
    requires forall i | i in dl.Missing() :: i < server.rows[sha(data)].chunkCount
    requires rounds >= |dl.Missing()|
    ensures Finishes(sha, data, Exchanges(sha, around, server, dl, st, rounds), dl)
    decreases rounds
  {
    hide Exchange, Exchanges, HoldsFirst, OnTrack, ListFits, Dl.Missing, Store.Complete;
    StillToFetch(sha, data, dl, st);
    var t := Exchange(sha, around, server, dl, st);
    ExchangesGoOn(sha, around, server, dl, st, rounds);
    RangeExchange(sha, around, server, data, dl, st);
    if Delivered(sha, data, t.dl, t.store) {
      ExchangesStop(sha, around, server, t.dl, t.store, rounds - 1);
    } else {
      CardinalityOfSubset(t.dl.Missing(), dl.Missing());
      HonestHolderSends(sha, around, server, data, t.dl, t.store, rounds - 1);
    }
  }

  /** The file is there, and nobody new is suspect. */
  predicate Finishes(sha: Sha, data: Bytes, end: (Dl, Store), dl: Dl) {
    Delivered(sha, data, end.0, end.1) && end.0.suspect == dl.suspect
  }

  /** The holder's row calls the file complete, has its count if the list is
      still to be asked for, and reaches every chunk missing. */
  predicate RowServes(server: Store, dl: Dl) {
    && server.Complete(dl.Hash())
    && (dl.chunkList.None? ==> server.rows[dl.Hash()].chunkCount == dl.Count())
    && forall i | i in dl.Missing() :: i < server.rows[dl.Hash()].chunkCount
  }

  /** From wherever it stands, a download whose one holder has the file and
      answers by its own tables is finished, after at most one answer for the
      list and one for each chunk missing, with exactly the shared bytes and the
      holder never suspected, if and only if the holder's row serves it. */
  lemma HonestHolderDelivers(sha: Sha, around: Around, server: Store, data: Bytes, dl: Dl, st: Store, rounds: nat)
    requires IsSha256(sha) && HoldsFirst(server, sha(data), data) && OnTrack(sha, data, dl, st)
    requires rounds >= |dl.Missing()| + if dl.chunkList.None? then 1 else 0
    ensures Finishes(sha, data, Exchanges(sha, around, server, dl, st, rounds), dl) <==> RowServes(server, dl)
  {
    hide Exchange, Exchanges, HoldsFirst, OnTrack, ListFits, IsSha256, Dl.Missing, Store.Complete;
    TrackedIs(sha, data, dl, st);
    if !RowServes(server, dl) {
      UnservedStays(sha, around, server, data, dl, st, rounds);
    } else if dl.chunkList.None? {
      StillToFetch(sha, data, dl, st);
      var t := Exchange(sha, around, server, dl, st);
      ExchangesGoOn(sha, around, server, dl, st, rounds);
      ListExchange(sha, around, server, data, dl, st);
      HonestHolderSends(sha, around, server, data, t.dl, t.store, rounds - 1);
    } else {
      HonestHolderSends(sha, around, server, data, dl, st, rounds);
    }
  }

  lemma TrackedIs(sha: Sha, data: Bytes, dl: Dl, st: Store)
    requires OnTrack(sha, data, dl, st)
    ensures dl.Hash() == sha(data) && dl.Count() == ChunkCount(|data|) && dl.manifest == ManifestFor(sha, data) && dl.phase == Fetching
  {
  }

  /** A download that this holder can never finish: it has no list and will get
      none that passes, or it is on track but a chunk it misses is never served. */
  predicate Unserved(sha: Sha, server: Store, data: Bytes, dl: Dl, st: Store) {
    && dl.manifest == ManifestFor(sha, data) && dl.phase == Fetching && !RowServes(server, dl)
    && (dl.chunkList.Some? ==> OnTrack(sha, data, dl, st))
  }

  lemma UnservedExchange(sha: Sha, around: Around, server: Store, data: Bytes, dl: Dl, st: Store)
    requires IsSha256(sha) && HoldsFirst(server, sha(data), data) && Unserved(sha, server, data, dl, st)
    ensures ListFits(dl)
    ensures var t := Exchange(sha, around, server, dl, st); Unserved(sha, server, data, t.dl, t.store)
  {
    var h := sha(data);
    if dl.chunkList.Some? && server.Complete(h) && dl.NextIndex().value < server.rows[h].chunkCount {
      hide Exchange;
      RangeExchange(sha, around, server, data, dl, st);
    } else {
      if dl.chunkList.None? && server.Complete(h) {
        ServedListPassesIffCountFits(sha, server, data, dl.(wantsList := true, fetch := None), st);
      }
      var t := Exchange(sha, around, server, dl, st);
      assert t.dl.Missing() == dl.Missing() && t.dl.chunkList == dl.chunkList && t.dl.NextIndex() == dl.NextIndex();
    }
  }

  lemma {:induction false} UnservedStays(sha: Sha, around: Around, server: Store, data: Bytes, dl: Dl, st: Store, rounds: nat)
    requires IsSha256(sha) && HoldsFirst(server, sha(data), data) && Unserved(sha, server, data, dl, st)
    ensures Exchanges(sha, around, server, dl, st, rounds).0.phase == Fetching
    decreases rounds
  {
    hide Exchange, HoldsFirst, OnTrack, RowServes, IsSha256, ManifestFor;
    if rounds > 0 {
      UnservedExchange(sha, around, server, data, dl, st);
      var t := Exchange(sha, around, server, dl, st);
      UnservedStays(sha, around, server, data, t.dl, t.store, rounds - 1);
    }
  }

  lemma StillToFetch(sha: Sha, data: Bytes, dl: Dl, st: Store)
    requires OnTrack(sha, data, dl, st)
    ensures |dl.Missing()| >= 1 && dl.phase == Fetching && ListFits(dl)
    ensures dl.NextIndex().Some? && dl.NextIndex().value in dl.Missing()
  {
    assert dl.NextIndex().value in dl.Missing();
  }

  lemma ExchangesGoOn(sha: Sha, around: Around, server: Store, dl: Dl, st: Store, rounds: nat)
    requires rounds > 0 && dl.phase == Fetching && ListFits(dl)
    ensures var t := Exchange(sha, around, server, dl, st);
            Exchanges(sha, around, server, dl, st, rounds) == Exchanges(sha, around, server, t.dl, t.store, rounds - 1)
  {
    hide Exchange;
  }

  lemma ExchangesStop(sha: Sha, around: Around, server: Store, dl: Dl, st: Store, rounds: nat)
    requires dl.phase != Fetching
    ensures Exchanges(sha, around, server, dl, st, rounds) == (dl, st)
  {
  }

  lemma ListExchange(sha: Sha, around: Around, server: Store, data: Bytes, dl: Dl, st: Store)
    requires IsSha256(sha) && HoldsFirst(server, sha(data), data) && server.Complete(sha(data))
    requires OnTrack(sha, data, dl, st) && dl.chunkList.None? && server.rows[sha(data)].chunkCount == ChunkCount(|data|)
    ensures var t := Exchange(sha, around, server, dl, st);
            && OnTrack(sha, data, t.dl, t.store) && t.dl.chunkList.Some?
            && t.dl.Missing() == dl.Missing() && t.dl.suspect == dl.suspect
  {
    var d := dl.(wantsList := true, fetch := None);
    ServedListPassesIffCountFits(sha, server, data, d, st);
    var r := Served(sha, server, sha(data), TheList);
    assert Exchange(sha, around, server, dl, st) == OnChunkList(sha, d, st, r.value);
  }
}
