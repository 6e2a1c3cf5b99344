/** A holder that serves the file honestly is never blamed, whatever the other
    holders serve, as long as this node keeps the chunks it holds. */
module EngineTrust {
  import opened Prelude
  import opened Chunks
  import opened FileStore
  import opened Download
  import opened Engine
  import opened EngineRuns
  import opened EngineScheduler
  import EngineProgress
  import opened EngineSafety
  import opened ServeAndVerify

  /** Nothing else has the digests of this file: of the whole, of a chunk, or of the list of digests. */
  ghost predicate Unforged(sha: Sha, data: Bytes) {
    && (forall x: Bytes :: sha(x) == sha(data) ==> x == data)
    && (forall x: Bytes :: sha(x) == ManifestFor(sha, data).root ==> x == Join(ChunkHashes(sha, data)))
    && (forall i: nat | i < ChunkCount(|data|) :: OnlyChunk(sha, Chunk(data, i)))
  }

  ghost predicate OnlyChunk(sha: Sha, c: Bytes) {
    forall x: Bytes :: sha(x) == sha(c) ==> x == c
  }

  /** What is stored of the file, row or no row, is the file's own. */
  predicate OwnChunks(st: Store, h: Hash, data: Bytes) {
    forall k | k in st.chunks && k.0 == h :: k.1 < ChunkCount(|data|) && st.chunks[k] == Chunk(data, k.1)
  }

  predicate HeldIsStored(h: Hash, dl: Dl, st: Store) {
    forall i | i in dl.held :: (h, i) in st.chunks
  }

  /** The download of the true manifest, with the true list if any, this holder
      no suspect, and every chunk it counts as held still stored. */
  predicate Trusting(sha: Sha, data: Bytes, q: Peer, dl: Dl, st: Store) {
    && dl.manifest == ManifestFor(sha, data) && q !in dl.suspect
    && (dl.chunkList.Some? ==> dl.chunkList.value == ChunkHashes(sha, data))
    && (dl.admitted && dl.phase != Done ==> HeldIsStored(sha(data), dl, st))
  }

  predicate Trusted(sha: Sha, data: Bytes, q: Peer, s: State) {
    && OwnChunks(s.store, sha(data), data)
    && (sha(data) in s.downloads ==> sha(data) in s.order && Trusting(sha, data, q, s.downloads[sha(data)], s.store))
  }

  /** A node that has the file and calls it complete under its own count. */
  ghost predicate HoldsProperly(sha: Sha, server: Store, data: Bytes) {
    HoldsFirst(server, sha(data), data) && server.Complete(sha(data)) && server.rows[sha(data)].chunkCount == ChunkCount(|data|)
  }

  /** A failure, or what some node that has the file serves when asked for what this download misses first. */
  ghost predicate Honest(sha: Sha, data: Bytes, dl: Dl, answer: Answer) {
    answer.Reply? ==>
      exists server: Store, wanted: nat :: HoldsProperly(sha, server, data) && Says(sha, data, server, dl, wanted, answer.payload)
  }

  predicate Says(sha: Sha, data: Bytes, server: Store, dl: Dl, wanted: nat, payload: Bytes) {
    if dl.wantsList then Served(sha, server, sha(data), TheList) == Some(payload)
    else dl.NextIndex().Some? ==>
      && 1 <= wanted && dl.NextIndex().value + wanted <= ChunkCount(|data|)
      && Served(sha, server, sha(data), TheChunks(dl.NextIndex().value, wanted)) == Some(payload)
  }

  /* One answer. */

  /** What taking in a reply does to own chunks: it only adds own ones, and stores what it counts. */
  lemma {:induction false} TakeInStaysOwn(sha: Sha, data: Bytes, full: set<nat>, held: set<nat>, st: Store,
                                          reply: Bytes, offset: nat, idx: nat, stored: nat)
    requires Unforged(sha, data) && OwnChunks(st, sha(data), data) && offset <= |reply|
    requires forall i | i in held :: (sha(data), i) in st.chunks
    ensures var t := TakeIn(sha, ManifestFor(sha, data), ChunkHashes(sha, data), full, held, st, reply, offset, idx, stored);
            OwnChunks(t.store, sha(data), data) && forall i | i in t.held :: (sha(data), i) in t.store.chunks
    decreases ChunkCount(|data|) - idx
  {
    var m, list := ManifestFor(sha, data), ChunkHashes(sha, data);
    hide TakeIn, Takes, ChunkSizeAt, ChunkHashes, Unforged, OwnChunks;
    TakeInStep(sha, m, list, full, held, st, reply, offset, idx, stored);
    if Takes(sha, m, list, full, st, reply, offset, idx) {
      var end := offset + ChunkSizeAt(|data|, idx);
      TakenIsOwn(sha, data, full, st, reply, offset, idx);
      TakeInStaysOwn(sha, data, full, held + {idx}, st.Put(m.hash, idx, reply[offset..end]), reply, end, idx + 1, stored + 1);
    }
  }

  lemma TakenIsOwn(sha: Sha, data: Bytes, full: set<nat>, st: Store, reply: Bytes, offset: nat, idx: nat)
    requires Unforged(sha, data) && OwnChunks(st, sha(data), data)
    requires Takes(sha, ManifestFor(sha, data), ChunkHashes(sha, data), full, st, reply, offset, idx)
    ensures var end := offset + ChunkSizeAt(|data|, idx);
            && offset <= end <= |reply|
            && OwnChunks(st.Put(sha(data), idx, reply[offset..end]), sha(data), data)
  {
    ChunkBounds(|data|, idx);
    assert OnlyChunk(sha, Chunk(data, idx));
  }

  /** All the chunks there are read back as the file. */
  lemma AllOwnIsWhole(sha: Sha, data: Bytes, dl: Dl, st: Store)
    requires OwnChunks(st, sha(data), data) && HeldIsStored(sha(data), dl, st) && dl.manifest == ManifestFor(sha, data)
    requires |dl.held| >= dl.Count()
    ensures |st.Range(sha(data), 0, dl.Count())| == dl.Count() && st.Content(sha(data), dl.Count()) == data
  {
    var n, h := dl.Count(), sha(data);
    forall i | i in dl.held ensures i < n {
      assert (h, i).0 == h;
    }
    forall i: nat | i < n ensures (h, i) in st.chunks && st.chunks[(h, i)] == Chunk(data, i) {
      if i !in dl.held {
        EngineProgress.BelowHasSize(dl.held + {i}, n);
      }
      assert (h, i).0 == h;
    }
    RangeOfAll(st, h, 0, n);
    ContentIsFile(st, h, data);
  }

  lemma NoBadChunkStep(sha: Sha, data: Bytes, full: set<nat>, held: set<nat>, st: Store, reply: Bytes, offset: nat, idx: nat, last: nat, stored: nat)
    requires idx < last <= ChunkCount(|data|) && offset <= |reply| && reply[offset..] == Join(ChunkRange(data, idx, last))
    ensures var t := TakeIn(sha, ManifestFor(sha, data), ChunkHashes(sha, data), full, held, st, reply, offset, idx, stored);
            var next := offset + ChunkSizeAt(|data|, idx);
            && next <= |reply| && reply[next..] == Join(ChunkRange(data, idx + 1, last))
            && (t.stop == DiskFull
                || t == TakeIn(sha, ManifestFor(sha, data), ChunkHashes(sha, data), full, held + {idx},
                               st.Put(sha(data), idx, Chunk(data, idx)), reply, next, idx + 1, stored + 1))
  {
    FirstChunkOfReply(data, reply, offset, idx, last);
    ChunkBounds(|data|, idx);
    hide ChunkRange, Join, Chunk, ChunkSizeAt;
  }

  /** No chunk of an honest reply is bad; at worst there is no room for one. */
  lemma {:induction false} HonestReplyIsNotBad(sha: Sha, data: Bytes, full: set<nat>, held: set<nat>, st: Store,
                                               reply: Bytes, offset: nat, idx: nat, last: nat, stored: nat)
    requires idx <= last <= ChunkCount(|data|) && offset <= |reply| && reply[offset..] == Join(ChunkRange(data, idx, last))
    ensures TakeIn(sha, ManifestFor(sha, data), ChunkHashes(sha, data), full, held, st, reply, offset, idx, stored).stop in {Consumed, DiskFull}
    decreases last - idx
  {
    hide TakeIn, ChunkSizeAt, ChunkRange, Chunk, Store.Put;
    if idx == last {
      NothingToTake(sha, data, full, held, st, reply, offset, idx, stored);
    } else {
      NoBadChunkStep(sha, data, full, held, st, reply, offset, idx, last, stored);
      HonestReplyIsNotBad(sha, data, full, held + {idx}, st.Put(sha(data), idx, Chunk(data, idx)), reply,
                          offset + ChunkSizeAt(|data|, idx), idx + 1, last, stored + 1);
    }
  }

  lemma NothingToTake(sha: Sha, data: Bytes, full: set<nat>, held: set<nat>, st: Store, reply: Bytes, offset: nat, idx: nat, stored: nat)
    requires idx <= ChunkCount(|data|) && offset <= |reply| && reply[offset..] == Join(ChunkRange(data, idx, idx))
    ensures TakeIn(sha, ManifestFor(sha, data), ChunkHashes(sha, data), full, held, st, reply, offset, idx, stored).stop == Consumed
  {
    assert ChunkRange(data, idx, idx) == [];
  }

  /** A list that passes is the true one, and an honest list passes. */
  lemma ListIsTrusted(sha: Sha, data: Bytes, q: Peer, dl: Dl, st: Store, payload: Bytes)
    requires IsSha256(sha) && Unforged(sha, data) && Trusting(sha, data, q, dl, st)
    requires dl.wantsList && (dl.holder == Some(q) ==> Honest(sha, data, dl, Reply(payload)))
    ensures Trusting(sha, data, q, OnChunkList(sha, dl, st, payload).dl, st)
  {
    if ListMatches(sha, dl, payload) {
      SplitLosesNothing(payload);
      SplitJoinedHashes(ChunkHashes(sha, data));
    } else if dl.holder == Some(q) {
      var server, wanted :| HoldsProperly(sha, server, data) && Says(sha, data, server, dl, wanted, payload);
      ServedListPassesIffCountFits(sha, server, data, dl, st);
    }
  }

  /** Holding as many chunks as the file has, all its own, completes it. */
  lemma OwnCompletes(sha: Sha, around: Around, data: Bytes, dl: Dl, st: Store, served: bool)
    requires dl.manifest == ManifestFor(sha, data) && OwnChunks(st, sha(data), data) && HeldIsStored(sha(data), dl, st)
    requires |dl.held| >= dl.Count()
    ensures CompleteFile(sha, around, dl, st, served) == Turn(dl.Finish(Done, None), st.MarkComplete(sha(data)), served, GivenUpIfActive)
    ensures OwnChunks(st.MarkComplete(sha(data)), sha(data), data)
  {
    hide Store.Content, Store.Range, Candidates, ToSet;
    AllOwnIsWhole(sha, data, dl, st);
  }

  /** A step that leaves the manifest, the list and the suspects, and holds no more than what is stored. */
  lemma StaysTrusting(sha: Sha, data: Bytes, q: Peer, d: Dl, st: Store, held: set<nat>)
    requires d.manifest == ManifestFor(sha, data) && q !in d.suspect && d.chunkList == Some(ChunkHashes(sha, data))
    requires d.held == held && forall i | i in held :: (sha(data), i) in st.chunks
    ensures Trusting(sha, data, q, d, st)
  {
  }

  /** What a taken reply means: nobody but the one who served it can become suspect, and the count made full is the file. */
  lemma IntakeIsTrusted(sha: Sha, around: Around, data: Bytes, q: Peer, dl: Dl, t: Intake)
    requires dl.manifest == ManifestFor(sha, data) && q !in dl.suspect && dl.chunkList == Some(ChunkHashes(sha, data))
    requires OwnChunks(t.store, sha(data), data)
    requires forall i | i in t.held :: (sha(data), i) in t.store.chunks
    requires t.stop == BadChunk ==> dl.holder != Some(q)
    ensures var u := AfterIntake(sha, around, dl, t);
            OwnChunks(u.store, sha(data), data) && Trusting(sha, data, q, u.dl, u.store)
  {
    hide OwnChunks, ManifestFor, CompleteFile, Trusting, ChunkHashes;
    var taken := dl.(held := t.held);
    var checked := if t.stop == BadChunk then taken.ResetWindow().(suspect := With(dl.suspect, dl.holder)) else taken;
    var isSuspect := dl.holder.Some? && dl.holder.value in checked.suspect;
    var next := Credited(checked, isSuspect);
    if t.stop != DiskFull && t.stored > 0 && |next.held| >= next.Count() {
      OwnCompletes(sha, around, data, next, t.store, !isSuspect);
      StaysTrusting(sha, data, q, next.Finish(Done, None), t.store.MarkComplete(sha(data)), t.held);
    } else {
      StaysTrusting(sha, data, q, AfterIntake(sha, around, dl, t).dl, t.store, t.held);
    }
  }

  lemma AnswerIsTrusted(sha: Sha, around: Around, full: set<nat>, data: Bytes, q: Peer, dl: Dl, st: Store, answer: Answer)
    requires IsSha256(sha) && Unforged(sha, data) && OwnChunks(st, sha(data), data) && Trusting(sha, data, q, dl, st)
    requires dl.admitted && dl.phase == Fetching && ListFits(dl) && (dl.holder == Some(q) ==> Honest(sha, data, dl, answer))
    ensures var t := OnAnswer(sha, around, full, dl, st, answer);
            OwnChunks(t.store, sha(data), data) && Trusting(sha, data, q, t.dl, t.store)
  {
    hide OwnChunks, AfterIntake, TakeIn, Unforged, OnChunkList, Served, HoldsProperly;
    var d := dl.(fetch := None);
    assert Trusting(sha, data, q, d, st);
    match answer {
      case Failure(refusal) =>
      case Reply(payload) =>
        if dl.wantsList {
          HonestEither(sha, data, dl, d, answer);
          ListIsTrusted(sha, data, q, d, st, payload);
          ListKeepsStore(sha, d, st, payload);
        } else if d.NextIndex().Some? && d.chunkList.Some? {
          ChunksAreTrusted(sha, around, full, data, q, dl, st, payload);
        }
    }
  }

  lemma ListKeepsStore(sha: Sha, dl: Dl, st: Store, payload: Bytes)
    ensures OnChunkList(sha, dl, st, payload).store == st
  {
  }

  /** Being honest does not depend on the request being noted as outstanding. */
  lemma HonestEither(sha: Sha, data: Bytes, dl: Dl, d: Dl, answer: Answer)
    requires d == dl.(fetch := None)
    ensures Honest(sha, data, dl, answer) ==> Honest(sha, data, d, answer)
  {
    hide HoldsProperly, Served;
    assert d.NextIndex() == dl.NextIndex();
    if answer.Reply? && Honest(sha, data, dl, answer) {
      var server, wanted :| HoldsProperly(sha, server, data) && Says(sha, data, server, dl, wanted, answer.payload);
      assert Says(sha, data, server, d, wanted, answer.payload);
    }
  }

  lemma ChunksAreTrusted(sha: Sha, around: Around, full: set<nat>, data: Bytes, q: Peer, dl: Dl, st: Store, payload: Bytes)
    requires Unforged(sha, data) && OwnChunks(st, sha(data), data) && Trusting(sha, data, q, dl, st)
    requires dl.admitted && dl.phase == Fetching && ListFits(dl) && dl.chunkList.Some? && dl.NextIndex().Some? && !dl.wantsList
    requires dl.holder == Some(q) ==> Honest(sha, data, dl, Reply(payload))
    ensures var t := OnChunks(sha, around, full, dl.(fetch := None), st, payload);
            OwnChunks(t.store, sha(data), data) && Trusting(sha, data, q, t.dl, t.store)
  {
    hide OwnChunks, AfterIntake, TakeIn, Unforged, Served;
    var d, first := dl.(fetch := None), dl.NextIndex().value;
    assert d.NextIndex() == dl.NextIndex();
    TakeInStaysOwn(sha, data, full, d.held, st, payload, 0, first, 0);
    if dl.holder == Some(q) {
      var server, wanted :| HoldsProperly(sha, server, data) && Says(sha, data, server, dl, wanted, payload);
      ServedRange(sha, server, data, first, wanted);
      assert payload[0..] == payload;
      HonestReplyIsNotBad(sha, data, full, d.held, st, payload, 0, first, Reach(first, wanted, ChunkCount(|data|), ChunkCount(|data|)), 0);
    }
    IntakeIsTrusted(sha, around, data, q, d, TakeIn(sha, d.manifest, d.chunkList.value, full, d.held, st, payload, 0, first, 0));
  }

  /* Exactly when an honest answer is held against the holder. */

  function Span(first: nat, last: nat): (r: set<nat>)
    ensures forall i: nat :: i in r <==> first <= i < last
    decreases last - first
  {
    if first >= last then {} else {first} + Span(first + 1, last)
  }

  /** No room is short, and the holder serves honestly: it becomes suspect
      exactly if its answer makes the count full while a chunk that it did not
      bring is no longer stored. */
  lemma HonestRangeBlamedIffChunkLost(sha: Sha, around: Around, server: Store, data: Bytes, q: Peer, dl: Dl, st: Store, wanted: nat)
    requires HoldsProperly(sha, server, data) && OwnChunks(st, sha(data), data) && dl.manifest == ManifestFor(sha, data)
    requires !dl.wantsList && dl.chunkList == Some(ChunkHashes(sha, data)) && dl.NextIndex().Some?
    requires dl.holder == Some(q) && q !in dl.suspect && 1 <= wanted && dl.NextIndex().value + wanted <= dl.Count()
    ensures var first := dl.NextIndex().value;
            var brought, reply := Span(first, first + wanted), Served(sha, server, sha(data), TheChunks(first, wanted));
            && reply.Some?
            && (q in OnAnswer(sha, around, {}, dl, st, Reply(reply.value)).dl.suspect
                <==> |dl.held + brought| >= dl.Count() && exists i: nat :: i < dl.Count() && i !in brought && (sha(data), i) !in st.chunks)
  {
    hide *;
    var t := HonestIntake(sha, around, server, data, dl, st, wanted);
    BroughtIsStored(sha, data, dl, st, dl.NextIndex().value, dl.NextIndex().value + wanted);
    CountedIsJudged(sha, around, data, q, dl.(fetch := None), t);
    LacksOne(t.store, sha(data), ChunkCount(|data|));
    SameCount(sha, data, dl, dl.(fetch := None));
  }

  lemma LacksOne(st: Store, h: Hash, n: nat)
    ensures HasAll(st, h, 0, n) <==> forall i: nat | i < n :: (h, i) in st.chunks
  {
  }

  lemma SameCount(sha: Sha, data: Bytes, dl: Dl, d: Dl)
    requires dl.manifest == ManifestFor(sha, data) && d.manifest == dl.manifest
    ensures dl.Count() == ChunkCount(|data|) == d.Count()
  {
  }

  /** An honest range is taken in whole. */
  lemma HonestIntake(sha: Sha, around: Around, server: Store, data: Bytes, dl: Dl, st: Store, wanted: nat) returns (t: Intake)
    requires HoldsProperly(sha, server, data) && dl.manifest == ManifestFor(sha, data)
    requires !dl.wantsList && dl.chunkList == Some(ChunkHashes(sha, data)) && dl.NextIndex().Some?
    requires 1 <= wanted && dl.NextIndex().value + wanted <= dl.Count()
    ensures var first := dl.NextIndex().value;
            var reply := Served(sha, server, sha(data), TheChunks(first, wanted));
            && reply.Some? && first + wanted <= ChunkCount(|data|)
            && OnAnswer(sha, around, {}, dl, st, Reply(reply.value)) == AfterIntake(sha, around, dl.(fetch := None), t)
            && t.store == PutRange(st, sha(data), data, first, first + wanted)
            && t.held == dl.held + Span(first, first + wanted)
            && t.stop == Consumed && t.stored > 0
  {
    hide *;
    var first := dl.NextIndex().value;
    var list := ChunkHashes(sha, data);
    ManifestIs(sha, data);
    SameCount(sha, data, dl, dl);
    HonestRange(sha, server, data, first, wanted);
    var reply := Served(sha, server, sha(data), TheChunks(first, wanted)).value;
    assert reply[0..] == reply;
    ReplyIsCutBack(sha, dl.manifest, data, dl.held, st, reply, 0, first, first + wanted, 0);
    t := TakeIn(sha, dl.manifest, list, {}, dl.held, st, reply, 0, first, 0);
    SpanIsAdded(dl.held, t.held, first, first + wanted);
    ChunksAreTakenIn(sha, around, {}, dl, st, list, reply);
  }

  lemma ManifestIs(sha: Sha, data: Bytes)
    ensures ManifestFor(sha, data).hash == sha(data) && ManifestFor(sha, data).size == |data|
  {
  }

  lemma SpanIsAdded(held: set<nat>, now: set<nat>, first: nat, last: nat)
    requires Adds(held, now, first, last)
    ensures now == held + Span(first, last)
  {
  }

  lemma HonestRange(sha: Sha, server: Store, data: Bytes, first: nat, wanted: nat)
    requires HoldsProperly(sha, server, data) && 1 <= wanted && first + wanted <= ChunkCount(|data|)
    ensures Served(sha, server, sha(data), TheChunks(first, wanted)) == Some(Join(ChunkRange(data, first, first + wanted)))
  {
    hide Served, HoldsFirst;
    ServedRange(sha, server, data, first, wanted);
  }

  lemma ChunksAreTakenIn(sha: Sha, around: Around, full: set<nat>, dl: Dl, st: Store, list: seq<Bytes>, payload: Bytes)
    requires !dl.wantsList && dl.chunkList == Some(list) && |list| == ChunkCount(dl.manifest.size) && dl.NextIndex().Some?
    ensures ListFits(dl)
    ensures OnAnswer(sha, around, full, dl, st, Reply(payload))
            == AfterIntake(sha, around, dl.(fetch := None), TakeIn(sha, dl.manifest, list, full, dl.held, st, payload, 0, dl.NextIndex().value, 0))
  {
    hide TakeIn, AfterIntake;
    assert dl.(fetch := None).NextIndex() == dl.NextIndex();
  }

  /** Exactly the chunks that were there and the ones just entered are stored, all own. */
  lemma BroughtIsStored(sha: Sha, data: Bytes, dl: Dl, st: Store, first: nat, last: nat)
    requires OwnChunks(st, sha(data), data) && first <= last <= ChunkCount(|data|)
    ensures var u := PutRange(st, sha(data), data, first, last);
            && OwnChunks(u, sha(data), data)
            && forall i: nat :: (sha(data), i) in u.chunks <==> (sha(data), i) in st.chunks || first <= i < last
  {
    hide Chunk;
    PutRangeAdds(st, sha(data), data, first, last);
    var u := PutRange(st, sha(data), data, first, last);
    forall i: nat ensures (sha(data), i) in u.chunks <==> (sha(data), i) in st.chunks || first <= i < last {
      if (sha(data), i) in u.chunks && (sha(data), i) !in st.chunks {
        assert (sha(data), i).1 == i;
      }
    }
  }

  lemma OwnIsFile(sha: Sha, data: Bytes, st: Store)
    requires OwnChunks(st, sha(data), data) && HasAll(st, sha(data), 0, ChunkCount(|data|))
    ensures st.Content(sha(data), ChunkCount(|data|)) == data
  {
    forall i: nat | i < ChunkCount(|data|) ensures st.chunks[(sha(data), i)] == Chunk(data, i) {
      assert (sha(data), i).0 == sha(data);
    }
    ContentIsFile(st, sha(data), data);
  }

  /** Once the count is full, the holder is suspect exactly if the tables lack a chunk. */
  lemma CountedIsJudged(sha: Sha, around: Around, data: Bytes, q: Peer, dl: Dl, t: Intake)
    requires dl.manifest == ManifestFor(sha, data) && OwnChunks(t.store, sha(data), data)
    requires dl.holder == Some(q) && q !in dl.suspect && t.stop == Consumed && t.stored > 0
    ensures q in AfterIntake(sha, around, dl, t).dl.suspect
            <==> |t.held| >= dl.Count() && !HasAll(t.store, sha(data), 0, ChunkCount(|data|))
  {
    hide Candidates, ToSet, Store.Range, Store.Content;
    var h, n := sha(data), ChunkCount(|data|);
    RangeOfAll(t.store, h, 0, n);
    if HasAll(t.store, h, 0, n) {
      OwnIsFile(sha, data, t.store);
    }
  }

  /* Steps. */

  /** The file is tracked and not done. */
  predicate Wanted(s: State, h: Hash) { h in s.downloads && s.downloads[h].phase != Done }

  /** Making room for other files does not evict this one. */
  predicate Spares(w: World, h: Hash) {
    forall g | g in w.admissions && g != h :: h !in w.admissions[g].evicted
  }

  /** What this result asks of an event: the first request for the file names
      the true manifest, the holder serves honestly when asked for it, and while
      it is wanted no eviction and no share that fails for room takes its chunks away. */
  ghost predicate Fair(sha: Sha, data: Bytes, q: Peer, s: State, e: Event) {
    var h := sha(data);
    match e
    case Shared(d, room, full) =>
      sha(d) == h && Wanted(s, h) && d != [] && !s.store.Complete(h) && room ==> HasRoom(s.store, h, 0, ChunkCount(|d|), full)
    case Requested(w, m, _) =>
      if m.hash == h then h in s.downloads || m == ManifestFor(sha, data) else Wanted(s, h) ==> h !in w.Admits(m.hash).evicted
    case Answered(_, _, id, answer) =>
      Expects(s, id) && s.byFetch[id] == h && s.downloads[h].holder == Some(q) ==> Honest(sha, data, s.downloads[h], answer)
    case Pumped(w) => Wanted(s, h) ==> Spares(w, h)
    case _ => true
  }

  /** The tables still have every chunk they had of the file. */
  predicate KeepsChunks(h: Hash, a: Store, b: Store) {
    forall k | k in a.chunks && k.0 == h :: k in b.chunks
  }

  lemma StillTrusting(sha: Sha, data: Bytes, q: Peer, d: Dl, e: Dl, a: Store, b: Store)
    requires Trusting(sha, data, q, d, a) && OnlyAdmitted(sha(data), e, d, a)
    requires e.admitted && e.phase != Done ==> KeepsChunks(sha(data), a, b) && (d.admitted ==> d.phase != Done)
    ensures Trusting(sha, data, q, e, b)
  {
    var h := sha(data);
    hide ManifestFor, ChunkHashes;
    if e.admitted && e.phase != Done {
      forall i | i in e.held ensures (h, i) in b.chunks {
        assert (h, i) in a.chunks;
        assert (h, i).0 == h;
      }
    }
  }

  lemma LossIsOwn(sha: Sha, data: Bytes, a: Store, b: Store)
    requires OwnChunks(a, sha(data), data) && NoMoreOf(sha(data), a, b)
    ensures OwnChunks(b, sha(data), data)
  {
  }

  lemma ElsewhereIsOwn(sha: Sha, data: Bytes, h: Hash, a: Store, b: Store)
    requires SameElsewhere(h, a, b) && h != sha(data)
    ensures NoMoreOf(sha(data), a, b) && KeepsChunks(sha(data), a, b)
  {
  }

  lemma UnchangedIsAdmitted(h: Hash, d: Dl, e: Dl, st: Store)
    requires e == d || Requeued(e, d)
    ensures OnlyAdmitted(h, e, d, st)
  {
  }

  /** Nothing appeared in the tables, and the download, if it is tracked still, keeps what it counts. */
  lemma LossIsTrusted(sha: Sha, data: Bytes, q: Peer, s: State, t: State)
    requires Trusted(sha, data, q, s) && NoMoreOf(sha(data), s.store, t.store)
    requires sha(data) in t.downloads ==>
               var h := sha(data);
               && h in s.downloads && h in t.order && OnlyAdmitted(h, t.downloads[h], s.downloads[h], s.store)
               && (Wanted(t, h) && t.downloads[h].admitted ==> KeepsChunks(h, s.store, t.store) && (s.downloads[h].admitted ==> Wanted(s, h)))
    ensures Trusted(sha, data, q, t)
  {
    hide Trusting, OwnChunks, OnlyAdmitted, KeepsChunks, NoMoreOf;
    LossIsOwn(sha, data, s.store, t.store);
    if sha(data) in t.downloads {
      StillTrusting(sha, data, q, s.downloads[sha(data)], t.downloads[sha(data)], s.store, t.store);
    }
  }

  /** A share of this very file that is stored. */
  lemma StoredShareIsOwn(sha: Sha, s: State, data: Bytes, full: set<nat>)
    requires GoesThrough(sha, s, data, true, full) && OwnChunks(s.store, sha(data), data)
    ensures var t := Share(sha, s, data, true, full);
            && t == s.(store := t.store)
            && OwnChunks(t.store, sha(data), data) && KeepsChunks(sha(data), s.store, t.store)
  {
    var h, n := sha(data), ChunkCount(|data|);
    var begun := s.store.Begin(h, |data|, true);
    assert HasRoom(begun, h, 0, n, full);
    PutAllNeedsRoom(begun, h, data, 0, full);
    PutAllResult(begun, h, data, 0, full);
    hide HasRoom, PutAll, Chunk;
  }

  /** A share that is not stored deletes the file or changes none of its chunks. */
  lemma RefusedShareKeeps(sha: Sha, s: State, data: Bytes, room: bool, full: set<nat>)
    requires !GoesThrough(sha, s, data, room, full)
    ensures var t := Share(sha, s, data, room, full);
            data == [] || s.store.Complete(sha(data)) || !room ==> KeepsChunks(sha(data), s.store, t.store)
  {
    hide PutAll;
  }

  lemma ShareIsTrusted(sha: Sha, data: Bytes, q: Peer, s: State, d: Bytes, room: bool, full: set<nat>)
    requires Unforged(sha, data) && Trusted(sha, data, q, s) && Fair(sha, data, q, s, Shared(d, room, full))
    ensures Trusted(sha, data, q, Share(sha, s, d, room, full))
  {
    var h, t := sha(data), Share(sha, s, d, room, full);
    if h in s.downloads {
      UnchangedIsAdmitted(h, s.downloads[h], s.downloads[h], s.store);
    }
    if GoesThrough(sha, s, d, room, full) {
      StoredShare(sha, s, d, room, full);
      if sha(d) == h {
        assert d == data;
        StoredShareIsOwn(sha, s, data, full);
        hide Share, OwnChunks, GoesThrough;
        SharedIsTrusted(sha, data, q, s, t);
      } else {
        hide Share, Trusting, OwnChunks, OnlyAdmitted, GoesThrough;
        ElsewhereIsOwn(sha, data, sha(d), s.store, t.store);
        LossIsTrusted(sha, data, q, s, t);
      }
    } else {
      RefusedShare(sha, s, d, room, full);
      RefusedShareKeeps(sha, s, d, room, full);
      hide Share, Trusting, OwnChunks, OnlyAdmitted;
      if sha(d) != h {
        ElsewhereIsOwn(sha, data, sha(d), s.store, t.store);
      }
      LossIsTrusted(sha, data, q, s, t);
    }
  }

  lemma SharedIsTrusted(sha: Sha, data: Bytes, q: Peer, s: State, t: State)
    requires Trusted(sha, data, q, s) && t == s.(store := t.store)
    requires OwnChunks(t.store, sha(data), data) && KeepsChunks(sha(data), s.store, t.store)
    ensures Trusted(sha, data, q, t)
  {
    var h := sha(data);
    hide OwnChunks, ManifestFor, ChunkHashes;
    if h in t.downloads && t.downloads[h].admitted && t.downloads[h].phase != Done {
      forall i | i in t.downloads[h].held ensures (h, i) in t.store.chunks {
        assert (h, i).0 == h;
      }
    }
  }

  /** A request keeps whatever is tracked listed, and lists what it adds. */
  lemma RequestLists(w: World, s: State, m: Manifest, sender: Option<Peer>)
    ensures var t := RequestDownload(w, s, m, sender);
            && (forall g | g in s.order :: g in t.order) && (m.hash !in s.downloads ==> m.hash in t.order)
  {
    hide Joined, Awoken, Admit;
    JoinLists(w, s, m, sender);
    if !s.store.Complete(m.hash) {
      RequestAdmits(w, s, m, sender);
      AdmissionLists(w, Awoken(w, s, m, sender), m.hash);
      AwokenLists(w, s, m, sender);
      hide RequestDownload;
    }
  }

  lemma JoinLists(w: World, s: State, m: Manifest, sender: Option<Peer>)
    ensures Joined(w, s, m, sender).order == if m.hash in s.downloads then s.order else s.order + [m.hash]
  {
  }

  lemma AwokenLists(w: World, s: State, m: Manifest, sender: Option<Peer>)
    ensures Awoken(w, s, m, sender).order == Joined(w, s, m, sender).order
  {
    hide Joined;
  }

  lemma AdmissionLists(w: World, s: State, h: Hash)
    requires h in s.downloads
    ensures Admit(w, s, h).order == s.order
  {
  }

  lemma AdmissionKeepsOthers(w: World, s: State, g: Hash, h: Hash)
    requires g in s.downloads && g != h && h !in w.Admits(g).evicted
    ensures KeepsChunks(h, s.store, Admit(w, s, g).store)
  {
  }

  lemma SameKeeps(h: Hash, st: Store)
    ensures KeepsChunks(h, st, st) && NoMoreOf(h, st, st)
  {
  }

  /** Whatever a request evicts, it is another file. */
  lemma RequestKeepsChunks(w: World, s: State, m: Manifest, sender: Option<Peer>, h: Hash)
    requires m.hash == h || h !in w.Admits(m.hash).evicted
    ensures KeepsChunks(h, s.store, RequestDownload(w, s, m, sender).store)
  {
    hide RequestDownload, Awoken, Admit, KeepsChunks, NoMoreOf;
    SameKeeps(h, s.store);
    if s.store.Complete(m.hash) {
      HeldRequestEffect(w, s, m, sender);
    } else {
      RequestAdmits(w, s, m, sender);
      var u := Awoken(w, s, m, sender);
      if m.hash == h {
        OwnAdmissionKeeps(w, u, h);
      } else {
        AdmissionKeepsOthers(w, u, m.hash, h);
      }
    }
  }

  lemma OwnAdmissionKeeps(w: World, s: State, h: Hash)
    requires h in s.downloads
    ensures KeepsChunks(h, s.store, Admit(w, s, h).store)
  {
  }

  lemma RequestIsTrusted(sha: Sha, data: Bytes, q: Peer, w: World, s: State, m: Manifest, sender: Option<Peer>)
    requires Trusted(sha, data, q, s) && Fair(sha, data, q, s, Requested(w, m, sender))
    ensures Trusted(sha, data, q, RequestDownload(w, s, m, sender))
  {
    var h, t := sha(data), RequestDownload(w, s, m, sender);
    RequestEffect(w, s, m, sender);
    RequestLists(w, s, m, sender);
    assert NoMoreOf(h, s.store, t.store);
    if m.hash == h {
      RequestKeepsChunks(w, s, m, sender, h);
      RequestedIsTrusting(sha, data, q, w, s, m, sender);
      hide RequestDownload, Trusting, OwnChunks, NoMoreOf, NoneLostOf, RequestLeaves;
      LossIsOwn(sha, data, s.store, t.store);
    } else {
      if Wanted(s, h) {
        RequestKeepsChunks(w, s, m, sender, h);
      }
      if h in s.downloads {
        UnchangedIsAdmitted(h, s.downloads[h], s.downloads[h], s.store);
      }
      hide RequestDownload, Trusting, OwnChunks, OnlyAdmitted, NoMoreOf, NoneLostOf, KeepsChunks, RequestLeaves, Fair;
      LossIsTrusted(sha, data, q, s, t);
    }
  }

  lemma FreshIsTrusting(sha: Sha, data: Bytes, q: Peer, st: Store)
    ensures Trusting(sha, data, q, Fresh(ManifestFor(sha, data)), st)
  {
  }

  /** The download that a request for this very file leaves. */
  lemma RequestedIsTrusting(sha: Sha, data: Bytes, q: Peer, w: World, s: State, m: Manifest, sender: Option<Peer>)
    requires Trusted(sha, data, q, s) && m.hash == sha(data) && (m.hash in s.downloads || m == ManifestFor(sha, data))
    ensures var t := RequestDownload(w, s, m, sender); m.hash in t.downloads && Trusting(sha, data, q, t.downloads[m.hash], t.store)
  {
    var h, t := m.hash, RequestDownload(w, s, m, sender);
    var d := if h in s.downloads then s.downloads[h] else Fresh(m);
    RequestEffect(w, s, m, sender);
    RequestKeepsChunks(w, s, m, sender, h);
    FreshIsTrusting(sha, data, q, s.store);
    hide RequestDownload, OwnChunks, OnlyLoses, ManifestFor, ChunkHashes, KeepsChunks, OnlyAdmitted, HeldIsStored;
    if s.store.Complete(h) {
      DoneIsTrusting(sha, data, q, d, t.downloads[h], s.store, t.store);
    } else {
      StillTrusting(sha, data, q, d, t.downloads[h], s.store, t.store);
    }
  }

  lemma DoneIsTrusting(sha: Sha, data: Bytes, q: Peer, d: Dl, e: Dl, a: Store, b: Store)
    requires Trusting(sha, data, q, d, a)
    requires e.phase == Done && e.manifest == d.manifest && e.chunkList == d.chunkList && e.suspect == d.suspect
    ensures Trusting(sha, data, q, e, b)
  {
  }

  lemma ResultIsTrusted(sha: Sha, data: Bytes, q: Peer, w: World, full: set<nat>, s: State, id: FetchId, answer: Answer)
    requires IsSha256(sha) && Unforged(sha, data) && Orderly(s) && Fits(s)
    requires Trusted(sha, data, q, s) && Fair(sha, data, q, s, Answered(w, full, id, answer))
    ensures Trusted(sha, data, q, OnResult(sha, w, full, s, id, answer))
  {
    var h, t := sha(data), OnResult(sha, w, full, s, id, answer);
    hide Unforged, OnAnswer, Regular, AroundOf, Trusting, OwnChunks, NoMoreOf, SameElsewhere, OnlyAdmitted, KeepsChunks, Honest;
    SameKeeps(h, s.store);
    if Expects(s, id) {
      var g := s.byFetch[id];
      FetchingIsAdmitted(g, s.downloads[g], s.store);
      if g == h {
        AnswerIsTrusted(sha, AroundOf(w, s, h), full, data, q, s.downloads[h], s.store, answer);
      } else {
        AnswerIsRegular(sha, AroundOf(w, s, g), full, g, s.downloads[g], s.store, answer);
        ElsewhereIsOwn(sha, data, g, s.store, t.store);
        if h in s.downloads {
          UnchangedIsAdmitted(h, s.downloads[h], s.downloads[h], s.store);
        }
        LossIsTrusted(sha, data, q, s, t);
      }
    }
  }

  lemma {:induction false} ActivationKeepsChunks(w: World, s: State, candidates: seq<Hash>, h: Hash)
    requires Spares(w, h)
    ensures KeepsChunks(h, s.store, ActivateNext(w, s, candidates).store)
    decreases |candidates|
  {
    hide Admit, KeepsChunks;
    SameKeeps(h, s.store);
    if candidates != [] {
      var g := candidates[0];
      if g in s.downloads && s.downloads[g].phase == Queued && !s.downloads[g].admitted {
        if g == h {
          OwnAdmissionKeeps(w, s, h);
        } else {
          AdmissionKeepsOthers(w, s, g, h);
        }
        var t := Admit(w, s, g);
        ActivationKeepsChunks(w, t, candidates[1..], h);
        KeepsTwice(h, s.store, t.store, ActivateNext(w, t, candidates[1..]).store);
      } else {
        ActivationKeepsChunks(w, s, candidates[1..], h);
      }
    }
  }

  lemma KeepsTwice(h: Hash, a: Store, b: Store, c: Store)
    requires KeepsChunks(h, a, b) && KeepsChunks(h, b, c)
    ensures KeepsChunks(h, a, c)
  {
  }

  /** However many downloads are admitted and parked before a request is issued, this file keeps its chunks. */
  lemma {:induction false} PrepareKeepsChunks(w: World, s: State, h: Hash)
    requires Spares(w, h)
    ensures KeepsChunks(h, s.store, Prepare(w, s).state.store)
    decreases |OpenDownloads(s)|, if HasActive(s) then 1 else 0
  {
    hide ActivateNext, NextHolder, Candidates, AroundOf, KeepsChunks, RequestFor, AllSaidNo, Spares, Asking;
    ActivationKeepsOpen(w, s, s.order);
    SameKeeps(h, s.store);
    ActivationKeepsChunks(w, s, s.order, h);
    var t := if HasActive(s) then s else ActivateNext(w, s, s.order);
    if HasActive(t) && t.downloads[t.active.value].fetch.None? {
      var g := t.active.value;
      var dl := t.downloads[g];
      if NextHolder(w, dl, Candidates(AroundOf(w, t, g), dl.senders)).None? {
        StallCloses(w, t, g);
        PrepareKeepsChunks(w, Stall(w, t, g), h);
        KeepsTwice(h, s.store, t.store, Prepare(w, Stall(w, t, g)).state.store);
      }
    }
  }

  lemma PumpIsTrusted(sha: Sha, data: Bytes, q: Peer, w: World, s: State)
    requires Orderly(s) && Trusted(sha, data, q, s) && Fair(sha, data, q, s, Pumped(w))
    ensures Trusted(sha, data, q, Prepare(w, s).state)
  {
    var h, t := sha(data), Prepare(w, s).state;
    PrepareTakesNothingIn(w, s);
    PrepareKeepsDone(w, s);
    assert NoMoreOf(h, s.store, t.store);
    hide Prepare, Trusting, OwnChunks, OnlyAdmitted, NoMoreOf, NoneLostOf, KeepsChunks, Regular, Spares;
    if Wanted(s, h) {
      PrepareKeepsChunks(w, s, h);
    }
    LossIsTrusted(sha, data, q, s, t);
  }

  lemma PruneIsTrusted(sha: Sha, data: Bytes, q: Peer, s: State, deleted: set<Hash>)
    requires Trusted(sha, data, q, s)
    ensures Trusted(sha, data, q, Prune(s, deleted))
  {
    var h, t := sha(data), Prune(s, deleted);
    assert NoMoreOf(h, s.store, t.store);
    if h in t.downloads {
      UnchangedIsAdmitted(h, s.downloads[h], s.downloads[h], s.store);
      assert t.downloads[h].admitted ==> h !in deleted;
    }
    hide Trusting, OwnChunks, OnlyAdmitted, NoMoreOf;
    LossIsTrusted(sha, data, q, s, t);
  }

  lemma RequeuingIsTrusted(sha: Sha, data: Bytes, q: Peer, s: State, t: State)
    requires Trusted(sha, data, q, s) && OnlyRequeues(s, t)
    ensures Trusted(sha, data, q, t)
  {
    var h := sha(data);
    hide Trusting, OwnChunks, OnlyAdmitted, NoMoreOf, KeepsChunks;
    SameKeeps(h, s.store);
    if h in t.downloads {
      UnchangedIsAdmitted(h, s.downloads[h], t.downloads[h], s.store);
    }
    LossIsTrusted(sha, data, q, s, t);
  }

  lemma StepIsTrusted(sha: Sha, data: Bytes, q: Peer, s: State, e: Event)
    requires IsSha256(sha) && Unforged(sha, data) && Orderly(s) && Fits(s)
    requires Trusted(sha, data, q, s) && Fair(sha, data, q, s, e)
    ensures Trusted(sha, data, q, Step(sha, s, e))
  {
    hide Orderly, Trusted, Unforged, IsSha256, Fair;
    match e {
      case Shared(d, room, full) => ShareIsTrusted(sha, data, q, s, d, room, full);
      case Requested(w, m, sender) => RequestIsTrusted(sha, data, q, w, s, m, sender);
      case Answered(w, full, id, answer) => ResultIsTrusted(sha, data, q, w, full, s, id, answer);
      case Pumped(w) => PumpIsTrusted(sha, data, q, w, s);
      case Pruned(deleted) => PruneIsTrusted(sha, data, q, s, deleted);
      case Appeared(me, peer, mayHold) => AppearanceRequeues(me, s, peer, mayHold); RequeuingIsTrusted(sha, data, q, s, Step(sha, s, e));
      case Retried(due) => RetryRequeues(s, due); RequeuingIsTrusted(sha, data, q, s, Step(sha, s, e));
    }
  }

  ghost predicate AllFair(sha: Sha, data: Bytes, q: Peer, s: State, es: seq<Event>)
    decreases |es|
  {
    es != [] && Fits(s) ==> Fair(sha, data, q, s, es[0]) && AllFair(sha, data, q, Step(sha, s, es[0]), es[1..])
  }

  /** Along every run of harmless, fair events, whatever every other peer
      serves, a peer that serves the file honestly is never suspect, and
      everything stored of the file is the file's own. */
  lemma {:induction false} HonestHolderIsNeverSuspect(sha: Sha, data: Bytes, q: Peer, s: State, es: seq<Event>)
    requires IsSha256(sha) && Unforged(sha, data) && Orderly(s) && Trusted(sha, data, q, s)
    requires AllHarmless(sha, s, es) && AllFair(sha, data, q, s, es) && forall e | e in es :: Checked(e)
    ensures var r := Run(sha, s, es);
            && Trusted(sha, data, q, r)
            && (sha(data) in r.downloads ==> q !in r.downloads[sha(data)].suspect)
    decreases |es|
  {
    if es != [] {
      OrderlyIsReady(s);
      assert es[0] in es && forall e | e in es[1..] :: e in es;
      hide Step, Trusted, Fair, Harmless, Fits, Checked, Orderly, Unforged, IsSha256;
      StepIsOrderly(sha, s, es[0]);
      StepIsTrusted(sha, data, q, s, es[0]);
      HonestHolderIsNeverSuspect(sha, data, q, Step(sha, s, es[0]), es[1..]);
    }
  }

  lemma OwnAndWholeIsHeld(sha: Sha, data: Bytes, st: Store)
    requires OwnChunks(st, sha(data), data) && Hashes(sha, st, sha(data), ChunkCount(|data|))
    ensures HoldsFirst(st, sha(data), data)
  {
    RangeOfAll(st, sha(data), 0, ChunkCount(|data|));
    forall i: nat | i < ChunkCount(|data|) ensures st.chunks[(sha(data), i)] == Chunk(data, i) {
      assert (sha(data), i) in st.chunks && (sha(data), i).0 == sha(data);
    }
  }

  /** So what is fetched can be passed on: where in addition every manifest and
      share gives a hash one chunk count, a node that calls the file complete
      after such a run is itself a holder that serves it properly. */
  lemma CompleteIsHeldProperly(sha: Sha, data: Bytes, q: Peer, count: Hash -> nat, s: State, es: seq<Event>)
    requires IsSha256(sha) && Unforged(sha, data) && Orderly(s) && Trusted(sha, data, q, s)
    requires AllHarmless(sha, s, es) && AllFair(sha, data, q, s, es) && forall e | e in es :: Checked(e)
    requires count(sha(data)) == ChunkCount(|data|)
    requires var counts := (g, n) => n == count(g); Consistent(sha, counts, s) && AllAgreed(sha, counts, s, es)
    ensures Run(sha, s, es).store.Complete(sha(data)) ==> HoldsProperly(sha, Run(sha, s, es).store, data)
  {
    hide Run, AllAgreed, AllHarmless, AllFair, Filed, Unforged, IsSha256, Orderly, OwnChunks, HoldsFirst, Trusting, Hashes;
    var counts, st := (g, n) => n == count(g), Run(sha, s, es).store;
    HonestHolderIsNeverSuspect(sha, data, q, s, es);
    OneSizeIsHandedOut(sha, count, s, es, sha(data));
    RunKeepsConsistent(sha, counts, s, es);
    if st.Complete(sha(data)) {
      OwnAndWholeIsHeld(sha, data, st);
    }
  }

  /** A fresh node may begin such a run; so may a restart with own chunks and the true manifest. */
  lemma OriginsAreTrusted(sha: Sha, data: Bytes, q: Peer, st: Store, listed: seq<Hash>, told: map<Hash, Told>)
    requires OwnChunks(st, sha(data), data) && (sha(data) in told ==> told[sha(data)].manifest == ManifestFor(sha, data))
    ensures Trusted(sha, data, q, Start()) && Trusted(sha, data, q, Restored(st, listed, told))
  {
    var h := sha(data);
    forall i | i in st.Indices(h) ensures (h, i) in st.chunks {}
  }

  /** What was asked, and of whom. */
  predicate SameQuestion(d: Dl, dl: Dl) {
    && d.manifest == dl.manifest && d.fetch == dl.fetch && d.holder == dl.holder
    && d.held == dl.held && d.chunkList == dl.chunkList && d.wantsList == dl.wantsList
  }

  /** Until its answer comes, a request stands as it was issued, or its download
      is forgotten: an answer is judged by the very question it was an answer to. */
  lemma QuestionStands(sha: Sha, s: State, e: Event, h: Hash)
    requires Orderly(s) && Fits(s) && Checked(e) && Harmless(sha, s, e)
    requires h in s.downloads && s.downloads[h].fetch.Some? && (e.Answered? ==> s.downloads[h].fetch != Some(e.id))
    ensures var t := Step(sha, s, e); h in t.downloads ==> SameQuestion(t.downloads[h], s.downloads[h])
  {
    OutstandingIsActive(s, h);
    hide Orderly, Regular, Share, RequestDownload, OnAnswer, Prepare, Prune, PeerAppeared, RetryParked;
    match e {
      case Shared(data, room, full) => ShareStaysInStore(sha, s, data, room, full);
      case Requested(w, m, sender) => AskedAgainStands(w, s, m, sender, h);
      case Answered(w, full, id, answer) =>
      case Pumped(w) => OutstandingIsAwaited(w, s);
      case Pruned(deleted) => PruneForgetsOrKeeps(s, deleted, h);
      case Appeared(me, peer, mayHold) => AppearanceRequeues(me, s, peer, mayHold);
      case Retried(due) => RetryRequeues(s, due);
    }
  }

  lemma OutstandingIsActive(s: State, h: Hash)
    requires Orderly(s) && h in s.downloads && s.downloads[h].fetch.Some?
    ensures s.active == Some(h) && s.downloads[h].phase == Fetching && s.downloads[h].admitted
  {
    FetchingIsAdmitted(h, s.downloads[h], s.store);
    hide Regular;
  }

  lemma OutstandingIsAwaited(w: World, s: State)
    requires HasActive(s) && s.downloads[s.active.value].fetch.Some?
    ensures Prepare(w, s).state == s
  {
  }

  lemma PruneForgetsOrKeeps(s: State, deleted: set<Hash>, h: Hash)
    requires h in s.downloads
    ensures var t := Prune(s, deleted); h in t.downloads ==> t.downloads[h] == s.downloads[h]
  {
  }

  lemma AskedAgainStands(w: World, s: State, m: Manifest, sender: Option<Peer>, h: Hash)
    requires h in s.downloads && s.downloads[h].phase == Fetching && s.downloads[h].admitted
    requires s.store.Complete(m.hash) ==> m.hash != h
    ensures var t := RequestDownload(w, s, m, sender); h in t.downloads && SameQuestion(t.downloads[h], s.downloads[h])
  {
    if m.hash == h {
      AwokenEffect(w, s, m, sender);
      RequestAdmits(w, s, m, sender);
      hide RequestDownload, Awoken, Admit;
    } else {
      RequestEffect(w, s, m, sender);
      hide RequestDownload;
    }
  }
}
