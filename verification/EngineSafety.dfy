/** What is marked complete is what its hash says, whatever bytes holders serve
    and whatever sizes they claim; and when it is also what is handed out. */
module EngineSafety {
  import opened Prelude
  import opened Chunks
  import opened FileStore
  import opened Download
  import opened Engine
  import opened EngineRuns

  /* Complete means correct. */

  /** The chunk counts that manifests and shares give each hash. Nothing checks
      that they agree, so most results below allow any. */
  type Counts = (Hash, nat) -> bool

  /** The first n chunks are stored and hash to the address. */
  predicate Hashes(sha: Sha, st: Store, h: Hash, n: nat) {
    HasAll(st, h, 0, n) && sha(st.Content(h, n)) == h
  }

  ghost predicate Whole(sha: Sha, counts: Counts, st: Store, h: Hash) {
    exists n :: counts(h, n) && Hashes(sha, st, h, n)
  }

  ghost predicate Inside(counts: Counts, h: Hash, i: nat) {
    exists n :: counts(h, n) && i < n
  }

  /** No stored chunk is empty or lies past every count given for its file, and
      of a complete file the first so many chunks are there and hash to its address. */
  ghost predicate Correct(sha: Sha, counts: Counts, st: Store) {
    && (forall k | k in st.chunks :: st.chunks[k] != [] && Inside(counts, k.0, k.1))
    && (forall h :: st.Complete(h) ==> Whole(sha, counts, st, h))
  }

  lemma WholeSame(sha: Sha, counts: Counts, a: Store, b: Store, h: Hash)
    requires forall k | k in a.chunks && k.0 == h :: k in b.chunks && b.chunks[k] == a.chunks[k]
    requires Whole(sha, counts, a, h)
    ensures Whole(sha, counts, b, h)
  {
    var n :| counts(h, n) && Hashes(sha, a, h, n);
    forall i: nat | i < n ensures (h, i) in b.chunks && b.chunks[(h, i)] == a.chunks[(h, i)] {
      assert (h, i).0 == h;
    }
    RangeSame(a, b, h, 0, n);
    assert Hashes(sha, b, h, n);
  }

  lemma LossKeepsCorrect(sha: Sha, counts: Counts, a: Store, b: Store)
    requires Correct(sha, counts, a) && OnlyLoses(a, b)
    ensures Correct(sha, counts, b)
  {
    hide Whole, Inside;
    forall k | k in b.chunks ensures b.chunks[k] != [] && Inside(counts, k.0, k.1) {
      assert NoMoreOf(k.0, a, b);
    }
    forall h | b.Complete(h) ensures Whole(sha, counts, b, h) {
      assert NoMoreOf(h, a, b) && NoneLostOf(h, a, b);
      WholeSame(sha, counts, a, b, h);
    }
  }

  lemma PutKeepsCorrect(sha: Sha, counts: Counts, st: Store, h: Hash, idx: nat, content: Bytes)
    requires Correct(sha, counts, st) && Inside(counts, h, idx) && content != []
    ensures Correct(sha, counts, st.Put(h, idx, content))
  {
    hide Whole, Inside;
    var t := st.Put(h, idx, content);
    forall g | t.Complete(g) ensures Whole(sha, counts, t, g) {
      assert st.Complete(g);
      WholeSame(sha, counts, st, t, g);
    }
  }

  lemma MarkKeepsCorrect(sha: Sha, counts: Counts, st: Store, h: Hash)
    requires Correct(sha, counts, st) && Whole(sha, counts, st, h)
    ensures Correct(sha, counts, st.MarkComplete(h))
  {
    hide Whole, Inside;
    var t := st.MarkComplete(h);
    forall g | t.Complete(g) ensures Whole(sha, counts, t, g) {
      assert g == h || st.Complete(g);
      WholeSame(sha, counts, st, t, g);
    }
  }

  lemma DeletingLoses(st: Store, h: Hash, size: nat)
    ensures OnlyLoses(st, st.Delete(h)) && OnlyLoses(st, st.Delete(h).Begin(h, size, false))
  {
  }

  lemma {:induction false} TakeInKeepsCorrect(sha: Sha, counts: Counts, m: Manifest, list: seq<Bytes>, full: set<nat>,
                                              held: set<nat>, st: Store, data: Bytes, offset: nat, idx: nat, stored: nat)
    requires |list| == ChunkCount(m.size) && offset <= |data|
    requires Correct(sha, counts, st) && counts(m.hash, ChunkCount(m.size))
    ensures Correct(sha, counts, TakeIn(sha, m, list, full, held, st, data, offset, idx, stored).store)
    decreases |list| - idx
  {
    hide Correct, TakeIn, Takes;
    TakeInStep(sha, m, list, full, held, st, data, offset, idx, stored);
    if Takes(sha, m, list, full, st, data, offset, idx) {
      var end := offset + ChunkSizeAt(m.size, idx);
      PutKeepsCorrect(sha, counts, st, m.hash, idx, data[offset..end]);
      TakeInKeepsCorrect(sha, counts, m, list, full, held + {idx}, st.Put(m.hash, idx, data[offset..end]), data, end, idx + 1, stored + 1);
    }
  }

  /** The whole-file check marks complete only chunks that are all there and hash to the address. */
  lemma CompletionIsCorrect(sha: Sha, counts: Counts, around: Around, dl: Dl, st: Store, served: bool)
    requires Correct(sha, counts, st) && counts(dl.Hash(), dl.Count())
    ensures Correct(sha, counts, CompleteFile(sha, around, dl, st, served).store)
  {
    var h, n := dl.Hash(), dl.Count();
    hide Candidates, ToSet;
    if |st.Range(h, 0, n)| == n && sha(st.Content(h, n)) == h {
      RangeOfAll(st, h, 0, n);
      assert Hashes(sha, st, h, n);
      MarkKeepsCorrect(sha, counts, st, h);
    } else {
      DeletingLoses(st, h, dl.manifest.size);
      LossKeepsCorrect(sha, counts, st, st.Delete(h));
      LossKeepsCorrect(sha, counts, st, st.Delete(h).Begin(h, dl.manifest.size, false));
    }
  }

  lemma AnswerKeepsCorrect(sha: Sha, counts: Counts, around: Around, full: set<nat>, dl: Dl, st: Store, answer: Answer)
    requires ListFits(dl) && Correct(sha, counts, st) && counts(dl.Hash(), dl.Count())
    ensures Correct(sha, counts, OnAnswer(sha, around, full, dl, st, answer).store)
  {
    hide Correct, CompleteFile, TakeIn;
    var d := dl.(fetch := None);
    if answer.Reply? && !dl.wantsList && d.NextIndex().Some? && d.chunkList.Some? {
      var first := d.NextIndex().value;
      TakeInKeepsCorrect(sha, counts, d.manifest, d.chunkList.value, full, d.held, st, answer.payload, 0, first, 0);
      var t := TakeIn(sha, d.manifest, d.chunkList.value, full, d.held, st, answer.payload, 0, first, 0);
      forall next: Dl, served: bool | next.manifest == dl.manifest
        ensures Correct(sha, counts, CompleteFile(sha, around, next, t.store, served).store)
      {
        CompletionIsCorrect(sha, counts, around, next, t.store, served);
      }
    }
  }

  /* Sharing. */

  /** What an interrupted download may have left behind agrees with the bytes now shared. */
  ghost predicate LeftoversAgree(st: Store, h: Hash, data: Bytes) {
    forall i: nat | (h, i) in st.chunks :: i < ChunkCount(|data|) && st.chunks[(h, i)] == Chunk(data, i)
  }

  /** Exactly the chunks of these bytes are stored under this hash. */
  ghost predicate HoldsExactly(st: Store, h: Hash, data: Bytes) {
    LeftoversAgree(st, h, data) && HasAll(st, h, 0, ChunkCount(|data|))
  }

  /** A share that goes through marks the file complete; it is the shared bytes
      that are stored exactly when no chunk left over from a download disagrees
      with them, because storing a chunk never replaces one. */
  lemma ShareStoresDataIffLeftoversAgree(sha: Sha, s: State, data: Bytes, full: set<nat>)
    requires data != [] && !s.store.Complete(sha(data))
    requires PutAll(s.store.Begin(sha(data), |data|, true), sha(data), data, 0, full).Some?
    ensures var h, t := sha(data), Share(sha, s, data, true, full).store;
            && t.Complete(h)
            && (HoldsExactly(t, h, data) <==> LeftoversAgree(s.store, h, data))
            && (HoldsExactly(t, h, data) ==> t.Content(h, ChunkCount(|data|)) == data)
  {
    var h, t := sha(data), Share(sha, s, data, true, full).store;
    var begun := s.store.Begin(h, |data|, true);
    PutAllResult(begun, h, data, 0, full);
    assert begun.chunks == s.store.chunks;
    if LeftoversAgree(s.store, h, data) {
      forall i: nat | (h, i) in t.chunks ensures i < ChunkCount(|data|) && t.chunks[(h, i)] == Chunk(data, i) {
        assert (h, i) in begun.chunks || (h, i) !in begun.chunks;
      }
    }
    if HoldsExactly(t, h, data) {
      ContentIsFile(t, h, data);
      forall i: nat | (h, i) in s.store.chunks ensures i < ChunkCount(|data|) && s.store.chunks[(h, i)] == Chunk(data, i) {
        assert t.chunks[(h, i)] == s.store.chunks[(h, i)];
      }
    }
  }

  /** What may have been left behind of the chunks of these bytes agrees with them. */
  ghost predicate LeftoversBelowAgree(st: Store, h: Hash, data: Bytes) {
    forall i: nat | i < ChunkCount(|data|) && (h, i) in st.chunks :: st.chunks[(h, i)] == Chunk(data, i)
  }

  /** The first chunks of a file that a share completed are those shared, exactly if no leftover among them disagrees. */
  lemma ShareIsWholeIffLeftoversBelowAgree(sha: Sha, s: State, data: Bytes, full: set<nat>)
    requires data != [] && !s.store.Complete(sha(data))
    requires PutAll(s.store.Begin(sha(data), |data|, true), sha(data), data, 0, full).Some?
    ensures var h, n, t := sha(data), ChunkCount(|data|), Share(sha, s, data, true, full).store;
            && HasAll(t, h, 0, n)
            && (t.Range(h, 0, n) == ChunkRange(data, 0, n) <==> LeftoversBelowAgree(s.store, h, data))
            && (LeftoversBelowAgree(s.store, h, data) ==> t.Content(h, n) == data)
  {
    var h, n, t := sha(data), ChunkCount(|data|), Share(sha, s, data, true, full).store;
    var begun := s.store.Begin(h, |data|, true);
    PutAllResult(begun, h, data, 0, full);
    hide PutAll;
    RangeOfAll(t, h, 0, n);
    forall i: nat | i < n ensures t.chunks[(h, i)] == if (h, i) in s.store.chunks then s.store.chunks[(h, i)] else Chunk(data, i) {
      assert (h, i) in t.chunks && begun.chunks == s.store.chunks;
    }
    assert forall i: nat | i < n :: t.Range(h, 0, n)[i] == t.chunks[(h, i)];
    ChunksJoinToFile(data);
  }

  /* What is handed out. */

  /** One past the greatest of some indices. */
  function End(indices: set<nat>): (r: nat)
    ensures forall i | i in indices :: i < r
    ensures r > 0 ==> r - 1 in indices
  {
    var negated: set<int> := set i: nat | i in indices :: -(i as int);
    assert forall i | i in indices :: -(i as int) in negated;
    if negated == {} then 0 else 1 - Least(negated)
  }

  /** Reading a complete file joins every chunk row it has, whatever its count. */
  function Assembled(st: Store, h: Hash): Bytes { st.Content(h, End(st.Indices(h))) }

  predicate NothingPast(st: Store, h: Hash, n: nat) {
    forall i | i in st.Indices(h) :: i < n
  }

  lemma {:induction false} RangeSplits(st: Store, h: Hash, first: nat, mid: nat, last: nat)
    requires first <= mid <= last
    ensures st.Range(h, first, last) == st.Range(h, first, mid) + st.Range(h, mid, last)
    decreases mid - first
  {
    if first < mid {
      RangeSplits(st, h, first + 1, mid, last);
    }
  }

  lemma {:induction false} RangeHoldsBytes(st: Store, h: Hash, first: nat, last: nat, i: nat)
    requires first <= i < last && (h, i) in st.chunks && st.chunks[(h, i)] != []
    ensures Join(st.Range(h, first, last)) != []
    decreases last - first
  {
    var r := st.Range(h, first, last);
    if (h, first) in st.chunks {
      assert r[0] == st.chunks[(h, first)] && r[1..] == st.Range(h, first + 1, last);
    } else {
      assert r == st.Range(h, first + 1, last);
    }
    if first < i {
      RangeHoldsBytes(st, h, first + 1, last, i);
    }
  }

  /** What is handed out is the first n chunks exactly if no chunk row lies past them. */
  lemma HandedOutIffNothingPast(st: Store, h: Hash, n: nat)
    requires HasAll(st, h, 0, n) && forall k | k in st.chunks :: st.chunks[k] != []
    ensures Assembled(st, h) == st.Content(h, n) <==> NothingPast(st, h, n)
  {
    var e := End(st.Indices(h));
    if e <= n {
      if n > 0 {
        assert (h, n - 1) in st.chunks && n - 1 in st.Indices(h);
      }
    } else {
      assert (h, e - 1) in st.chunks;
      RangeSplits(st, h, 0, n, e);
      JoinAppend(st.Range(h, 0, n), st.Range(h, n, e));
      RangeHoldsBytes(st, h, n, e, e - 1);
    }
  }

  /* Whole runs. */

  /** Every tracked download is filed under its hash, with a count that its hash is given and a chunk list that fits. */
  ghost predicate Filed(counts: Counts, s: State) {
    forall h | h in s.downloads :: FiledUnder(counts, h, s.downloads[h])
  }

  predicate FiledUnder(counts: Counts, h: Hash, dl: Dl) {
    dl.Hash() == h && counts(h, dl.Count()) && ListFits(dl)
  }

  lemma StaysFiled(counts: Counts, h: Hash, dl: Dl, d: Dl)
    requires FiledUnder(counts, h, dl) && d.manifest == dl.manifest && d.chunkList == dl.chunkList
    ensures FiledUnder(counts, h, d)
  {
  }

  /** Every row has a count that its hash is given. */
  predicate RowsFit(counts: Counts, st: Store) {
    forall h | h in st.rows :: counts(h, st.rows[h].chunkCount)
  }

  ghost predicate Consistent(sha: Sha, counts: Counts, s: State) {
    Correct(sha, counts, s.store) && Filed(counts, s) && RowsFit(counts, s.store)
  }

  lemma RowsFromFit(counts: Counts, a: Store, b: Store, downloads: map<Hash, Dl>)
    requires RowsFit(counts, a) && RowsFrom(a, b, downloads) && forall h | h in downloads :: FiledUnder(counts, h, downloads[h])
    ensures RowsFit(counts, b)
  {
  }

  /** A share that goes through meets no disagreeing leftover among its chunks; counts covers what manifests and shares say. */
  ghost predicate Agreed(sha: Sha, counts: Counts, s: State, e: Event) {
    match e
    case Shared(data, room, full) =>
      && counts(sha(data), ChunkCount(|data|))
      && (!s.store.Complete(sha(data)) && room && HasRoom(s.store, sha(data), 0, ChunkCount(|data|), full) ==>
            LeftoversBelowAgree(s.store, sha(data), data))
    case Requested(_, m, _) => counts(m.hash, ChunkCount(m.size))
    case _ => true
  }

  lemma {:induction false} PutAllKeepsCorrect(sha: Sha, counts: Counts, st: Store, h: Hash, data: Bytes, from: nat, full: set<nat>)
    requires from <= ChunkCount(|data|) && PutAll(st, h, data, from, full).Some?
    requires Correct(sha, counts, st) && counts(h, ChunkCount(|data|))
    ensures Correct(sha, counts, PutAll(st, h, data, from, full).value)
    decreases ChunkCount(|data|) - from
  {
    hide Correct;
    if from < ChunkCount(|data|) {
      ChunkBounds(|data|, from);
      PutKeepsCorrect(sha, counts, st, h, from, Chunk(data, from));
      PutAllKeepsCorrect(sha, counts, st.Put(h, from, Chunk(data, from)), h, data, from + 1, full);
    }
  }

  lemma BeginningLoses(st: Store, h: Hash, size: nat, own: bool)
    ensures OnlyLoses(st, st.Begin(h, size, own))
  {
  }

  lemma ShareKeepsCorrect(sha: Sha, counts: Counts, s: State, data: Bytes, room: bool, full: set<nat>)
    requires Correct(sha, counts, s.store) && Agreed(sha, counts, s, Shared(data, room, full))
    ensures Correct(sha, counts, Share(sha, s, data, room, full).store)
  {
    var h := sha(data);
    var begun := s.store.Begin(h, |data|, true);
    BeginningLoses(s.store, h, |data|, true);
    LossKeepsCorrect(sha, counts, s.store, begun);
    DeletingLoses(s.store, h, 0);
    LossKeepsCorrect(sha, counts, s.store, s.store.Delete(h));
    hide OnlyLoses;
    if data != [] && s.store.Complete(h) {
      assert begun.Complete(h);
      MarkKeepsCorrect(sha, counts, begun, h);
    } else if data != [] && room && PutAll(begun, h, data, 0, full).Some? {
      PutAllNeedsRoom(begun, h, data, 0, full);
      assert HasRoom(s.store, h, 0, ChunkCount(|data|), full);
      StoredShareIsCorrect(sha, counts, s, data, full);
    }
  }

  lemma StoredShareIsCorrect(sha: Sha, counts: Counts, s: State, data: Bytes, full: set<nat>)
    requires data != [] && !s.store.Complete(sha(data)) && PutAll(s.store.Begin(sha(data), |data|, true), sha(data), data, 0, full).Some?
    requires Correct(sha, counts, s.store.Begin(sha(data), |data|, true)) && counts(sha(data), ChunkCount(|data|))
    requires LeftoversBelowAgree(s.store, sha(data), data)
    ensures Correct(sha, counts, Share(sha, s, data, true, full).store)
  {
    var h, n := sha(data), ChunkCount(|data|);
    var begun := s.store.Begin(h, |data|, true);
    PutAllKeepsCorrect(sha, counts, begun, h, data, 0, full);
    PutAllResult(begun, h, data, 0, full);
    hide PutAll, LeftoversBelowAgree, Correct;
    var t := PutAll(begun, h, data, 0, full).value;
    ShareIsWholeIffLeftoversBelowAgree(sha, s, data, full);
    RangeSame(t, t.MarkComplete(h), h, 0, n);
    assert Hashes(sha, t, h, n);
    MarkKeepsCorrect(sha, counts, t, h);
  }

  lemma CompletionRows(sha: Sha, counts: Counts, around: Around, dl: Dl, st: Store, served: bool)
    requires RowsFit(counts, st) && counts(dl.Hash(), dl.Count())
    ensures RowsFit(counts, CompleteFile(sha, around, dl, st, served).store)
  {
    hide Candidates, ToSet, Store.Range, Store.Content;
  }

  lemma AnswerRows(sha: Sha, counts: Counts, around: Around, full: set<nat>, dl: Dl, st: Store, answer: Answer)
    requires ListFits(dl) && RowsFit(counts, st) && counts(dl.Hash(), dl.Count())
    ensures RowsFit(counts, OnAnswer(sha, around, full, dl, st, answer).store)
  {
    hide RowsFit, CompleteFile, TakeIn;
    var d := dl.(fetch := None);
    if answer.Reply? && !dl.wantsList && d.NextIndex().Some? && d.chunkList.Some? {
      var first := d.NextIndex().value;
      TakeInKeepsRows(sha, d.manifest, d.chunkList.value, full, d.held, st, answer.payload, 0, first, 0);
      var t := TakeIn(sha, d.manifest, d.chunkList.value, full, d.held, st, answer.payload, 0, first, 0);
      SameRowsFit(counts, st, t.store);
      forall next: Dl, served: bool | next.manifest == dl.manifest
        ensures RowsFit(counts, CompleteFile(sha, around, next, t.store, served).store)
      {
        CompletionRows(sha, counts, around, next, t.store, served);
      }
    }
  }

  lemma SameRowsFit(counts: Counts, a: Store, b: Store)
    requires RowsFit(counts, a) && b.rows == a.rows
    ensures RowsFit(counts, b)
  {
  }

  lemma {:induction false} TakeInKeepsRows(sha: Sha, m: Manifest, list: seq<Bytes>, full: set<nat>,
                                           held: set<nat>, st: Store, data: Bytes, offset: nat, idx: nat, stored: nat)
    requires |list| == ChunkCount(m.size) && offset <= |data|
    ensures TakeIn(sha, m, list, full, held, st, data, offset, idx, stored).store.rows == st.rows
    decreases |list| - idx
  {
    hide TakeIn, Takes;
    TakeInStep(sha, m, list, full, held, st, data, offset, idx, stored);
    if Takes(sha, m, list, full, st, data, offset, idx) {
      var end := offset + ChunkSizeAt(m.size, idx);
      TakeInKeepsRows(sha, m, list, full, held + {idx}, st.Put(m.hash, idx, data[offset..end]), data, end, idx + 1, stored + 1);
    }
  }

  lemma ResultKeepsConsistent(sha: Sha, counts: Counts, w: World, full: set<nat>, s: State, id: FetchId, answer: Answer)
    requires Consistent(sha, counts, s) && Fits(s)
    ensures Consistent(sha, counts, OnResult(sha, w, full, s, id, answer))
  {
    hide OnAnswer, Correct, RowsFit, AroundOf, SlotFits;
    if Expects(s, id) {
      var h := s.byFetch[id];
      var dl := s.downloads[h];
      AnswerKeepsCorrect(sha, counts, AroundOf(w, s, h), full, dl, s.store, answer);
      AnswerRows(sha, counts, AroundOf(w, s, h), full, dl, s.store, answer);
      AnswerKeeps(sha, AroundOf(w, s, h), full, dl, s.store, answer);
    }
  }

  /** A step that takes nothing in, and leaves every download for the file it was for. */
  lemma LossKeepsConsistent(sha: Sha, counts: Counts, s: State, t: State)
    requires Consistent(sha, counts, s) && OnlyLoses(s.store, t.store) && t.downloads.Keys <= s.downloads.Keys
    requires RowsFrom(s.store, t.store, s.downloads)
    requires forall h | h in t.downloads :: t.downloads[h].manifest == s.downloads[h].manifest && t.downloads[h].chunkList == s.downloads[h].chunkList
    ensures Consistent(sha, counts, t)
  {
    LossKeepsCorrect(sha, counts, s.store, t.store);
    RowsFromFit(counts, s.store, t.store, s.downloads);
    hide Correct, OnlyLoses, FiledUnder, RowsFit;
    forall h | h in t.downloads ensures FiledUnder(counts, h, t.downloads[h]) {
      StaysFiled(counts, h, s.downloads[h], t.downloads[h]);
    }
  }

  lemma RequestKeepsConsistent(sha: Sha, counts: Counts, w: World, s: State, m: Manifest, sender: Option<Peer>)
    requires Consistent(sha, counts, s) && counts(m.hash, ChunkCount(m.size))
    ensures Consistent(sha, counts, RequestDownload(w, s, m, sender))
  {
    RequestEffect(w, s, m, sender);
    RequestRows(w, s, m, sender);
    assert FiledUnder(counts, m.hash, Fresh(m));
    hide Correct, OnlyLoses, RequestDownload, FiledUnder, RowsFit, RowsFrom;
    var h, t := m.hash, RequestDownload(w, s, m, sender);
    RowsFromFit(counts, s.store, t.store, map[h := if h in s.downloads then s.downloads[h] else Fresh(m)]);
    LossKeepsCorrect(sha, counts, s.store, t.store);
    StaysFiled(counts, h, if h in s.downloads then s.downloads[h] else Fresh(m), t.downloads[h]);
  }

  lemma ShareKeepsConsistent(sha: Sha, counts: Counts, s: State, data: Bytes, room: bool, full: set<nat>)
    requires Consistent(sha, counts, s) && Agreed(sha, counts, s, Shared(data, room, full))
    ensures Consistent(sha, counts, Share(sha, s, data, room, full))
  {
    hide Correct, LeftoversBelowAgree, HasRoom, Share, RowsFit;
    ShareKeepsCorrect(sha, counts, s, data, room, full);
    ShareRows(sha, counts, s, data, room, full);
    ShareStaysInStore(sha, s, data, room, full);
  }

  lemma ShareRows(sha: Sha, counts: Counts, s: State, data: Bytes, room: bool, full: set<nat>)
    requires RowsFit(counts, s.store) && counts(sha(data), ChunkCount(|data|))
    ensures RowsFit(counts, Share(sha, s, data, room, full).store)
  {
    var begun := s.store.Begin(sha(data), |data|, true);
    if PutAll(begun, sha(data), data, 0, full).Some? {
      PutAllResult(begun, sha(data), data, 0, full);
    }
    hide PutAll;
  }

  lemma PumpKeepsConsistent(sha: Sha, counts: Counts, w: World, s: State)
    requires Consistent(sha, counts, s)
    ensures Consistent(sha, counts, Prepare(w, s).state)
  {
    hide Consistent, Prepare, OnlyLoses;
    PrepareTakesNothingIn(w, s);
    LossKeepsConsistent(sha, counts, s, Prepare(w, s).state);
  }

  lemma PruneKeepsConsistent(sha: Sha, counts: Counts, s: State, deleted: set<Hash>)
    requires Consistent(sha, counts, s)
    ensures Consistent(sha, counts, Prune(s, deleted))
  {
    hide Consistent, OnlyLoses;
    DeletingManyLoses(s.store, deleted);
    assert RowsFrom(s.store, s.store.DeleteAll(deleted), s.downloads);
    LossKeepsConsistent(sha, counts, s, Prune(s, deleted));
  }

  lemma RequeuingKeepsConsistent(sha: Sha, counts: Counts, s: State, e: Event)
    requires Consistent(sha, counts, s) && (e.Appeared? || e.Retried?) && Fits(s)
    ensures Consistent(sha, counts, Step(sha, s, e))
  {
    hide Consistent, OnlyLoses, Fits;
    SameTables(s.store);
    LossKeepsConsistent(sha, counts, s, Step(sha, s, e));
  }

  lemma StepKeepsConsistent(sha: Sha, counts: Counts, s: State, e: Event)
    requires Consistent(sha, counts, s) && Agreed(sha, counts, s, e) && Fits(s)
    ensures Consistent(sha, counts, Step(sha, s, e))
  {
    hide Consistent, Share, RequestDownload, OnResult, Prepare, Prune, PeerAppeared, RetryParked, LeftoversBelowAgree, HasRoom, Fits;
    match e {
      case Shared(data, room, full) => ShareKeepsConsistent(sha, counts, s, data, room, full);
      case Requested(w, m, sender) => RequestKeepsConsistent(sha, counts, w, s, m, sender);
      case Answered(w, full, id, answer) => ResultKeepsConsistent(sha, counts, w, full, s, id, answer);
      case Pumped(w) => PumpKeepsConsistent(sha, counts, w, s);
      case Pruned(deleted) => PruneKeepsConsistent(sha, counts, s, deleted);
      case _ => RequeuingKeepsConsistent(sha, counts, s, e);
    }
  }

  lemma DeletingManyLoses(st: Store, gone: set<Hash>)
    ensures OnlyLoses(st, st.DeleteAll(gone))
  {
  }

  ghost predicate AllAgreed(sha: Sha, counts: Counts, s: State, es: seq<Event>)
    decreases |es|
  {
    es != [] && Fits(s) ==> Agreed(sha, counts, s, es[0]) && AllAgreed(sha, counts, Step(sha, s, es[0]), es[1..])
  }

  lemma {:induction false} RunKeepsConsistent(sha: Sha, counts: Counts, s: State, es: seq<Event>)
    requires Consistent(sha, counts, s) && AllAgreed(sha, counts, s, es)
    ensures Consistent(sha, counts, Run(sha, s, es))
    decreases |es|
  {
    if es != [] {
      assert Fits(s);
      hide Step, Consistent, Agreed, Fits;
      StepKeepsConsistent(sha, counts, s, es[0]);
      RunKeepsConsistent(sha, counts, Step(sha, s, es[0]), es[1..]);
    }
  }

  /** Any count whatever for any hash. */
  function AnyCounts(): Counts { (h, n) => true }

  /** In every reachable state, whatever holders answer, whatever sizes the
      manifests of one hash claim and whatever the store evicts, the first
      chunks of a complete file are there and hash to its address; and they are
      what is handed out exactly if no chunk row lies past them. */
  lemma CompleteMeansCorrect(sha: Sha, s: State, es: seq<Event>, h: Hash) returns (n: nat)
    requires Consistent(sha, AnyCounts(), s) && AllAgreed(sha, AnyCounts(), s, es)
    ensures Run(sha, s, es).store.Complete(h) ==> Hashes(sha, Run(sha, s, es).store, h, n)
    ensures var st := Run(sha, s, es).store;
            st.Complete(h) ==> (Assembled(st, h) == st.Content(h, n) <==> NothingPast(st, h, n))
  {
    RunKeepsConsistent(sha, AnyCounts(), s, es);
    var st := Run(sha, s, es).store;
    hide Run, AllAgreed, Filed;
    n := 0;
    if st.Complete(h) {
      n :| AnyCounts()(h, n) && Hashes(sha, st, h, n);
      HandedOutIffNothingPast(st, h, n);
    }
  }

  /** Where every manifest and share gives a hash one count, what is handed out
      as a complete file always hashes to its address, and every row has that count. */
  lemma OneSizeIsHandedOut(sha: Sha, count: Hash -> nat, s: State, es: seq<Event>, h: Hash)
    requires var counts := (g, n) => n == count(g); Consistent(sha, counts, s) && AllAgreed(sha, counts, s, es)
    ensures var st := Run(sha, s, es).store;
            && (st.Complete(h) ==> sha(Assembled(st, h)) == h)
            && (h in st.rows ==> st.rows[h].chunkCount == count(h))
  {
    var counts := (g, n) => n == count(g);
    RunKeepsConsistent(sha, counts, s, es);
    var st := Run(sha, s, es).store;
    hide Run, AllAgreed, Filed;
    if st.Complete(h) {
      var n :| counts(h, n) && Hashes(sha, st, h, n);
      HandedOutIffNothingPast(st, h, n);
      forall i | i in st.Indices(h) ensures i < n {
        assert (h, i) in st.chunks && Inside(counts, (h, i).0, i);
      }
    }
  }

  /** A node that tracks nothing yet, and a restart on correct tables, meet what every run keeps. */
  lemma StartIsConsistent(sha: Sha, counts: Counts, st: Store, listed: seq<Hash>, told: map<Hash, Told>)
    requires Correct(sha, counts, st) && RowsFit(counts, st) && Telling(told) && forall h | h in told :: counts(h, ChunkCount(told[h].manifest.size))
    ensures Consistent(sha, counts, Start())
    ensures Consistent(sha, counts, Restored(st, listed, told))
  {
    hide Whole, Inside;
  }
}
