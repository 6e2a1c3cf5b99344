/** What a reply decides: which of its chunks are taken, who becomes suspect for
    it, and that a suspect is never asked again. */
module EngineBlame {
  import opened Prelude
  import opened Chunks
  import opened FileStore
  import opened Download
  import opened Engine
  import opened EngineRuns
  import opened EngineScheduler
  import opened EngineSafety
  import opened EngineTrust

  /* A reply, read without the loop that takes it in. */

  /** The reply reaches to the end of the chunk that its k-th piece is for. */
  predicate IsThere(m: Manifest, payload: Bytes, first: nat, k: nat) {
    first + k < ChunkCount(m.size) && k * FILE_CHUNK_BYTES + ChunkSizeAt(m.size, first + k) <= |payload|
  }

  function Piece(m: Manifest, payload: Bytes, first: nat, k: nat): Bytes
    requires IsThere(m, payload, first, k)
  {
    ChunkBounds(m.size, first + k);
    payload[k * FILE_CHUNK_BYTES..k * FILE_CHUNK_BYTES + ChunkSizeAt(m.size, first + k)]
  }

  predicate Matches(sha: Sha, m: Manifest, list: seq<Bytes>, payload: Bytes, first: nat, k: nat)
    requires |list| == ChunkCount(m.size)
  {
    IsThere(m, payload, first, k) && sha(Piece(m, payload, first, k)) == list[first + k]
  }

  predicate Fitting(h: Hash, full: set<nat>, st: Store, i: nat) {
    (h, i) in st.chunks || i !in full
  }

  predicate Usable(sha: Sha, m: Manifest, list: seq<Bytes>, full: set<nat>, st: Store, payload: Bytes, first: nat, k: nat)
    requires |list| == ChunkCount(m.size)
  {
    Matches(sha, m, list, payload, first, k) && Fitting(m.hash, full, st, first + k)
  }

  /** The first n pieces match and can be stored, and the next does not or cannot, or is not there. */
  ghost predicate UsableRun(sha: Sha, m: Manifest, list: seq<Bytes>, full: set<nat>, st: Store, payload: Bytes, first: nat, n: nat)
    requires |list| == ChunkCount(m.size)
  {
    (forall k: nat | k < n :: Usable(sha, m, list, full, st, payload, first, k)) && !Usable(sha, m, list, full, st, payload, first, n)
  }

  lemma {:induction false} RunExists(sha: Sha, m: Manifest, list: seq<Bytes>, full: set<nat>, st: Store, payload: Bytes, first: nat, k: nat)
    returns (n: nat)
    requires |list| == ChunkCount(m.size)
    requires forall i: nat | i < k :: Usable(sha, m, list, full, st, payload, first, i)
    ensures UsableRun(sha, m, list, full, st, payload, first, n)
    decreases ChunkCount(m.size) - first - k
  {
    if Usable(sha, m, list, full, st, payload, first, k) {
      hide Usable;
      assert Matches(sha, m, list, payload, first, k) by { UsableIsThere(sha, m, list, full, st, payload, first, k); }
      n := RunExists(sha, m, list, full, st, payload, first, k + 1);
    } else {
      n := k;
    }
  }

  lemma UsableIsThere(sha: Sha, m: Manifest, list: seq<Bytes>, full: set<nat>, st: Store, payload: Bytes, first: nat, k: nat)
    requires |list| == ChunkCount(m.size) && Usable(sha, m, list, full, st, payload, first, k)
    ensures Matches(sha, m, list, payload, first, k) && IsThere(m, payload, first, k) && first + k < ChunkCount(m.size)
  {
  }

  /** The first n pieces entered in the tables, where no chunk is there already. */
  function Entered(st: Store, m: Manifest, payload: Bytes, first: nat, n: nat): Store
    requires forall k: nat | k < n :: IsThere(m, payload, first, k)
  {
    if n == 0 then st else Entered(st, m, payload, first, n - 1).Put(m.hash, first + n - 1, Piece(m, payload, first, n - 1))
  }

  lemma {:induction false} EnteredHas(st: Store, m: Manifest, payload: Bytes, first: nat, n: nat, i: nat)
    requires forall k: nat | k < n :: IsThere(m, payload, first, k)
    ensures (m.hash, i) in Entered(st, m, payload, first, n).chunks <==> (m.hash, i) in st.chunks || first <= i < first + n
    ensures Entered(st, m, payload, first, n).rows == st.rows
  {
    if n > 0 {
      EnteredHas(st, m, payload, first, n - 1, i);
    }
  }

  /** Where the piece after the first k starts. */
  function Behind(m: Manifest, first: nat, k: nat): int {
    if k == 0 then 0 else (k - 1) * FILE_CHUNK_BYTES + ChunkSizeAt(m.size, first + k - 1)
  }

  lemma BehindIsNext(m: Manifest, first: nat, k: nat)
    requires k > 0 ==> first + k - 1 < ChunkCount(m.size)
    ensures first + k < ChunkCount(m.size) ==> Behind(m, first, k) == k * FILE_CHUNK_BYTES
    ensures Behind(m, first, k) >= 0
  {
    if k > 0 {
      ChunkBounds(m.size, first + k - 1);
    }
  }

  /** Why the run ends where it does. */
  function StopAt(sha: Sha, m: Manifest, list: seq<Bytes>, payload: Bytes, first: nat, n: nat): Stop
    requires |list| == ChunkCount(m.size)
  {
    if IsThere(m, payload, first, n) then (if Matches(sha, m, list, payload, first, n) then DiskFull else BadChunk)
    else if first + n < ChunkCount(m.size) && Behind(m, first, n) < |payload| then Short
    else Consumed
  }

  lemma LastOf(sha: Sha, m: Manifest, list: seq<Bytes>, full: set<nat>, st: Store, payload: Bytes, first: nat, n: nat)
    requires |list| == ChunkCount(m.size) && UsableRun(sha, m, list, full, st, payload, first, n)
    ensures n > 0 ==> first + n - 1 < ChunkCount(m.size) && IsThere(m, payload, first, n - 1)
    ensures forall k: nat | k < n :: IsThere(m, payload, first, k)
    ensures 0 <= Behind(m, first, n) <= |payload|
  {
    forall k: nat | k < n ensures IsThere(m, payload, first, k) {
      UsableIsThere(sha, m, list, full, st, payload, first, k);
    }
    if n > 0 {
      assert IsThere(m, payload, first, n - 1);
      BehindIsNext(m, first, n);
    }
  }

  lemma OneTaken(sha: Sha, m: Manifest, list: seq<Bytes>, full: set<nat>, held: set<nat>, st: Store, payload: Bytes,
                 first: nat, k: nat, n: nat)
    requires |list| == ChunkCount(m.size) && UsableRun(sha, m, list, full, st, payload, first, n) && k < n
    requires forall i: nat | i < n :: IsThere(m, payload, first, i)
    ensures 0 <= Behind(m, first, k) <= |payload| && 0 <= Behind(m, first, k + 1) <= |payload|
    ensures TakeIn(sha, m, list, full, held, Entered(st, m, payload, first, k), payload, Behind(m, first, k), first + k, k)
            == TakeIn(sha, m, list, full, held + {first + k}, Entered(st, m, payload, first, k + 1), payload, Behind(m, first, k + 1), first + k + 1, k + 1)
  {
    hide TakeIn, Takes, Entered, ChunkSizeAt, ChunkCount, Usable, Piece, IsThere;
    assert Usable(sha, m, list, full, st, payload, first, k) && IsThere(m, payload, first, k);
    UsableIsTaken(sha, m, list, full, st, payload, first, k);
    NextEntered(st, m, payload, first, k);
    TakeInStep(sha, m, list, full, held, Entered(st, m, payload, first, k), payload, Behind(m, first, k), first + k, k);
  }

  lemma UsableIsTaken(sha: Sha, m: Manifest, list: seq<Bytes>, full: set<nat>, st: Store, payload: Bytes, first: nat, k: nat)
    requires |list| == ChunkCount(m.size) && Usable(sha, m, list, full, st, payload, first, k)
    requires forall i: nat | i <= k :: IsThere(m, payload, first, i)
    ensures var from, to := Behind(m, first, k), Behind(m, first, k + 1);
            && 0 <= from <= to <= |payload| && to == from + ChunkSizeAt(m.size, first + k)
            && payload[from..to] == Piece(m, payload, first, k)
            && Takes(sha, m, list, full, Entered(st, m, payload, first, k), payload, from, first + k)
  {
    hide Entered;
    BehindIsNext(m, first, k);
    ChunkBounds(m.size, first + k);
    EnteredHas(st, m, payload, first, k, first + k);
    hide ChunkSizeAt, ChunkCount;
  }

  lemma NextEntered(st: Store, m: Manifest, payload: Bytes, first: nat, k: nat)
    requires forall i: nat | i < k + 1 :: IsThere(m, payload, first, i)
    ensures Entered(st, m, payload, first, k + 1)
            == Entered(st, m, payload, first, k).Put(m.hash, first + k, Piece(m, payload, first, k))
  {
  }

  lemma NoneTaken(sha: Sha, m: Manifest, list: seq<Bytes>, full: set<nat>, held: set<nat>, st: Store, payload: Bytes, first: nat, n: nat)
    requires |list| == ChunkCount(m.size) && UsableRun(sha, m, list, full, st, payload, first, n)
    requires forall i: nat | i < n :: IsThere(m, payload, first, i)
    requires n > 0 ==> first + n - 1 < ChunkCount(m.size)
    requires 0 <= Behind(m, first, n) <= |payload|
    ensures var t := TakeIn(sha, m, list, full, held, Entered(st, m, payload, first, n), payload, Behind(m, first, n), first + n, n);
            t == Intake(held, Entered(st, m, payload, first, n), n, Behind(m, first, n), StopAt(sha, m, list, payload, first, n))
  {
    BehindIsNext(m, first, n);
    EnteredHas(st, m, payload, first, n, first + n);
    if first + n < ChunkCount(m.size) {
      ChunkBounds(m.size, first + n);
    }
    hide Entered, ChunkSizeAt;
  }

  lemma {:induction false} TakesTheRest(sha: Sha, m: Manifest, list: seq<Bytes>, full: set<nat>, held: set<nat>, st: Store, payload: Bytes,
                                        first: nat, k: nat, n: nat)
    requires |list| == ChunkCount(m.size) && UsableRun(sha, m, list, full, st, payload, first, n) && k <= n
    requires forall i: nat | i < n :: IsThere(m, payload, first, i)
    requires n > 0 ==> first + n - 1 < ChunkCount(m.size)
    requires 0 <= Behind(m, first, k) <= |payload| && 0 <= Behind(m, first, n) <= |payload|
    ensures TakeIn(sha, m, list, full, held, Entered(st, m, payload, first, k), payload, Behind(m, first, k), first + k, k)
            == Intake(held + Span(first + k, first + n), Entered(st, m, payload, first, n), n, Behind(m, first, n),
                      StopAt(sha, m, list, payload, first, n))
    decreases n - k
  {
    hide TakeIn, UsableRun, IsThere, Entered, Behind, StopAt;
    if k == n {
      NoneTaken(sha, m, list, full, held, st, payload, first, n);
      assert held + Span(first + n, first + n) == held;
    } else {
      OneTaken(sha, m, list, full, held, st, payload, first, k, n);
      TakesTheRest(sha, m, list, full, held + {first + k}, st, payload, first, k + 1, n);
      assert held + {first + k} + Span(first + k + 1, first + n) == held + Span(first + k, first + n);
    }
  }

  /** A reply is taken in exactly as far as its longest run of usable pieces. */
  lemma ReplyTakenAsFarAsUsable(sha: Sha, m: Manifest, list: seq<Bytes>, full: set<nat>, held: set<nat>, st: Store, payload: Bytes, first: nat, n: nat)
    requires |list| == ChunkCount(m.size) && UsableRun(sha, m, list, full, st, payload, first, n)
    ensures n > 0 ==> first + n - 1 < ChunkCount(m.size)
    ensures forall k: nat | k < n :: IsThere(m, payload, first, k)
    ensures var t := TakeIn(sha, m, list, full, held, st, payload, 0, first, 0);
            && t.held == held + Span(first, first + n) && t.store == Entered(st, m, payload, first, n) && t.stored == n
            && t.stop == StopAt(sha, m, list, payload, first, n)
  {
    hide TakeIn, UsableRun, IsThere, StopAt;
    LastOf(sha, m, list, full, st, payload, first, n);
    assert Behind(m, first, 0) == 0 && Entered(st, m, payload, first, 0) == st;
    TakesTheRest(sha, m, list, full, held, st, payload, first, 0, n);
  }

  /* Who is blamed, and what else the answer settles. */

  /** The next piece of the reply is all there, and is not the chunk it should be. */
  predicate BadAt(sha: Sha, m: Manifest, list: seq<Bytes>, payload: Bytes, first: nat, n: nat)
    requires |list| == ChunkCount(m.size)
  {
    IsThere(m, payload, first, n) && !Matches(sha, m, list, payload, first, n)
  }

  /** The next piece is the right one, and there is no room for it. */
  predicate NoRoomAt(sha: Sha, m: Manifest, list: seq<Bytes>, full: set<nat>, st: Store, payload: Bytes, first: nat, n: nat)
    requires |list| == ChunkCount(m.size)
  {
    Matches(sha, m, list, payload, first, n) && !Fitting(m.hash, full, st, first + n)
  }

  /** What an answer for chunks means for the download, given what the reply was:
      with a bad piece, or one there is no room for, where it stopped; whether
      anything was taken; and whether the count is then full, and the file right. */
  ghost predicate JudgedAs(dl: Dl, bad: bool, noRoom: bool, took: bool, whole: bool, right: bool, held: set<nat>, stored: Store, u: Turn) {
    var ends := !noRoom && took && whole;
    && (forall x: Peer :: x in u.dl.suspect
          <==> x in dl.suspect || (bad && Some(x) == dl.holder) || (ends && !right && (Some(x) == dl.holder || x in dl.contributors)))
    && (u.served <==> took && !bad && !noRoom)
    && (noRoom ==> u.dl.phase == Failed && u.dl.reason == Some(NoRoom) && u.dl.held == held && u.store == stored)
    && (ends && right ==> u.dl.phase == Done && u.store == stored.MarkComplete(dl.Hash()))
    && (ends && !right ==> u.dl.held == {} && u.dl.chunkList.None? && u.dl.phase in {Queued, Failed}
                           && u.store.chunks == stored.Delete(dl.Hash()).chunks)
    && (!noRoom && !ends ==> u.dl.phase == dl.phase && u.dl.held == held && u.store == stored)
    && u.dl.skipped == (if noRoom || bad then dl.skipped else if !took then With(dl.skipped, dl.holder) else {})
    && u.dl.attempts == (if took && !bad && !noRoom then 0 else dl.attempts)
    && (forall x: Peer :: x in u.dl.refused <==> x in dl.refused && !(took && !bad && !noRoom && Some(x) == dl.holder))
  }

  /** The same, read off the reply when its first n pieces are usable. */
  ghost predicate Judged(sha: Sha, full: set<nat>, dl: Dl, st: Store, payload: Bytes, n: nat, u: Turn)
    requires ListFits(dl) && dl.chunkList.Some? && dl.NextIndex().Some?
    requires forall k: nat | k < n :: IsThere(dl.manifest, payload, dl.NextIndex().value, k)
  {
    var m, list, first := dl.manifest, dl.chunkList.value, dl.NextIndex().value;
    var held, stored := dl.held + Span(first, first + n), Entered(st, m, payload, first, n);
    JudgedAs(dl, BadAt(sha, m, list, payload, first, n), NoRoomAt(sha, m, list, full, st, payload, first, n),
             n > 0, |held| >= dl.Count(), Hashes(sha, stored, dl.Hash(), dl.Count()), held, stored, u)
  }

  lemma CompletionJudged(sha: Sha, around: Around, dl: Dl, st: Store, served: bool)
    ensures var u := CompleteFile(sha, around, dl, st, served);
            var right := Hashes(sha, st, dl.Hash(), dl.Count());
            && u.dl.suspect == (if right then dl.suspect else dl.suspect + dl.contributors)
            && u.served == served && u.dl.skipped == dl.skipped && u.dl.attempts == dl.attempts && u.dl.refused == dl.refused
            && (right ==> u.dl.phase == Done && u.store == st.MarkComplete(dl.Hash()))
            && (!right ==> u.dl.held == {} && u.dl.chunkList.None? && u.dl.phase in {Queued, Failed} && u.store.chunks == st.Delete(dl.Hash()).chunks)
  {
    hide Candidates, ToSet, Store.Content, Store.Delete;
    RangeOfAll(st, dl.Hash(), 0, dl.Count());
  }

  lemma CreditJudged(dl: Dl, isSuspect: bool)
    ensures var d := Credited(dl, isSuspect);
            && d.manifest == dl.manifest && d.held == dl.held && d.phase == dl.phase && d.suspect == dl.suspect
            && d.contributors == With(dl.contributors, dl.holder)
            && d.skipped == (if isSuspect then dl.skipped else {}) && d.attempts == (if isSuspect then dl.attempts else 0)
            && d.refused == (if isSuspect || dl.holder.None? then dl.refused else dl.refused - {dl.holder.value})
  {
  }

  lemma IntakeJudged(sha: Sha, around: Around, dl: Dl, t: Intake)
    requires dl.holder.Some? && dl.holder.value !in dl.suspect
    ensures JudgedAs(dl, t.stop == BadChunk, t.stop == DiskFull, t.stored > 0, |t.held| >= dl.Count(),
                     Hashes(sha, t.store, dl.Hash(), dl.Count()), t.held, t.store, AfterIntake(sha, around, dl, t))
  {
    hide CompleteFile, Credited, Hashes, Store.Delete, Store.MarkComplete, RoundReset;
    var taken := dl.(held := t.held);
    var checked := if t.stop == BadChunk then taken.ResetWindow().(suspect := With(dl.suspect, dl.holder)) else taken;
    var isSuspect := dl.holder.Some? && dl.holder.value in checked.suspect;
    assert isSuspect <==> t.stop == BadChunk;
    CreditJudged(checked, isSuspect);
    CompletionJudged(sha, around, Credited(checked, isSuspect), t.store, !isSuspect);
  }

  lemma StopsAsItIs(sha: Sha, m: Manifest, list: seq<Bytes>, full: set<nat>, st: Store, payload: Bytes, first: nat, n: nat)
    requires |list| == ChunkCount(m.size) && UsableRun(sha, m, list, full, st, payload, first, n)
    ensures StopAt(sha, m, list, payload, first, n) == BadChunk <==> BadAt(sha, m, list, payload, first, n)
    ensures StopAt(sha, m, list, payload, first, n) == DiskFull <==> NoRoomAt(sha, m, list, full, st, payload, first, n)
  {
    hide IsThere, Piece;
    assert !Usable(sha, m, list, full, st, payload, first, n);
    assert Matches(sha, m, list, payload, first, n) ==> IsThere(m, payload, first, n);
  }

  /** An answer for chunks, from a holder that is no suspect. Read off the
      payload, the list and what is held: that holder becomes suspect exactly if,
      after the longest run of matching chunks that can be stored, a whole next
      one does not match, or if the count is full and the file is not the one
      asked for; and then so does everyone who contributed to it. */
  lemma ChunksAreJudged(sha: Sha, around: Around, full: set<nat>, dl: Dl, st: Store, payload: Bytes) returns (n: nat)
    requires ListFits(dl) && !dl.wantsList && dl.chunkList.Some? && dl.NextIndex().Some? && dl.holder.Some? && dl.holder.value !in dl.suspect
    ensures UsableRun(sha, dl.manifest, dl.chunkList.value, full, st, payload, dl.NextIndex().value, n)
    ensures forall k: nat | k < n :: IsThere(dl.manifest, payload, dl.NextIndex().value, k)
    ensures Judged(sha, full, dl, st, payload, n, OnAnswer(sha, around, full, dl, st, Reply(payload)))
  {
    hide *;
    ListHas(dl);
    var m, list, d := dl.manifest, dl.chunkList.value, dl.(fetch := None);
    var first := dl.NextIndex().value;
    n := RunExists(sha, m, list, full, st, payload, first, 0);
    ReplyTakenAsFarAsUsable(sha, m, list, full, dl.held, st, payload, first, n);
    StopsAsItIs(sha, m, list, full, st, payload, first, n);
    var t := TakeIn(sha, m, list, full, dl.held, st, payload, 0, first, 0);
    ChunksAreTakenIn(sha, around, full, dl, st, list, payload);
    IntakeJudged(sha, around, d, t);
    SameFile(dl, d);
    JudgedEither(dl, d, t.stop == BadChunk, t.stop == DiskFull, t.stored > 0, |t.held| >= dl.Count(),
                 Hashes(sha, t.store, dl.Hash(), dl.Count()), t.held, t.store, AfterIntake(sha, around, d, t));
    JudgedIsRead(sha, full, dl, st, payload, n, t, AfterIntake(sha, around, d, t));
  }

  lemma ListHas(dl: Dl)
    requires ListFits(dl) && dl.chunkList.Some?
    ensures |dl.chunkList.value| == ChunkCount(dl.manifest.size)
  {
  }

  lemma SameFile(d: Dl, e: Dl)
    requires d.manifest == e.manifest
    ensures d.Hash() == e.Hash() && d.Count() == e.Count()
  {
  }

  lemma JudgedIsRead(sha: Sha, full: set<nat>, dl: Dl, st: Store, payload: Bytes, n: nat, t: Intake, u: Turn)
    requires ListFits(dl) && dl.chunkList.Some? && dl.NextIndex().Some?
    requires forall k: nat | k < n :: IsThere(dl.manifest, payload, dl.NextIndex().value, k)
    requires var m, list, first := dl.manifest, dl.chunkList.value, dl.NextIndex().value;
             && t.held == dl.held + Span(first, first + n) && t.store == Entered(st, m, payload, first, n) && t.stored == n
             && (t.stop == BadChunk <==> BadAt(sha, m, list, payload, first, n))
             && (t.stop == DiskFull <==> NoRoomAt(sha, m, list, full, st, payload, first, n))
    requires JudgedAs(dl, t.stop == BadChunk, t.stop == DiskFull, t.stored > 0, |t.held| >= dl.Count(),
                      Hashes(sha, t.store, dl.Hash(), dl.Count()), t.held, t.store, u)
    ensures Judged(sha, full, dl, st, payload, n, u)
  {
    hide JudgedAs, BadAt, NoRoomAt, Entered, Hashes, IsThere, ListFits, Dl.NextIndex, Dl.Count, Dl.Hash, Span, ChunkCount;
  }

  lemma JudgedEither(dl: Dl, d: Dl, bad: bool, noRoom: bool, took: bool, whole: bool, right: bool, held: set<nat>, stored: Store, u: Turn)
    requires d == dl.(fetch := None) && JudgedAs(d, bad, noRoom, took, whole, right, held, stored, u)
    ensures JudgedAs(dl, bad, noRoom, took, whole, right, held, stored, u)
  {
    hide Store.Delete, Store.MarkComplete;
  }

  /** An answer with a list: the holder becomes suspect exactly if the payload has
      not one digest for each chunk or does not hash to the signed root. */
  lemma ListIsJudged(sha: Sha, around: Around, full: set<nat>, dl: Dl, st: Store, payload: Bytes)
    requires ListFits(dl) && dl.wantsList
    ensures var u := OnAnswer(sha, around, full, dl, st, Reply(payload));
            var right := |payload| == dl.Count() * 32 && sha(payload) == dl.manifest.root;
            && u.store == st && u.dl.held == dl.held && u.dl.phase == dl.phase && (u.served <==> right)
            && u.dl.suspect == (if right then dl.suspect else With(dl.suspect, dl.holder))
            && (right ==> u.dl.chunkList.Some? && Join(u.dl.chunkList.value) == payload && u.dl.attempts == 0 && u.dl.skipped == {})
            && (!right ==> u.dl.chunkList == dl.chunkList && u.dl.attempts == dl.attempts && u.dl.skipped == dl.skipped)
  {
    SplitLosesNothing(payload);
    hide SplitHashes;
  }

  /** A request that fails makes nobody suspect: the holder is passed over for
      this round, and counts as refusing only if it refused. */
  lemma FailureIsJudged(sha: Sha, around: Around, full: set<nat>, dl: Dl, st: Store, refusal: bool, x: Peer)
    requires ListFits(dl)
    ensures var u := OnAnswer(sha, around, full, dl, st, Failure(refusal));
            && u.store == st && u.dl.suspect == dl.suspect && !u.served && u.dl.attempts == dl.attempts
            && (x in u.dl.skipped <==> x in dl.skipped || Some(x) == dl.holder)
            && (x in u.dl.refused <==> x in dl.refused || (refusal && Some(x) == dl.holder))
  {
  }

  /** Two successes in a row double the window up to its greatest; a failure halves it. */
  lemma TwoSuccessesDouble(dl: Dl)
    requires 1 <= dl.window <= 16
    ensures dl.(wins := 0).GrowWindow().GrowWindow().window == if dl.window <= 8 then dl.window * 2 else 16
    ensures dl.(wins := 0).GrowWindow().window == dl.window
    ensures dl.ShrinkWindow().window == if dl.window == 1 then 1 else dl.window / 2
    ensures dl.ShrinkWindow().GrowWindow().window == dl.ShrinkWindow().window
    ensures dl.ResetWindow().window == 1
  {
  }

  /** Somebody else who may hold the file: the one that served last, a sender, or a member. */
  predicate MayHold(a: Around, senders: seq<Peer>, p: Peer) {
    p != a.me && (a.last == Some(p) || p in senders || p in a.members)
  }

  /** A file that is not the one asked for fails the download exactly if everyone
      who may hold it is then suspect; otherwise it starts again, from nothing. */
  lemma MismatchEndsIffNobodyIsLeft(sha: Sha, around: Around, dl: Dl, st: Store, served: bool)
    requires !Hashes(sha, st, dl.Hash(), dl.Count())
    ensures var u := CompleteFile(sha, around, dl, st, served);
            var now := if served && dl.holder.Some? then around.(last := dl.holder) else around;
            && u.dl.phase == (if u.dl.admitted then Queued else Failed)
            && (u.dl.phase == Failed <==> forall p: Peer | MayHold(now, dl.senders, p) :: p in dl.suspect || p in dl.contributors)
            && (u.dl.phase == Failed ==> u.dl.reason == Some(Corrupt) && u.store == st.Delete(dl.Hash()))
            && (u.dl.phase == Queued ==> u.dl.reason == None && u.store == st.Delete(dl.Hash()).Begin(dl.Hash(), dl.manifest.size, false))
            && u.dl.contributors == {} && u.dl.window == 1
  {
    hide Store.Content, Store.Delete, Store.Begin;
    RangeOfAll(st, dl.Hash(), 0, dl.Count());
    var now := if served && dl.holder.Some? then around.(last := dl.holder) else around;
    var all, blamed := Candidates(now, dl.senders), dl.suspect + dl.contributors;
    assert forall p: Peer :: p in all <==> MayHold(now, dl.senders, p);
    assert ToSet(all) <= blamed <==> forall p: Peer | p in all :: p in blamed;
    hide Candidates;
  }

  /** The answer to the outstanding request for chunks, in the whole manager: the
      one download is judged by it, its holder is remembered as the last exactly
      if it served something and nothing bad, and the slot stays with the
      download exactly as long as it is still fetching. */
  lemma ResultIsJudged(sha: Sha, w: World, full: set<nat>, s: State, id: FetchId, payload: Bytes) returns (n: nat)
    requires Orderly(s) && Fits(s) && Expects(s, id) && s.downloads[s.byFetch[id]].chunkList.Some?
    requires var dl := s.downloads[s.byFetch[id]]; dl.holder.Some? && dl.holder.value !in dl.suspect
    ensures var h, t := s.byFetch[id], OnResult(sha, w, full, s, id, Reply(payload));
            var dl := s.downloads[h];
            && ListFits(dl) && dl.NextIndex().Some?
            && (forall k: nat | k < n :: IsThere(dl.manifest, payload, dl.NextIndex().value, k))
            && UsableRun(sha, dl.manifest, dl.chunkList.value, full, s.store, payload, dl.NextIndex().value, n)
            && (exists u: Turn :: Judged(sha, full, dl, s.store, payload, n, u)
                  && t.downloads == s.downloads[h := u.dl] && t.store == u.store
                  && t.lastHolder == (if u.served then s.lastHolder[h := dl.holder.value] else s.lastHolder)
                  && t.active == (if u.dl.phase == Fetching then Some(h) else None))
  {
    hide OnAnswer, AroundOf, UsableRun, Judged, IsThere, Regular, ListFits, Dl.NextIndex;
    var h := s.byFetch[id];
    var dl := s.downloads[h];
    assert Regular(h, dl, s.store);
    OutstandingMeans(h, dl, s.store);
    n := ChunksAreJudged(sha, AroundOf(w, s, h), full, dl, s.store, payload);
    AnswerIsRegular(sha, AroundOf(w, s, h), full, h, dl, s.store, Reply(payload));
    var u := OnAnswer(sha, AroundOf(w, s, h), full, dl, s.store, Reply(payload));
    assert Judged(sha, full, dl, s.store, payload, n, u);
  }

  lemma OutstandingMeans(h: Hash, dl: Dl, st: Store)
    requires Regular(h, dl, st) && dl.fetch.Some?
    ensures ListFits(dl) && dl.NextIndex().Some? && dl.phase == Fetching && dl.admitted && (dl.wantsList <==> dl.chunkList.None?)
  {
  }

  /* Over whole runs. */

  predicate OwnKeys(s: State) {
    forall h | h in s.downloads :: s.downloads[h].Hash() == h
  }

  /** This peer is a suspect for this file. */
  predicate Blamed(s: State, h: Hash, p: Peer) {
    h in s.downloads && p in s.downloads[h].suspect
  }

  lemma AnswerKeepsBlame(sha: Sha, around: Around, full: set<nat>, dl: Dl, st: Store, answer: Answer, p: Peer)
    requires ListFits(dl)
    ensures p in dl.suspect ==> p in OnAnswer(sha, around, full, dl, st, answer).dl.suspect
  {
    hide TakeIn, AfterIntake, SplitHashes, ChunkRoot;
    var d := dl.(fetch := None);
    if answer.Reply? && !dl.wantsList && d.NextIndex().Some? && d.chunkList.Some? {
      IntakeKeepsBlame(sha, around, d, TakeIn(sha, d.manifest, d.chunkList.value, full, d.held, st, answer.payload, 0, d.NextIndex().value, 0), p);
    }
  }

  lemma IntakeKeepsBlame(sha: Sha, around: Around, dl: Dl, t: Intake, p: Peer)
    ensures p in dl.suspect ==> p in AfterIntake(sha, around, dl, t).dl.suspect
  {
    hide CompleteFile, Credited, Hashes;
    var taken := dl.(held := t.held);
    var checked := if t.stop == BadChunk then taken.ResetWindow().(suspect := With(dl.suspect, dl.holder)) else taken;
    var isSuspect := dl.holder.Some? && dl.holder.value in checked.suspect;
    CreditJudged(checked, isSuspect);
    CompletionJudged(sha, around, Credited(checked, isSuspect), t.store, !isSuspect);
  }

  /** Whatever happens, a suspect stays one as long as the download is there, and downloads stay filed under their own hash. */
  lemma StepKeepsBlame(sha: Sha, s: State, e: Event, h: Hash, p: Peer)
    requires Fits(s) && OwnKeys(s)
    ensures var t := Step(sha, s, e);
            OwnKeys(t) && (Blamed(s, h, p) && h in t.downloads ==> Blamed(t, h, p))
  {
    hide Share, RequestDownload, OnAnswer, Prepare, OnlyLoses;
    match e {
      case Shared(data, room, full) => ShareStaysInStore(sha, s, data, room, full);
      case Requested(w, m, sender) => RequestEffect(w, s, m, sender);
      case Answered(w, full, id, answer) =>
        if Expects(s, id) {
          var g := s.byFetch[id];
          AnswerKeeps(sha, AroundOf(w, s, g), full, s.downloads[g], s.store, answer);
          AnswerKeepsBlame(sha, AroundOf(w, s, g), full, s.downloads[g], s.store, answer, p);
        }
      case Pumped(w) => PrepareTakesNothingIn(w, s);
      case Pruned(deleted) =>
      case Appeared(me, peer, mayHold) =>
      case Retried(due) =>
    }
  }

  /** The next request goes to nobody who is suspect for that file. */
  lemma {:induction false} PrepareAsksNoSuspect(w: World, s: State)
    requires OwnKeys(s)
    ensures var r := Prepare(w, s).request;
            r.Some? ==> r.value.h in s.downloads && r.value.holder !in s.downloads[r.value.h].suspect
    decreases |OpenDownloads(s)|, if HasActive(s) then 1 else 0
  {
    hide ActivateNext, NextHolder, Candidates, AroundOf, TakesNothingIn, OnlyLoses, RunLength, Stall, IssueTo, Dl.NextIndex;
    ActivationKeepsOpen(w, s, s.order);
    ActivationTakesNothingIn(w, s, s.order);
    NothingIn(s);
    var t := if HasActive(s) then s else ActivateNext(w, s, s.order);
    SuspectsAreKept(s, t);
    if HasActive(t) && t.downloads[t.active.value].fetch.None? {
      var h := t.active.value;
      var dl := t.downloads[h];
      NextHolderIsBest(w, dl, Candidates(AroundOf(w, t, h), dl.senders));
      if NextHolder(w, dl, Candidates(AroundOf(w, t, h), dl.senders)).None? {
        StallCloses(w, t, h);
        StallTakesNothingIn(w, t, h);
        SuspectsAreKept(t, Stall(w, t, h));
        PrepareAsksNoSuspect(w, Stall(w, t, h));
      }
    }
  }

  lemma SuspectsAreKept(s: State, t: State)
    requires OwnKeys(s) && TakesNothingIn(s, t)
    ensures OwnKeys(t) && t.downloads.Keys == s.downloads.Keys && forall h | h in s.downloads :: t.downloads[h].suspect == s.downloads[h].suspect
  {
    hide OnlyLoses, RowsFrom;
  }

  /** The download is there in every state that the run passes through. */
  predicate TrackedThroughout(sha: Sha, s: State, es: seq<Event>, h: Hash)
    decreases |es|
  {
    h in s.downloads && (es != [] && Fits(s) ==> TrackedThroughout(sha, Step(sha, s, es[0]), es[1..], h))
  }

  /** No request for this file in the run goes to this peer. */
  predicate NeverAsked(sha: Sha, s: State, es: seq<Event>, h: Hash, p: Peer)
    decreases |es|
  {
    es != [] && Fits(s) ==>
      && (es[0].Pumped? ==> var r := Prepare(es[0].w, s).request; r.Some? && r.value.h == h ==> r.value.holder != p)
      && NeverAsked(sha, Step(sha, s, es[0]), es[1..], h, p)
  }

  /** Once a peer is suspect for a file, it is asked for nothing of it as long as the download lasts. */
  lemma {:induction false} SuspectIsNeverAsked(sha: Sha, s: State, es: seq<Event>, h: Hash, p: Peer)
    requires OwnKeys(s) && Blamed(s, h, p) && TrackedThroughout(sha, s, es, h)
    ensures NeverAsked(sha, s, es, h, p) && Blamed(Run(sha, s, es), h, p)
    decreases |es|
  {
    if es != [] && Fits(s) {
      hide Step, Prepare, OwnKeys;
      StepKeepsBlame(sha, s, es[0], h, p);
      if es[0].Pumped? {
        PrepareAsksNoSuspect(es[0].w, s);
      }
      SuspectIsNeverAsked(sha, Step(sha, s, es[0]), es[1..], h, p);
    }
  }

  /** Every run from a fresh node, or from a restart whose messages name their own files, files downloads so. */
  lemma OriginsHaveOwnKeys(st: Store, listed: seq<Hash>, told: map<Hash, Told>)
    requires Telling(told)
    ensures OwnKeys(Start()) && OwnKeys(Restored(st, listed, told))
  {
  }
}
