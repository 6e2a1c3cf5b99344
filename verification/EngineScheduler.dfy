/** What holds in every state of the download manager: one request at a time,
    issued by the one active download, always for missing chunks in bounds. */
module EngineScheduler {
  import opened Prelude
  import opened Chunks
  import opened FileStore
  import opened Download
  import opened Engine
  import opened EngineRuns

  /** One download in order. An admitted one still in progress lacks a chunk by
      its own count, and one waiting for room lacks a chunk in the tables. */
  predicate Regular(h: Hash, dl: Dl, st: Store) {
    && dl.Hash() == h && dl.manifest.size >= 1 && ListFits(dl)
    && 1 <= dl.window <= FILE_REQUEST_MAX_CHUNKS
    && (dl.fetch.Some? ==> dl.phase == Fetching && dl.wantsList == dl.chunkList.None?)
    && (dl.phase == Fetching ==> dl.admitted)
    && (dl.admitted && dl.phase != Done && dl.phase != Failed ==> dl.NextIndex().Some?)
    && (!dl.admitted && dl.phase != Done ==> !HasAll(st, h, 0, dl.Count()))
  }

  /** The active download may still be queued, as it is while the next request is prepared. */
  predicate Ready(s: State) {
    && (forall h | h in s.downloads :: Regular(h, s.downloads[h], s.store))
    && (s.active.Some? ==> s.active.value in s.downloads && s.downloads[s.active.value].Open()
                           && s.downloads[s.active.value].admitted)
    && (forall h | h in s.downloads && s.downloads[h].phase == Fetching :: s.active == Some(h))
  }

  predicate Orderly(s: State) {
    Ready(s) && (s.active.Some? ==> s.downloads[s.active.value].phase == Fetching)
  }

  /** A share that goes through: nothing refuses it and every chunk can be stored. */
  predicate GoesThrough(sha: Sha, s: State, data: Bytes, room: bool, full: set<nat>) {
    data != [] && !s.store.Complete(sha(data)) && room && HasRoom(s.store, sha(data), 0, ChunkCount(|data|), full)
  }

  /** A share that goes through does not fill a file that waits for room. */
  predicate HarmlessShare(sha: Sha, s: State, data: Bytes, room: bool, full: set<nat>) {
    GoesThrough(sha, s, data, room, full) && sha(data) in s.downloads ==>
      var dl := s.downloads[sha(data)];
      dl.admitted || dl.phase == Done || !HasAll(s.store, sha(data), ChunkCount(|data|), dl.Count())
  }

  /** A request does not find the active file complete, and puts no download in progress that has every chunk already. */
  predicate HarmlessRequest(w: World, s: State, m: Manifest) {
    if s.store.Complete(m.hash) then s.active != Some(m.hash)
    else if m.hash !in s.downloads then !HasAll(s.store, m.hash, 0, ChunkCount(m.size))
    else
      var dl := s.downloads[m.hash];
      if dl.admitted then dl.phase == Failed ==> dl.NextIndex().Some?
      else dl.phase == Done && !w.Admits(m.hash).room ==> !HasAll(s.store, m.hash, 0, dl.Count())
  }

  /** When an event leaves the manager in order. */
  predicate Harmless(sha: Sha, s: State, e: Event) {
    match e
    case Shared(data, room, full) => HarmlessShare(sha, s, data, room, full)
    case Requested(w, m, _) => HarmlessRequest(w, s, m)
    case _ => true
  }

  /* Single answers. */

  lemma PutStaysHome(st: Store, h: Hash, idx: nat, content: Bytes)
    ensures SameElsewhere(h, st, st) && SameElsewhere(h, st, st.Put(h, idx, content))
    ensures st.Put(h, idx, content).rows == st.rows
  {
  }

  lemma SameTwice(h: Hash, a: Store, b: Store, c: Store)
    requires SameElsewhere(h, a, b) && SameElsewhere(h, b, c)
    ensures SameElsewhere(h, a, c)
  {
  }

  /** Taking in a reply touches only the rows of its file. */
  lemma {:induction false} TakeInStaysHome(sha: Sha, m: Manifest, list: seq<Bytes>, full: set<nat>,
                                           held: set<nat>, st: Store, data: Bytes, offset: nat, idx: nat, stored: nat)
    requires |list| == ChunkCount(m.size) && offset <= |data|
    ensures var t := TakeIn(sha, m, list, full, held, st, data, offset, idx, stored);
            t.store.rows == st.rows && SameElsewhere(m.hash, st, t.store)
    decreases |list| - idx
  {
    hide TakeIn, Takes, ChunkSizeAt, ChunkCount, SameElsewhere, Store.Put;
    TakeInStep(sha, m, list, full, held, st, data, offset, idx, stored);
    PutStaysHome(st, m.hash, idx, []);
    if Takes(sha, m, list, full, st, data, offset, idx) {
      var end := offset + ChunkSizeAt(m.size, idx);
      var next := st.Put(m.hash, idx, data[offset..end]);
      PutStaysHome(st, m.hash, idx, data[offset..end]);
      TakeInStaysHome(sha, m, list, full, held + {idx}, next, data, end, idx + 1, stored + 1);
      SameTwice(m.hash, st, next, TakeIn(sha, m, list, full, held, st, data, offset, idx, stored).store);
    }
  }

  /** More is held exactly if anything was stored. */
  lemma {:induction false} TakeInAdds(sha: Sha, m: Manifest, list: seq<Bytes>, full: set<nat>,
                                           held: set<nat>, st: Store, data: Bytes, offset: nat, idx: nat, stored: nat)
    requires |list| == ChunkCount(m.size) && offset <= |data|
    ensures var t := TakeIn(sha, m, list, full, held, st, data, offset, idx, stored);
            && held <= t.held && stored <= t.stored
            && (t.stored > stored ==> idx in t.held)
            && (t.stored == stored ==> t.held == held && t.store == st)
    decreases |list| - idx
  {
    hide TakeIn, Takes, ChunkSizeAt, ChunkCount, Store.Put;
    TakeInStep(sha, m, list, full, held, st, data, offset, idx, stored);
    if Takes(sha, m, list, full, st, data, offset, idx) {
      var end := offset + ChunkSizeAt(m.size, idx);
      TakeInAdds(sha, m, list, full, held + {idx}, st.Put(m.hash, idx, data[offset..end]), data, end, idx + 1, stored + 1);
    }
  }

  /** A download between an answer and its consequences. */
  predicate InHand(h: Hash, dl: Dl) {
    && dl.Hash() == h && dl.manifest.size >= 1 && ListFits(dl) && 1 <= dl.window <= FILE_REQUEST_MAX_CHUNKS
    && dl.phase == Fetching && dl.admitted && dl.fetch.None?
  }

  /** A file that is complete stays as it is; one that is not starts again from nothing. */
  lemma CompletionOutcome(sha: Sha, around: Around, dl: Dl, st: Store, served: bool)
    ensures var h, t := dl.Hash(), CompleteFile(sha, around, dl, st, served);
            if t.dl.phase == Done then t.dl == dl.Finish(Done, None) && t.store == st.MarkComplete(h)
            else
              && t.dl.manifest == dl.manifest && t.dl.fetch == dl.fetch && t.dl.window == 1
              && t.dl.held == {} && t.dl.chunkList.None?
              && t.dl.phase == (if t.dl.admitted then Queued else Failed)
              && t.store == if t.dl.admitted then st.Delete(h).Begin(h, dl.manifest.size, false) else st.Delete(h)
  {
    hide Candidates, ToSet, Store.Range, Store.Content, Store.Delete, Store.Begin, Store.MarkComplete;
  }

  lemma CompletionIsRegular(sha: Sha, around: Around, h: Hash, dl: Dl, st: Store, served: bool)
    requires InHand(h, dl)
    ensures var t := CompleteFile(sha, around, dl, st, served);
            Regular(h, t.dl, t.store) && SlotFits(t) && SameElsewhere(h, st, t.store) && t.dl.fetch.None?
  {
    CompletionKeeps(sha, around, dl, st, served);
    CompletionOutcome(sha, around, dl, st, served);
    hide CompleteFile, SlotFits;
    var t := CompleteFile(sha, around, dl, st, served);
    assert 0 < dl.Count();
    if t.dl.phase != Done {
      assert (h, 0) !in t.store.chunks;
    }
  }

  lemma IntakeIsRegular(sha: Sha, around: Around, h: Hash, dl: Dl, t: Intake)
    requires InHand(h, dl) && dl.NextIndex().Some? && (t.stored == 0 ==> t.held == dl.held)
    ensures var u := AfterIntake(sha, around, dl, t);
            Regular(h, u.dl, u.store) && SlotFits(u) && SameElsewhere(h, t.store, u.store) && u.dl.fetch.None?
  {
    hide CompleteFile;
    var taken := dl.(held := t.held);
    if t.stop != DiskFull && t.stored > 0 {
      var checked := if t.stop == BadChunk then taken.ResetWindow().(suspect := With(dl.suspect, dl.holder)) else taken;
      var isSuspect := dl.holder.Some? && dl.holder.value in checked.suspect;
      var next := Credited(checked, isSuspect);
      if |next.held| >= next.Count() {
        CompletionIsRegular(sha, around, h, next, t.store, !isSuspect);
      } else if next.NextIndex().None? {
        AllHeldIsMany(next.held, next.Count());
      }
    }
  }

  /** Whatever the answer, the download it was for stays in order, and no other file's rows are touched. */
  lemma AnswerIsRegular(sha: Sha, around: Around, full: set<nat>, h: Hash, dl: Dl, st: Store, answer: Answer)
    requires Regular(h, dl, st) && dl.fetch.Some?
    ensures var t := OnAnswer(sha, around, full, dl, st, answer);
            Regular(h, t.dl, t.store) && SlotFits(t) && SameElsewhere(h, st, t.store) && t.dl.fetch.None?
  {
    hide AfterIntake, TakeIn, ChunkRoot;
    var d := dl.(fetch := None);
    if answer.Reply? {
      if dl.wantsList {
        SplitLosesNothing(answer.payload);
      } else {
        var list, first := dl.chunkList.value, dl.NextIndex().value;
        assert d.NextIndex() == dl.NextIndex();
        TakeInStaysHome(sha, d.manifest, list, full, d.held, st, answer.payload, 0, first, 0);
        TakeInAdds(sha, d.manifest, list, full, d.held, st, answer.payload, 0, first, 0);
        IntakeIsRegular(sha, around, h, d, TakeIn(sha, d.manifest, list, full, d.held, st, answer.payload, 0, first, 0));
      }
    }
  }

  /* Steps. */

  lemma LosingRowsIsRegular(h: Hash, dl: Dl, a: Store, b: Store)
    requires Regular(h, dl, a) && NoMoreOf(h, a, b)
    ensures Regular(h, dl, b)
  {
    if !HasAll(a, h, 0, dl.Count()) {
      var i: nat :| i < dl.Count() && (h, i) !in a.chunks;
      assert (h, i).0 == h;
    }
  }

  /** Only the tables changed, and by losing rows. */
  lemma LossIsReady(s: State, t: State)
    requires Ready(s) && t.active == s.active && t.downloads == s.downloads
    requires forall g | g in s.downloads :: NoMoreOf(g, s.store, t.store)
    ensures Ready(t)
  {
    hide Regular, NoMoreOf;
    forall g | g in t.downloads ensures Regular(g, t.downloads[g], t.store) {
      LosingRowsIsRegular(g, s.downloads[g], s.store, t.store);
    }
  }

  /** One download and its own rows changed. */
  lemma OneChangeIsRegular(s: State, t: State, h: Hash)
    requires forall g | g in s.downloads && g != h :: Regular(g, s.downloads[g], s.store) && NoMoreOf(g, s.store, t.store)
    requires h in t.downloads && t.downloads.Keys == s.downloads.Keys + {h}
    requires forall g | g in s.downloads && g != h :: t.downloads[g] == s.downloads[g]
    requires Regular(h, t.downloads[h], t.store)
    ensures forall g | g in t.downloads :: Regular(g, t.downloads[g], t.store)
  {
    hide Regular, NoMoreOf;
    forall g | g in t.downloads && g != h ensures Regular(g, t.downloads[g], t.store) {
      LosingRowsIsRegular(g, s.downloads[g], s.store, t.store);
    }
  }

  lemma ElsewhereIsNoMore(h: Hash, a: Store, b: Store)
    requires SameElsewhere(h, a, b)
    ensures forall g | g != h :: NoMoreOf(g, a, b)
  {
  }

  lemma FetchingIsAdmitted(h: Hash, dl: Dl, st: Store)
    requires Regular(h, dl, st)
    ensures (dl.fetch.Some? ==> dl.phase == Fetching) && (dl.phase == Fetching ==> dl.admitted)
  {
  }

  lemma ResultIsOrderly(sha: Sha, w: World, full: set<nat>, s: State, id: FetchId, answer: Answer)
    requires Orderly(s) && Fits(s)
    ensures Orderly(OnResult(sha, w, full, s, id, answer))
  {
    hide OnAnswer, Regular, AroundOf, NoMoreOf, SameElsewhere;
    if Expects(s, id) {
      var h := s.byFetch[id];
      var t := OnResult(sha, w, full, s, id, answer);
      FetchingIsAdmitted(h, s.downloads[h], s.store);
      AnswerIsRegular(sha, AroundOf(w, s, h), full, h, s.downloads[h], s.store, answer);
      FetchingIsAdmitted(h, t.downloads[h], t.store);
      ElsewhereIsNoMore(h, s.store, t.store);
      OneChangeIsRegular(s, t, h);
    }
  }

  /** Admitting a download, or leaving it to wait, keeps it in order exactly when
      the tables lack one of its chunks; one that is done may have them all if there is room. */
  lemma AdmissionIsRegular(w: World, s: State, h: Hash)
    requires h in s.downloads && ListFits(s.downloads[h])
    requires s.downloads[h].Hash() == h && s.downloads[h].manifest.size >= 1 && 1 <= s.downloads[h].window <= FILE_REQUEST_MAX_CHUNKS
    requires !s.downloads[h].admitted && s.downloads[h].fetch.None? && s.downloads[h].phase in {Queued, Done}
    ensures var t := Admit(w, s, h);
            Regular(h, t.downloads[h], t.store)
            <==> (s.downloads[h].phase == Done && w.Admits(h).room) || !HasAll(s.store, h, 0, s.downloads[h].Count())
  {
    AdmissionKeepsChunks(w, s, h);
    var t := Admit(w, s, h);
    var d, dl := t.downloads[h], s.downloads[h];
    if HasAll(s.store, h, 0, dl.Count()) {
      forall i: nat | i < dl.Count() ensures i in s.store.Indices(h) {
        assert (h, i) in s.store.chunks;
      }
    } else {
      var i: nat :| i < dl.Count() && (h, i) !in s.store.chunks;
      assert i !in s.store.Indices(h);
    }
  }

  lemma AdmitIsReady(w: World, s: State, h: Hash)
    requires Ready(s) && h in s.downloads && s.active != Some(h) && !s.downloads[h].admitted
    requires s.downloads[h].phase == Queued
    ensures Ready(Admit(w, s, h))
  {
    assert Regular(h, s.downloads[h], s.store);
    hide HasAll;
    AdmissionIsRegular(w, s, h);
    AdmissionLoses(w, s, h);
    AdmittedState(w, s, h);
    hide Regular, Admit, NoMoreOf, NoneLostOf;
    OneChangeIsRegular(s, Admit(w, s, h), h);
  }

  lemma {:induction false} ActivationIsReady(w: World, s: State, candidates: seq<Hash>)
    requires Ready(s) && s.active.None?
    ensures Ready(ActivateNext(w, s, candidates))
    decreases |candidates|
  {
    hide Regular;
    if candidates != [] {
      var h, rest := candidates[0], candidates[1..];
      if h !in s.downloads || s.downloads[h].phase != Queued {
        ActivationIsReady(w, s, rest);
      } else if !s.downloads[h].admitted {
        AdmitIsReady(w, s, h);
        var t := Admit(w, s, h);
        if !t.downloads[h].admitted {
          ActivationIsReady(w, t, rest);
        }
      }
    }
  }

  /** The range asked for is not empty, lies in the file, is missing throughout, and fits the window. */
  predicate AsksForMissing(dl: Dl, r: Request) {
    match r
    case WantList(_, _, _) => dl.chunkList.None?
    case WantNothing(_, _, _) => false
    case WantChunks(_, _, _, first, count) =>
      1 <= count <= dl.window <= FILE_REQUEST_MAX_CHUNKS && first + count <= dl.Count()
      && forall i | first <= i < first + count :: i !in dl.held
  }

  lemma AskingIsRegular(h: Hash, dl: Dl, st: Store, id: FetchId, holder: Peer)
    requires Regular(h, dl, st) && dl.Open() && dl.admitted
    ensures Regular(h, Asking(dl, id, holder), st) && Asking(dl, id, holder).phase == Fetching
    ensures AsksForMissing(Asking(dl, id, holder), RequestFor(dl, id, holder))
    ensures RequestFor(dl, id, holder).h == h
  {
    if dl.chunkList.Some? {
      var first := dl.NextIndex().value;
      var count := RunLength(dl, first, 1);
      assert count > 1 ==> first + count - 1 !in dl.held && first + count - 1 < dl.Count();
    }
  }

  lemma IssueIsOrderly(w: World, s: State, h: Hash, holder: Peer)
    requires Ready(s) && s.active == Some(h)
    ensures Orderly(IssueTo(w, s, h, holder))
    ensures AsksForMissing(IssueTo(w, s, h, holder).downloads[h], RequestFor(s.downloads[h], w.nextFetch, holder))
    ensures RequestFor(s.downloads[h], w.nextFetch, holder).h == h
  {
    assert Regular(h, s.downloads[h], s.store);
    AskingIsRegular(h, s.downloads[h], s.store, w.nextFetch, holder);
    hide Regular, Asking, RequestFor, AsksForMissing;
    OneChangeIsRegular(s, IssueTo(w, s, h, holder), h);
  }

  lemma StallIsReady(w: World, s: State, h: Hash)
    requires Ready(s) && s.active == Some(h) && s.downloads[h].fetch.None?
    ensures Ready(Stall(w, s, h)) && Stall(w, s, h).active.None?
  {
    hide Candidates;
    var t := Stall(w, s, h);
    assert Regular(h, s.downloads[h], s.store);
    assert Regular(h, t.downloads[h], t.store);
    hide Regular;
    OneChangeIsRegular(s, t, h);
  }

  lemma OutstandingIsOrderly(s: State)
    requires Ready(s) && s.active.Some? && s.downloads[s.active.value].fetch.Some?
    ensures Orderly(s)
  {
    assert Regular(s.active.value, s.downloads[s.active.value], s.store);
  }

  /** The next request: at most one, by the active download, and only for what it is missing. */
  lemma {:induction false} PrepareIsOrderly(w: World, s: State)
    requires Ready(s)
    ensures var p := Prepare(w, s);
            && Orderly(p.state)
            && (p.request.Some? ==> p.request.value.h in p.state.downloads
                                    && p.state.active == Some(p.request.value.h)
                                    && AsksForMissing(p.state.downloads[p.request.value.h], p.request.value))
    decreases |OpenDownloads(s)|, if HasActive(s) then 1 else 0
  {
    ActivationKeepsOpen(w, s, s.order);
    hide Regular, ActivateNext, NextHolder, Candidates, AroundOf, Stall, RequestFor, Asking, AsksForMissing;
    var t := if HasActive(s) then s else ActivateNext(w, s, s.order);
    if !HasActive(s) {
      ActivationIsReady(w, s, s.order);
    }
    if HasActive(t) {
      var h := t.active.value;
      var dl := t.downloads[h];
      if dl.fetch.None? {
        var holder := NextHolder(w, dl, Candidates(AroundOf(w, t, h), dl.senders));
        if holder.Some? {
          IssueIsOrderly(w, t, h, holder.value);
        } else {
          StallCloses(w, t, h);
          StallIsReady(w, t, h);
          PrepareIsOrderly(w, Stall(w, t, h));
        }
      } else {
        OutstandingIsOrderly(t);
      }
    }
  }

  /* Shares and requests: exactly when they leave the manager in order. */

  lemma RefusedShare(sha: Sha, s: State, data: Bytes, room: bool, full: set<nat>)
    requires !GoesThrough(sha, s, data, room, full)
    ensures var h, t := sha(data), Share(sha, s, data, room, full);
            && t == s.(store := t.store)
            && SameElsewhere(h, s.store, t.store) && NoMoreOf(h, s.store, t.store)
  {
    var h := sha(data);
    if data != [] && !s.store.Complete(h) && room {
      var begun := s.store.Begin(h, |data|, true);
      PutAllNeedsRoom(begun, h, data, 0, full);
      assert !HasRoom(begun, h, 0, ChunkCount(|data|), full);
    }
    hide PutAll;
  }

  lemma StoredShare(sha: Sha, s: State, data: Bytes, room: bool, full: set<nat>)
    requires GoesThrough(sha, s, data, room, full)
    ensures var h, n, t := sha(data), ChunkCount(|data|), Share(sha, s, data, room, full);
            && t == s.(store := t.store)
            && SameElsewhere(h, s.store, t.store) && t.store.Complete(h)
            && (forall i: nat :: (h, i) in t.store.chunks <==> (h, i) in s.store.chunks || i < n)
  {
    var h, n := sha(data), ChunkCount(|data|);
    var begun := s.store.Begin(h, |data|, true);
    assert HasRoom(begun, h, 0, n, full);
    PutAllNeedsRoom(begun, h, data, 0, full);
    PutAllResult(begun, h, data, 0, full);
    hide HasRoom, PutAll;
    var st := PutAll(begun, h, data, 0, full).value;
    forall i: nat ensures (h, i) in st.chunks <==> (h, i) in s.store.chunks || i < n {
      assert (h, i) in st.chunks && (h, i) !in begun.chunks ==> (h, i).1 < n;
    }
    assert SameElsewhere(h, s.store, st);
    hide SameElsewhere, HasAll;
    assert Share(sha, s, data, room, full) == s.(store := st.MarkComplete(h));
    MarkStaysHome(s.store, st, h);
  }

  lemma MarkStaysHome(a: Store, b: Store, h: Hash)
    requires SameElsewhere(h, a, b)
    ensures SameElsewhere(h, a, b.MarkComplete(h))
  {
  }

  lemma ShareIsOrderly(sha: Sha, s: State, data: Bytes, room: bool, full: set<nat>)
    requires Orderly(s)
    ensures Orderly(Share(sha, s, data, room, full)) <==> HarmlessShare(sha, s, data, room, full)
  {
    var h, t := sha(data), Share(sha, s, data, room, full);
    if GoesThrough(sha, s, data, room, full) {
      StoredShare(sha, s, data, room, full);
    } else {
      RefusedShare(sha, s, data, room, full);
    }
    hide Share;
    ElsewhereIsNoMore(h, s.store, t.store);
    if GoesThrough(sha, s, data, room, full) && h in s.downloads {
      FillingIsRegular(h, s.downloads[h], s.store, t.store, ChunkCount(|data|));
      hide Regular, GoesThrough;
      if Regular(h, s.downloads[h], t.store) {
        OneChangeIsRegular(s, t, h);
      }
    } else {
      hide Regular, GoesThrough;
      LossIsReady(s, t);
    }
  }

  /** The first n chunks of a file were stored: that is one too many exactly for
      a download that waits for room and lacked no other. */
  lemma FillingIsRegular(h: Hash, dl: Dl, a: Store, b: Store, n: nat)
    requires Regular(h, dl, a)
    requires forall i: nat :: (h, i) in b.chunks <==> (h, i) in a.chunks || i < n
    ensures Regular(h, dl, b) <==> dl.admitted || dl.phase == Done || !HasAll(a, h, n, dl.Count())
  {
  }

  lemma PruneIsOrderly(s: State, deleted: set<Hash>)
    requires Orderly(s)
    ensures Orderly(Prune(s, deleted))
  {
    var t := s.(store := s.store.DeleteAll(deleted));
    assert forall g | g in s.downloads :: NoMoreOf(g, s.store, t.store);
    LossIsReady(s, t);
    hide Regular;
  }

  /** A download that was at most queued again, with a new round. */
  predicate Requeued(d: Dl, dl: Dl) {
    && d == dl.(phase := d.phase, reason := d.reason, skipped := d.skipped, refused := d.refused, attempts := d.attempts)
    && (d.phase == dl.phase || (dl.phase == Unavailable && d.phase == Queued))
  }

  predicate OnlyRequeues(s: State, t: State) {
    && t == s.(downloads := t.downloads) && t.downloads.Keys == s.downloads.Keys
    && forall h | h in s.downloads :: Requeued(t.downloads[h], s.downloads[h])
  }

  lemma AppearanceRequeues(me: Peer, s: State, peer: Peer, mayHold: set<Hash>)
    ensures OnlyRequeues(s, PeerAppeared(me, s, peer, mayHold))
  {
  }

  lemma RetryRequeues(s: State, due: set<Hash>)
    ensures OnlyRequeues(s, RetryParked(s, due))
  {
  }

  lemma RequeuedIsRegular(h: Hash, dl: Dl, d: Dl, st: Store)
    requires Regular(h, dl, st) && Requeued(d, dl)
    ensures Regular(h, d, st)
  {
  }

  lemma RequeuingIsOrderly(s: State, t: State)
    requires Orderly(s) && OnlyRequeues(s, t)
    ensures Orderly(t)
  {
    hide Regular;
    forall h | h in s.downloads ensures Regular(h, t.downloads[h], t.store) {
      RequeuedIsRegular(h, s.downloads[h], t.downloads[h], s.store);
    }
  }

  /** One download was changed or added, and the slot still goes with whichever is fetching. */
  lemma ChangedIsOrderly(s: State, t: State, h: Hash)
    requires Orderly(s) && t.active == s.active && h in t.downloads && t.downloads.Keys == s.downloads.Keys + {h}
    requires forall g | g in s.downloads && g != h :: t.downloads[g] == s.downloads[g]
    requires forall g | g != h :: NoMoreOf(g, s.store, t.store)
    requires t.downloads[h].phase == Fetching <==> s.active == Some(h)
    ensures Orderly(t) <==> Regular(h, t.downloads[h], t.store)
  {
    assert Regular(h, t.downloads[h], t.store) && t.downloads[h].phase == Fetching ==> t.downloads[h].admitted;
    hide Regular, NoMoreOf;
    if Regular(h, t.downloads[h], t.store) {
      OneChangeIsRegular(s, t, h);
    }
  }

  lemma HeldIsRegular(h: Hash, dl: Dl, st: Store, senders: seq<Peer>)
    requires dl.Hash() == h && dl.manifest.size >= 1 && ListFits(dl) && 1 <= dl.window <= FILE_REQUEST_MAX_CHUNKS && dl.fetch.None?
    ensures Regular(h, AlreadyHeld(dl.(senders := senders)), st)
  {
  }

  /** A request for a file that is held whole. */
  lemma HeldRequestIsOrderly(w: World, s: State, m: Manifest, sender: Option<Peer>)
    requires Orderly(s) && m.size >= 1 && s.store.Complete(m.hash)
    ensures Orderly(RequestDownload(w, s, m, sender)) <==> s.active != Some(m.hash)
  {
    JoinEffect(w, s, m, sender);
    var h, t := m.hash, RequestDownload(w, s, m, sender);
    var d := if h in s.downloads then s.downloads[h] else Fresh(m);
    assert t == Change(Joined(w, s, m, sender), h, AlreadyHeld(d.(senders := t.downloads[h].senders)));
    assert t.downloads[h].phase == Done && t.active == s.active;
    hide Joined, RequestDownload;
    if s.active != Some(h) {
      assert h in s.downloads ==> Regular(h, s.downloads[h], s.store);
      HeldIsRegular(h, d, s.store, t.downloads[h].senders);
      hide Regular;
      ChangedIsOrderly(s, t, h);
    }
  }

  lemma WokenIsRegular(h: Hash, dl: Dl, st: Store, senders: seq<Peer>)
    requires Regular(h, dl, st) && dl.admitted
    ensures Regular(h, Woken(dl).(senders := senders), st) <==> (dl.phase == Failed ==> dl.NextIndex().Some?)
  {
    assert Woken(dl).(senders := senders).NextIndex() == dl.NextIndex();
  }

  /** A request for a file that is not held whole, and the download of it is admitted. */
  lemma WakingIsOrderly(w: World, s: State, m: Manifest, sender: Option<Peer>)
    requires Orderly(s) && !s.store.Complete(m.hash) && m.hash in s.downloads && s.downloads[m.hash].admitted
    ensures Orderly(RequestDownload(w, s, m, sender)) <==> (s.downloads[m.hash].phase == Failed ==> s.downloads[m.hash].NextIndex().Some?)
  {
    AwokenEffect(w, s, m, sender);
    var u, h := Awoken(w, s, m, sender), m.hash;
    assert RequestDownload(w, s, m, sender) == u;
    hide Awoken, RequestDownload;
    WokenIsRegular(h, s.downloads[h], s.store, u.downloads[h].senders);
    hide Regular;
    ChangedIsOrderly(s, u, h);
  }

  /** A request for a file that is not held whole, and its download is new or was never admitted. */
  lemma AdmittingIsOrderly(w: World, s: State, m: Manifest, sender: Option<Peer>)
    requires Orderly(s) && m.size >= 1 && !s.store.Complete(m.hash) && (m.hash in s.downloads ==> !s.downloads[m.hash].admitted)
    ensures var d := if m.hash in s.downloads then s.downloads[m.hash] else Fresh(m);
            Orderly(RequestDownload(w, s, m, sender))
            <==> (d.phase == Done && w.Admits(m.hash).room) || !HasAll(s.store, m.hash, 0, d.Count())
  {
    AwokenEffect(w, s, m, sender);
    var u, h := Awoken(w, s, m, sender), m.hash;
    assert RequestDownload(w, s, m, sender) == Admit(w, u, h);
    hide Awoken, RequestDownload;
    AwokenUnadmitted(s, m);
    hide Regular, HasAll;
    AdmissionIsRegular(w, u, h);
    AdmittedIsOrderly(w, s, u, h);
  }

  lemma AwokenUnadmitted(s: State, m: Manifest)
    requires Orderly(s) && m.size >= 1 && (m.hash in s.downloads ==> !s.downloads[m.hash].admitted)
    ensures var d := if m.hash in s.downloads then s.downloads[m.hash] else Fresh(m);
            && ListFits(d) && d.Hash() == m.hash && d.manifest.size >= 1 && 1 <= d.window <= FILE_REQUEST_MAX_CHUNKS && d.fetch.None?
            && Woken(d).phase in {Queued, Done} && (Woken(d).phase == Done <==> d.phase == Done)
            && s.active != Some(m.hash)
  {
    assert m.hash in s.downloads ==> Regular(m.hash, s.downloads[m.hash], s.store);
  }

  lemma AdmittedIsOrderly(w: World, s: State, u: State, h: Hash)
    requires Orderly(s) && u == s.(downloads := u.downloads, order := u.order) && s.active != Some(h)
    requires h in u.downloads && u.downloads.Keys == s.downloads.Keys + {h} && u.downloads[h].phase != Fetching
    requires forall g | g in s.downloads && g != h :: u.downloads[g] == s.downloads[g]
    ensures var t := Admit(w, u, h); Orderly(t) <==> Regular(h, t.downloads[h], t.store)
  {
    AdmissionLoses(w, u, h);
    AdmittedState(w, u, h);
    hide Regular, Admit, NoMoreOf, NoneLostOf;
    ChangedIsOrderly(s, Admit(w, u, h), h);
  }

  lemma UnadmittedLacksOne(s: State, h: Hash)
    requires Orderly(s)
    ensures h in s.downloads && !s.downloads[h].admitted && s.downloads[h].phase != Done ==> !HasAll(s.store, h, 0, s.downloads[h].Count())
  {
    if h in s.downloads {
      assert Regular(h, s.downloads[h], s.store);
    }
  }

  lemma RequestIsOrderly(w: World, s: State, m: Manifest, sender: Option<Peer>)
    requires Orderly(s) && m.size >= 1
    ensures Orderly(RequestDownload(w, s, m, sender)) <==> HarmlessRequest(w, s, m)
  {
    hide RequestDownload, Orderly;
    if s.store.Complete(m.hash) {
      HeldRequestIsOrderly(w, s, m, sender);
    } else if m.hash in s.downloads && s.downloads[m.hash].admitted {
      WakingIsOrderly(w, s, m, sender);
    } else {
      AdmittingIsOrderly(w, s, m, sender);
      UnadmittedLacksOne(s, m.hash);
    }
  }

  /** Exactly the harmless events leave the manager in order. */
  lemma StepIsOrderly(sha: Sha, s: State, e: Event)
    requires Orderly(s) && Fits(s) && Checked(e)
    ensures Orderly(Step(sha, s, e)) <==> Harmless(sha, s, e)
  {
    hide Orderly;
    match e {
      case Shared(data, room, full) => ShareIsOrderly(sha, s, data, room, full);
      case Requested(w, m, sender) => RequestIsOrderly(w, s, m, sender);
      case Answered(w, full, id, answer) => ResultIsOrderly(sha, w, full, s, id, answer);
      case Pumped(w) => OrderlyIsReady(s); PrepareIsOrderly(w, s);
      case Pruned(deleted) => PruneIsOrderly(s, deleted);
      case Appeared(me, peer, mayHold) => AppearanceRequeues(me, s, peer, mayHold); RequeuingIsOrderly(s, Step(sha, s, e));
      case Retried(due) => RetryRequeues(s, due); RequeuingIsOrderly(s, Step(sha, s, e));
    }
  }

  lemma OrderlyIsReady(s: State)
    requires Orderly(s)
    ensures Ready(s) && Fits(s)
  {
    forall h | h in s.downloads ensures ListFits(s.downloads[h]) {
      assert Regular(h, s.downloads[h], s.store);
    }
  }

  /* Whole runs. */

  predicate AllHarmless(sha: Sha, s: State, es: seq<Event>)
    decreases |es|
  {
    es != [] && Fits(s) ==> Harmless(sha, s, es[0]) && AllHarmless(sha, Step(sha, s, es[0]), es[1..])
  }

  /** Every state that the run passes through is in order. */
  predicate OrderlyThroughout(sha: Sha, s: State, es: seq<Event>)
    decreases |es|
  {
    Orderly(s) && (es != [] && Fits(s) ==> OrderlyThroughout(sha, Step(sha, s, es[0]), es[1..]))
  }

  lemma {:induction false} RunIsOrderly(sha: Sha, s: State, es: seq<Event>)
    requires Orderly(s) && forall e | e in es :: Checked(e)
    ensures OrderlyThroughout(sha, s, es) <==> AllHarmless(sha, s, es)
    ensures OrderlyThroughout(sha, s, es) ==> Orderly(Run(sha, s, es))
    decreases |es|
  {
    if es != [] {
      OrderlyIsReady(s);
      assert es[0] in es && forall e | e in es[1..] :: e in es;
      hide Orderly, Step, Harmless, Fits, Checked;
      StepIsOrderly(sha, s, es[0]);
      if Orderly(Step(sha, s, es[0])) {
        RunIsOrderly(sha, Step(sha, s, es[0]), es[1..]);
      } else {
        assert !OrderlyThroughout(sha, Step(sha, s, es[0]), es[1..]);
      }
    }
  }

  /** Along every run of harmless events, from nothing or after a restart, at
      most one download has a request outstanding, and it is the active,
      admitted, fetching one; and every window is in range. */
  lemma SchedulerInvariant(sha: Sha, s: State, es: seq<Event>)
    requires Orderly(s) && AllHarmless(sha, s, es) && forall e | e in es :: Checked(e)
    ensures var r := Run(sha, s, es);
            && Orderly(r)
            && (forall h | h in r.downloads && r.downloads[h].fetch.Some? ::
                  r.active == Some(h) && r.downloads[h].phase == Fetching && r.downloads[h].admitted)
            && (forall h | h in r.downloads :: 1 <= r.downloads[h].window <= FILE_REQUEST_MAX_CHUNKS)
            && (r.active.Some? ==> r.active.value in r.downloads && r.downloads[r.active.value].phase == Fetching)
  {
    RunIsOrderly(sha, s, es);
    var r := Run(sha, s, es);
    forall h | h in r.downloads ensures Regular(h, r.downloads[h], r.store) {}
    hide Run, OrderlyThroughout, AllHarmless;
  }

  /** Whatever request is issued after such a run asks only for what is missing. */
  lemma RequestsAskForMissing(sha: Sha, s: State, es: seq<Event>, w: World)
    requires Orderly(s) && AllHarmless(sha, s, es) && forall e | e in es :: Checked(e)
    ensures var p := Prepare(w, Run(sha, s, es));
            p.request.Some? ==> p.request.value.h in p.state.downloads
                                && AsksForMissing(p.state.downloads[p.request.value.h], p.request.value)
  {
    RunIsOrderly(sha, s, es);
    PrepareIsOrderly(w, Run(sha, s, es));
  }

  /** A restart begins in order exactly when every unfinished file it takes up lacks a chunk. */
  lemma RestoredIsOrderly(st: Store, listed: seq<Hash>, told: map<Hash, Told>)
    requires Telling(told)
    ensures Orderly(Restored(st, listed, told))
            <==> forall h | h in listed && h in told :: !HasAll(st, h, 0, ChunkCount(told[h].manifest.size))
  {
    var s := Restored(st, listed, told);
    forall h | h in listed && h in told
      ensures Regular(h, s.downloads[h], st) <==> !HasAll(st, h, 0, ChunkCount(told[h].manifest.size))
    {
      ResumedIsRegular(told[h], st);
    }
    hide Regular;
  }

  lemma ResumedIsRegular(t: Told, st: Store)
    requires t.manifest.size >= 1
    ensures Regular(t.manifest.hash, Resumed(t, st), st) <==> !HasAll(st, t.manifest.hash, 0, ChunkCount(t.manifest.size))
  {
    var h, dl := t.manifest.hash, Resumed(t, st);
    if HasAll(st, h, 0, dl.Count()) {
      forall i: nat | i < dl.Count() ensures i in dl.held {
        assert (h, i) in st.chunks;
      }
    } else {
      var i: nat :| i < dl.Count() && (h, i) !in st.chunks;
      assert i !in dl.held;
    }
  }

  /** A download that is done stays done when it is asked for again after its
      file was evicted: it is queued anew only if it was never admitted and
      there is no room now, so room for it does not get it fetched. */
  lemma EvictedDoneStaysDone(w: World, s: State, m: Manifest, sender: Option<Peer>)
    requires m.hash in s.downloads && s.downloads[m.hash].phase == Done
    requires !s.store.Complete(m.hash)
    ensures RequestDownload(w, s, m, sender).downloads[m.hash].phase == Queued
            <==> !s.downloads[m.hash].admitted && !w.Admits(m.hash).room
    ensures RequestDownload(w, s, m, sender).downloads[m.hash].phase in {Queued, Done}
  {
    hide Store.DeleteAll, Store.Begin, Store.Indices;
  }
}
