/** Whatever bytes holders serve, a download that began with nothing stored
    holds only chunks that match a list under the signed root. */
module EngineVerification {
  import opened Prelude
  import opened Chunks
  import opened FileStore
  import opened Download
  import opened Engine
  import opened EngineRuns
  import opened EngineScheduler

  /** A list under the signed root, nothing stored that is not held, and every
      held chunk that is still stored matching its digest in that list. */
  predicate Verified(sha: Sha, dl: Dl, st: Store) {
    && ListFits(dl)
    && (dl.chunkList.Some? ==> ChunkRoot(sha, dl.chunkList.value) == dl.manifest.root)
    && (dl.chunkList.None? ==> dl.held == {})
    && st.Indices(dl.Hash()) <= dl.held
    && (forall i | i in dl.held :: i < dl.Count()
          && ((dl.Hash(), i) in st.chunks ==> sha(st.chunks[(dl.Hash(), i)]) == dl.chunkList.value[i]))
  }

  /** A download in progress is not complete yet; admitted, it is verified, and until then nothing of it is stored. */
  predicate Signed(sha: Sha, h: Hash, dl: Dl, st: Store) {
    && (!dl.admitted ==> dl.chunkList.None?)
    && (dl.phase != Done ==>
          && !st.Complete(h)
          && if dl.admitted then Verified(sha, dl, st) else st.Indices(h) == {})
  }

  predicate Good(sha: Sha, s: State) {
    Orderly(s) && forall h | h in s.downloads :: Signed(sha, h, s.downloads[h], s.store)
  }

  /** When an event keeps downloads verified: a share does not complete a file
      in progress, and no download starts on chunks that it did not fetch. */
  predicate Benign(sha: Sha, s: State, e: Event) {
    match e
    case Shared(data, room, full) =>
      GoesThrough(sha, s, data, room, full) && sha(data) in s.downloads ==> s.downloads[sha(data)].phase == Done
    case Requested(w, m, _) =>
      s.store.Complete(m.hash) ||
      if m.hash !in s.downloads then s.store.Indices(m.hash) == {}
      else
        var dl := s.downloads[m.hash];
        if dl.admitted then dl.phase == Failed ==> dl.NextIndex().Some?
        else dl.phase == Done && !w.Admits(m.hash).room ==> s.store.Indices(m.hash) == {}
    case _ => true
  }

  /* Single answers. */

  lemma {:induction false} TakeInVerifies(sha: Sha, dl: Dl, full: set<nat>, held: set<nat>, st: Store,
                                          data: Bytes, offset: nat, idx: nat, stored: nat)
    requires dl.chunkList.Some? && offset <= |data| && Verified(sha, dl.(held := held), st)
    ensures var t := TakeIn(sha, dl.manifest, dl.chunkList.value, full, held, st, data, offset, idx, stored);
            && Verified(sha, dl.(held := t.held), t.store)
            && t.store.rows == st.rows
    decreases dl.Count() - idx
  {
    var m, list := dl.manifest, dl.chunkList.value;
    TakeInStep(sha, m, list, full, held, st, data, offset, idx, stored);
    if Takes(sha, m, list, full, st, data, offset, idx) {
      var end := offset + ChunkSizeAt(m.size, idx);
      PutVerifies(sha, dl.(held := held), st, idx, data[offset..end]);
      hide Verified, TakeIn, Takes, ChunkSizeAt, Store.Put;
      TakeInVerifies(sha, dl, full, held + {idx}, st.Put(m.hash, idx, data[offset..end]), data, end, idx + 1, stored + 1);
    }
  }

  lemma PutVerifies(sha: Sha, dl: Dl, st: Store, idx: nat, chunk: Bytes)
    requires dl.chunkList.Some? && Verified(sha, dl, st) && idx < dl.Count() && sha(chunk) == dl.chunkList.value[idx]
    ensures Verified(sha, dl.(held := dl.held + {idx}), st.Put(dl.Hash(), idx, chunk))
  {
    var h := dl.Hash();
    var next := st.Put(h, idx, chunk);
    if (h, idx) in st.chunks {
      assert idx in st.Indices(h);
    }
    assert next.Indices(h) == st.Indices(h) + {idx};
  }

  lemma CompletionIsSigned(sha: Sha, around: Around, h: Hash, dl: Dl, st: Store, served: bool)
    requires dl.Hash() == h && dl.admitted && !st.Complete(h)
    ensures var t := CompleteFile(sha, around, dl, st, served); Signed(sha, h, t.dl, t.store)
  {
    CompletionOutcome(sha, around, dl, st, served);
    hide CompleteFile;
    var t := CompleteFile(sha, around, dl, st, served);
    if t.dl.phase != Done {
      assert t.store.Indices(h) == {};
    }
  }

  /** What a download holds did not change, nor whether it is in progress. */
  predicate SameHoldings(d: Dl, dl: Dl) {
    && d.manifest == dl.manifest && d.held == dl.held && d.chunkList == dl.chunkList && d.admitted == dl.admitted
    && (d.phase == Done <==> dl.phase == Done)
  }

  lemma SameHoldingsIsSigned(sha: Sha, h: Hash, dl: Dl, d: Dl, st: Store)
    requires Signed(sha, h, dl, st) && SameHoldings(d, dl)
    ensures Signed(sha, h, d, st)
  {
  }

  lemma IntakeIsSigned(sha: Sha, around: Around, h: Hash, dl: Dl, t: Intake)
    requires dl.Hash() == h && dl.phase == Fetching && dl.admitted && !t.store.Complete(h)
    requires Verified(sha, dl.(held := t.held), t.store)
    ensures var u := AfterIntake(sha, around, dl, t);
            (t.stored == 0 ==> t.held == dl.held) ==> Signed(sha, h, u.dl, u.store)
  {
    var taken := dl.(held := t.held);
    assert Signed(sha, h, taken, t.store);
    hide CompleteFile, Signed, Verified;
    if t.stop == DiskFull {
      SameHoldingsIsSigned(sha, h, taken, taken.Finish(Failed, Some(NoRoom)), t.store);
    } else {
      var checked := if t.stop == BadChunk then taken.ResetWindow().(suspect := With(dl.suspect, dl.holder)) else taken;
      var isSuspect := dl.holder.Some? && dl.holder.value in checked.suspect;
      if t.stored == 0 {
        SameHoldingsIsSigned(sha, h, taken, AfterIntake(sha, around, dl, t).dl, t.store);
      } else {
        var next := Credited(checked, isSuspect);
        SameHoldingsIsSigned(sha, h, taken, next, t.store);
        CompletionIsSigned(sha, around, h, next, t.store, !isSuspect);
      }
    }
  }

  /** Whatever bytes an answer carries, what the download then holds matches a list under the signed root. */
  lemma AnswerIsSigned(sha: Sha, around: Around, full: set<nat>, h: Hash, dl: Dl, st: Store, answer: Answer)
    requires Regular(h, dl, st) && Signed(sha, h, dl, st) && dl.fetch.Some?
    ensures var t := OnAnswer(sha, around, full, dl, st, answer); Signed(sha, h, t.dl, t.store)
  {
    var d := dl.(fetch := None);
    SameHoldingsIsSigned(sha, h, dl, d, st);
    hide AfterIntake, TakeIn;
    match answer {
      case Failure(refusal) =>
        SameHoldingsIsSigned(sha, h, d, OnFailedRequest(d, refusal), st);
      case Reply(payload) =>
        if dl.wantsList {
          SplitLosesNothing(payload);
          if !ListMatches(sha, d, payload) {
            SameHoldingsIsSigned(sha, h, d, OnChunkList(sha, d, st, payload).dl, st);
          }
        } else {
          var list, first := dl.chunkList.value, dl.NextIndex().value;
          assert d.NextIndex() == dl.NextIndex();
          TakeInAdds(sha, d.manifest, list, full, d.held, st, payload, 0, first, 0);
          TakeInVerifies(sha, d, full, d.held, st, payload, 0, first, 0);
          IntakeIsSigned(sha, around, h, d, TakeIn(sha, d.manifest, list, full, d.held, st, payload, 0, first, 0));
        }
    }
  }

  /* Steps. */

  lemma LosingRowsIsSigned(sha: Sha, h: Hash, dl: Dl, a: Store, b: Store)
    requires Signed(sha, h, dl, a) && NoMoreOf(h, a, b) && dl.Hash() == h
    ensures Signed(sha, h, dl, b)
  {
    hide ChunkRoot;
    forall i | i in b.Indices(h) ensures i in a.Indices(h) && a.chunks[(h, i)] == b.chunks[(h, i)] {
      assert (h, i).0 == h;
    }
  }

  lemma AdmittedIsSigned(sha: Sha, h: Hash, dl: Dl, d: Dl, st: Store)
    requires Signed(sha, h, dl, st) && OnlyAdmitted(h, d, dl, st) && dl.Hash() == h && ListFits(dl)
    requires d.phase == Done <==> dl.phase == Done
    ensures Signed(sha, h, d, st)
  {
    hide ChunkRoot;
  }

  /** Every download is as before, or was changed without taking anything in. */
  lemma LossIsGood(sha: Sha, s: State, t: State)
    requires Good(sha, s) && Orderly(t) && t.downloads.Keys <= s.downloads.Keys && OnlyLoses(s.store, t.store)
    requires forall h | h in t.downloads :: OnlyAdmitted(h, t.downloads[h], s.downloads[h], s.store)
                                            && (t.downloads[h].phase == Done <==> s.downloads[h].phase == Done)
    ensures Good(sha, t)
  {
    forall h | h in t.downloads ensures Signed(sha, h, t.downloads[h], t.store) {
      assert Regular(h, s.downloads[h], s.store) && Regular(h, t.downloads[h], t.store) && NoMoreOf(h, s.store, t.store);
      hide Regular, Signed, OnlyAdmitted, NoMoreOf;
      AdmittedIsSigned(sha, h, s.downloads[h], t.downloads[h], s.store);
      LosingRowsIsSigned(sha, h, t.downloads[h], s.store, t.store);
    }
  }

  /** One download was changed or added. */
  lemma OneChangeIsGood(sha: Sha, s: State, t: State, h: Hash)
    requires Good(sha, s) && Orderly(t) && h in t.downloads && t.downloads.Keys <= s.downloads.Keys + {h}
    requires forall g | g in t.downloads && g != h :: t.downloads[g] == s.downloads[g] && NoMoreOf(g, s.store, t.store)
    requires Signed(sha, h, t.downloads[h], t.store)
    ensures Good(sha, t)
  {
    forall g | g in t.downloads && g != h ensures Signed(sha, g, t.downloads[g], t.store) {
      assert Regular(g, s.downloads[g], s.store);
      hide Regular, Signed, NoMoreOf;
      LosingRowsIsSigned(sha, g, s.downloads[g], s.store, t.store);
    }
  }

  lemma ShareIsGood(sha: Sha, s: State, data: Bytes, room: bool, full: set<nat>)
    requires Good(sha, s)
    ensures Good(sha, Share(sha, s, data, room, full)) <==> Benign(sha, s, Shared(data, room, full))
  {
    var h, t := sha(data), Share(sha, s, data, room, full);
    ShareIsOrderly(sha, s, data, room, full);
    if GoesThrough(sha, s, data, room, full) {
      StoredShare(sha, s, data, room, full);
      hide Share, Orderly, GoesThrough;
      ElsewhereIsNoMore(h, s.store, t.store);
      if h in s.downloads && s.downloads[h].phase == Done {
        OneChangeIsGood(sha, s, t, h);
      } else if h !in s.downloads {
        OthersAreGood(sha, s, t, h);
      }
    } else {
      RefusedShare(sha, s, data, room, full);
      hide Share, Orderly, GoesThrough;
      ElsewhereIsNoMore(h, s.store, t.store);
      OthersAreGood(sha, s, t, h);
    }
  }

  /** Only the tables changed, and no tracked download found more in them. */
  lemma OthersAreGood(sha: Sha, s: State, t: State, h: Hash)
    requires Good(sha, s) && Orderly(t) && t.downloads == s.downloads
    requires forall g | g in s.downloads :: NoMoreOf(g, s.store, t.store)
    ensures Good(sha, t)
  {
    forall g | g in t.downloads ensures Signed(sha, g, t.downloads[g], t.store) {
      assert Regular(g, s.downloads[g], s.store);
      hide Regular, Signed, NoMoreOf;
      LosingRowsIsSigned(sha, g, s.downloads[g], s.store, t.store);
    }
  }

  lemma ResultIsGood(sha: Sha, w: World, full: set<nat>, s: State, id: FetchId, answer: Answer)
    requires Good(sha, s) && Fits(s)
    ensures Good(sha, OnResult(sha, w, full, s, id, answer))
  {
    ResultIsOrderly(sha, w, full, s, id, answer);
    if Expects(s, id) {
      var h := s.byFetch[id];
      var t := OnResult(sha, w, full, s, id, answer);
      assert Regular(h, s.downloads[h], s.store) && Signed(sha, h, s.downloads[h], s.store);
      AnswerIsRegular(sha, AroundOf(w, s, h), full, h, s.downloads[h], s.store, answer);
      AnswerIsSigned(sha, AroundOf(w, s, h), full, h, s.downloads[h], s.store, answer);
      hide OnAnswer, Regular, Signed, AroundOf, Orderly;
      ElsewhereIsNoMore(h, s.store, t.store);
      OneChangeIsGood(sha, s, t, h);
    }
  }

  /** A download that starts, or waits to, is verified exactly if nothing of it is stored. */
  lemma StartsOnWhatIsThere(sha: Sha, h: Hash, d: Dl, e: Dl, a: Store, b: Store)
    requires !d.admitted && d.chunkList.None?
    requires OnlyAdmitted(h, e, d, a) && e.phase != Done && d.Hash() == h
    requires !b.Complete(h) && b.Indices(h) == a.Indices(h)
    ensures Signed(sha, h, e, b) <==> a.Indices(h) == {}
  {
    hide ChunkRoot;
  }

  /** What a request leaves of the download it names. */
  lemma RequestedIsSigned(sha: Sha, w: World, s: State, m: Manifest, sender: Option<Peer>)
    requires Good(sha, s) && m.size >= 1 && Orderly(RequestDownload(w, s, m, sender))
    ensures var t := RequestDownload(w, s, m, sender);
            Signed(sha, m.hash, t.downloads[m.hash], t.store) <==> Benign(sha, s, Requested(w, m, sender))
  {
    RequestEffect(w, s, m, sender);
    RequestIsOrderly(w, s, m, sender);
    var h, t := m.hash, RequestDownload(w, s, m, sender);
    var d, e := if h in s.downloads then s.downloads[h] else Fresh(m), t.downloads[h];
    assert NoMoreOf(h, s.store, t.store) && d.Hash() == h by {
      assert h in s.downloads ==> Regular(h, d, s.store);
    }
    assert h in s.downloads ==> Signed(sha, h, d, s.store);
    hide RequestDownload, Orderly, OnlyLoses, Regular, GoesThrough;
    if !s.store.Complete(h) {
      if d.admitted {
        hide Verified;
        SameInPlace(sha, h, d, e, s.store, t.store);
      } else if e.phase != Done {
        StartsOnWhatIsThere(sha, h, d, e, s.store, t.store);
      }
    }
  }

  lemma SameInPlace(sha: Sha, h: Hash, d: Dl, e: Dl, a: Store, b: Store)
    requires Signed(sha, h, d, a) && d.admitted && OnlyAdmitted(h, e, d, a) && (e.phase == Done <==> d.phase == Done)
    requires NoMoreOf(h, a, b) && d.Hash() == h
    ensures Signed(sha, h, e, b)
  {
    hide Verified;
    SameHoldingsIsSigned(sha, h, d, e, a);
    LosingRowsIsSigned(sha, h, e, a, b);
  }

  lemma RequestIsGood(sha: Sha, w: World, s: State, m: Manifest, sender: Option<Peer>)
    requires Good(sha, s) && m.size >= 1
    ensures Good(sha, RequestDownload(w, s, m, sender)) <==> Benign(sha, s, Requested(w, m, sender))
  {
    RequestEffect(w, s, m, sender);
    RequestIsOrderly(w, s, m, sender);
    if Benign(sha, s, Requested(w, m, sender)) {
      BenignIsHarmless(sha, s, Requested(w, m, sender));
    }
    var t := RequestDownload(w, s, m, sender);
    hide Harmless, Benign, OnlyAdmitted;
    if Orderly(t) {
      RequestedIsSigned(sha, w, s, m, sender);
      hide RequestDownload, Orderly, Signed, NoMoreOf;
      if Signed(sha, m.hash, t.downloads[m.hash], t.store) {
        OneChangeIsGood(sha, s, t, m.hash);
      }
    }
  }

  lemma BenignIsHarmless(sha: Sha, s: State, e: Event)
    requires Good(sha, s) && Checked(e) && Benign(sha, s, e)
    ensures Harmless(sha, s, e)
  {
    if e.Requested? {
      var h := e.manifest.hash;
      assert h in s.downloads ==> Regular(h, s.downloads[h], s.store) && Signed(sha, h, s.downloads[h], s.store);
      if s.store.Indices(h) == {} {
        assert (h, 0) !in s.store.chunks by {
          assert (h, 0) in s.store.chunks ==> 0 in s.store.Indices(h);
        }
      }
      hide Verified;
    }
  }

  /** Exactly the benign events keep every download verified. */
  lemma StepIsGood(sha: Sha, s: State, e: Event)
    requires Good(sha, s) && Fits(s) && Checked(e)
    ensures Good(sha, Step(sha, s, e)) <==> Benign(sha, s, e)
  {
    hide Good;
    match e {
      case Shared(data, room, full) => ShareIsGood(sha, s, data, room, full);
      case Requested(w, m, sender) => RequestIsGood(sha, w, s, m, sender);
      case Answered(w, full, id, answer) => ResultIsGood(sha, w, full, s, id, answer);
      case Pumped(w) => PrepareIsGood(sha, w, s);
      case Pruned(deleted) => PruneIsGood(sha, s, deleted);
      case Appeared(me, peer, mayHold) => AppearanceRequeues(me, s, peer, mayHold); RequeuingIsGood(sha, s, Step(sha, s, e));
      case Retried(due) => RetryRequeues(s, due); RequeuingIsGood(sha, s, Step(sha, s, e));
    }
  }

  lemma PrepareIsGood(sha: Sha, w: World, s: State)
    requires Good(sha, s)
    ensures Good(sha, Prepare(w, s).state)
  {
    OrderlyIsReady(s);
    PrepareIsOrderly(w, s);
    PrepareTakesNothingIn(w, s);
    PrepareKeepsDone(w, s);
    hide Good, Prepare, Orderly, OnlyLoses, OnlyAdmitted;
    LossIsGood(sha, s, Prepare(w, s).state);
  }

  lemma PruneIsGood(sha: Sha, s: State, deleted: set<Hash>)
    requires Good(sha, s)
    ensures Good(sha, Prune(s, deleted))
  {
    PruneIsOrderly(s, deleted);
    assert OnlyLoses(s.store, s.store.DeleteAll(deleted));
    hide Good, Orderly, OnlyLoses;
    LossIsGood(sha, s, Prune(s, deleted));
  }

  lemma RequeuingIsGood(sha: Sha, s: State, t: State)
    requires Good(sha, s) && OnlyRequeues(s, t)
    ensures Good(sha, t)
  {
    RequeuingIsOrderly(s, t);
    SameTables(s.store);
    hide Good, Orderly, OnlyLoses;
    LossIsGood(sha, s, t);
  }

  predicate AllBenign(sha: Sha, s: State, es: seq<Event>)
    decreases |es|
  {
    es != [] && Fits(s) ==> Benign(sha, s, es[0]) && AllBenign(sha, Step(sha, s, es[0]), es[1..])
  }

  /** Along every run of benign events, whatever bytes holders served, every
      chunk held for a download in progress and still stored has the digest
      that a list under the manifest's signed root gives it. */
  lemma {:induction false} HeldChunksAreSigned(sha: Sha, s: State, es: seq<Event>)
    requires Good(sha, s) && AllBenign(sha, s, es) && forall e | e in es :: Checked(e)
    ensures var r := Run(sha, s, es);
            && Good(sha, r)
            && forall h | h in r.downloads && r.downloads[h].phase != Done && r.downloads[h].admitted ::
                 Verified(sha, r.downloads[h], r.store)
    decreases |es|
  {
    if es == [] {
      assert forall h | h in s.downloads :: Signed(sha, h, s.downloads[h], s.store);
      hide Verified, Orderly;
    } else {
      OrderlyIsReady(s);
      assert es[0] in es && forall e | e in es[1..] :: e in es;
      hide Step, Good, Benign, Fits, Verified, Checked;
      StepIsGood(sha, s, es[0]);
      HeldChunksAreSigned(sha, Step(sha, s, es[0]), es[1..]);
    }
  }

  /** A node that tracks nothing yet. */
  lemma StartIsGood(sha: Sha)
    ensures Good(sha, Start())
  {
  }
}
