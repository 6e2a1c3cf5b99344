/** When a download is parked, and as what: given up because every peer that may
    hold the file refused it, or to wait for a holder; and what revives it. */
module EngineParking {
  import opened Prelude
  import opened Chunks
  import opened FileStore
  import opened Download
  import opened Engine
  import opened EngineRuns
  import opened EngineScheduler
  import opened EngineTrust

  /** Somebody else that may hold the file: it served last, sent a message naming it, or is a member. */
  predicate Holder(w: World, s: State, h: Hash, p: Peer)
    requires h in s.downloads
  {
    p != w.me && ((h in s.lastHolder && s.lastHolder[h] == p) || p in s.downloads[h].senders || p in w.Members(h))
  }

  /** Some peer may hold the file, some holder refused it, and all that may hold it refused or are suspect. */
  ghost predicate EverybodyRefused(w: World, s: State, h: Hash)
    requires h in s.downloads
  {
    && (exists p: Peer :: Holder(w, s, h, p)) && s.downloads[h].refused != {}
    && forall p: Peer | Holder(w, s, h, p) :: p in s.downloads[h].refused || p in s.downloads[h].suspect
  }

  /** Nobody is left to ask in this round. */
  ghost predicate NobodyToAsk(w: World, s: State, h: Hash)
    requires h in s.downloads
  {
    s.downloads[h].attempts >= 4 || forall p: Peer | Holder(w, s, h, p) :: p in s.downloads[h].suspect || p in s.downloads[h].skipped
  }

  lemma HoldersAreCandidates(w: World, s: State, h: Hash, p: Peer)
    requires h in s.downloads
    ensures p in Candidates(AroundOf(w, s, h), s.downloads[h].senders) <==> Holder(w, s, h, p)
  {
    hide Candidates;
  }

  lemma SaidNoIsRefused(w: World, s: State, h: Hash)
    requires h in s.downloads
    ensures AllSaidNo(s.downloads[h], Candidates(AroundOf(w, s, h), s.downloads[h].senders)) <==> EverybodyRefused(w, s, h)
  {
    hide Candidates, AroundOf, Holder;
    var peers := Candidates(AroundOf(w, s, h), s.downloads[h].senders);
    forall p: Peer ensures p in peers <==> Holder(w, s, h, p) {
      HoldersAreCandidates(w, s, h, p);
    }
    if peers != [] {
      assert peers[0] in peers;
    }
  }

  lemma NoneIsNobody(w: World, s: State, h: Hash)
    requires h in s.downloads
    ensures NextHolder(w, s.downloads[h], Candidates(AroundOf(w, s, h), s.downloads[h].senders)).None? <==> NobodyToAsk(w, s, h)
  {
    hide Candidates, AroundOf, Holder, NextHolder;
    var peers := Candidates(AroundOf(w, s, h), s.downloads[h].senders);
    forall p: Peer ensures p in peers <==> Holder(w, s, h, p) {
      HoldersAreCandidates(w, s, h, p);
    }
    NextHolderIsBest(w, s.downloads[h], peers);
  }

  /** What parking makes of a download. */
  ghost predicate ParkedRightly(w: World, s: State, h: Hash, e: Dl)
    requires h in s.downloads
  {
    if EverybodyRefused(w, s, h) then e.phase == Failed && e.reason == Some(AllRefused)
    else e.phase == Unavailable && e.reason == Some(NoHolder)
  }

  /** A parked download has failed exactly if everybody refused; otherwise it waits
      for a holder. Nothing else about it changes but that it has no holder. */
  lemma StallParksRightly(w: World, s: State, h: Hash)
    requires h in s.downloads
    ensures var e := Stall(w, s, h).downloads[h];
            ParkedRightly(w, s, h, e) && e == s.downloads[h].(phase := e.phase, reason := e.reason, holder := None)
  {
    hide Candidates, AroundOf, Holder, AllSaidNo;
    SaidNoIsRefused(w, s, h);
    SameNo(s.downloads[h], s.downloads[h].(holder := None), Candidates(AroundOf(w, s, h), s.downloads[h].senders));
  }

  lemma SameNo(d: Dl, e: Dl, peers: seq<Peer>)
    requires d.refused == e.refused && d.suspect == e.suspect
    ensures AllSaidNo(d, peers) <==> AllSaidNo(e, peers)
  {
  }

  /* Preparing the next request. */

  /** Whom to ask about a file, and who refused it, is as it was. */
  predicate SameRound(d: Dl, dl: Dl) {
    d.senders == dl.senders && d.refused == dl.refused && d.suspect == dl.suspect && d.skipped == dl.skipped
  }

  /** What preparing a request made of one download. */
  ghost predicate Prepared1(w: World, s: State, h: Hash, e: Dl)
    requires h in s.downloads
  {
    var d := s.downloads[h];
    && SameRound(e, d)
    && (!d.Open() ==> e == d)
    && (d.Open() && !e.Open() ==> ParkedRightly(w, s, h, e) && NobodyToAsk(w, s, h) && e.holder.None?)
  }

  /** Only admissions changed anything: rounds, phases and memory of holders are as they were. */
  predicate OnlyAdmits(s: State, t: State) {
    && t.downloads.Keys == s.downloads.Keys && t.lastHolder == s.lastHolder
    && forall h | h in s.downloads ::
         && SameRound(t.downloads[h], s.downloads[h]) && t.downloads[h].phase == s.downloads[h].phase
         && t.downloads[h].attempts == s.downloads[h].attempts && (!s.downloads[h].Open() ==> t.downloads[h] == s.downloads[h])
  }

  lemma OneAdmission(w: World, s: State, h: Hash)
    requires h in s.downloads && s.downloads[h].phase == Queued
    ensures OnlyAdmits(s, Admit(w, s, h))
  {
    hide Store.DeleteAll, Store.Begin, Store.Indices;
  }

  lemma OnlyAdmitsKeys(s: State, t: State)
    requires OnlyAdmits(s, t)
    ensures t.downloads.Keys == s.downloads.Keys
  {
  }

  lemma AdmitsTwice(s: State, t: State, u: State)
    requires OnlyAdmits(s, t) && OnlyAdmits(t, u)
    ensures OnlyAdmits(s, u)
  {
  }

  lemma AdmitsNothing(s: State)
    ensures OnlyAdmits(s, s) && OnlyAdmits(s, s.(active := None))
  {
  }

  lemma {:induction false} ActivationOnlyAdmits(w: World, s: State, candidates: seq<Hash>)
    ensures OnlyAdmits(s, ActivateNext(w, s, candidates))
    decreases |candidates|
  {
    hide Admit, OnlyAdmits;
    AdmitsNothing(s);
    if candidates != [] {
      var h := candidates[0];
      if h !in s.downloads || s.downloads[h].phase != Queued {
        ActivationOnlyAdmits(w, s, candidates[1..]);
      } else {
        var t := if s.downloads[h].admitted then s else Admit(w, s, h);
        OneAdmission(w, s, h);
        assert h in t.downloads by {
          OnlyAdmitsKeys(s, t);
        }
        if t.downloads[h].admitted {
          SameButActive(s, t, Some(h));
        } else {
          ActivationOnlyAdmits(w, t, candidates[1..]);
          AdmitsTwice(s, t, ActivateNext(w, t, candidates[1..]));
        }
      }
    }
  }

  lemma SameButActive(s: State, t: State, slot: Option<Hash>)
    requires OnlyAdmits(s, t)
    ensures OnlyAdmits(s, t.(active := slot))
  {
  }

  /** Reading the same rounds, everybody and nobody are the same. */
  lemma RoundsDecide(w: World, s: State, t: State, h: Hash, e: Dl)
    requires h in s.downloads && h in t.downloads && t.lastHolder == s.lastHolder && SameRound(t.downloads[h], s.downloads[h])
    requires t.downloads[h].attempts == s.downloads[h].attempts
    ensures ParkedRightly(w, s, h, e) <==> ParkedRightly(w, t, h, e)
    ensures NobodyToAsk(w, s, h) <==> NobodyToAsk(w, t, h)
  {
    assert forall p: Peer :: Holder(w, s, h, p) <==> Holder(w, t, h, p);
  }

  lemma PreparedFrom(w: World, s: State, t: State, h: Hash, e: Dl)
    requires OnlyAdmits(s, t) && h in s.downloads && Prepared1(w, t, h, e)
    ensures Prepared1(w, s, h, e)
  {
    hide ParkedRightly, NobodyToAsk;
    RoundsDecide(w, s, t, h, e);
  }

  lemma PreparedPlain(w: World, s: State, h: Hash)
    requires h in s.downloads
    ensures Prepared1(w, s, h, s.downloads[h])
  {
  }

  lemma PreparedAsking(w: World, s: State, h: Hash, id: FetchId, holder: Peer)
    requires h in s.downloads && s.downloads[h].Open()
    ensures Prepared1(w, s, h, Asking(s.downloads[h], id, holder))
  {
  }

  /** After parking one download, what happens to the others, and that nothing more happens to it. */
  lemma PreparedAfterStall(w: World, s: State, h: Hash, g: Hash, e: Dl)
    requires h in s.downloads && g in s.downloads && s.downloads[h].Open() && NobodyToAsk(w, s, h)
    requires Prepared1(w, Stall(w, s, h), g, e)
    ensures Prepared1(w, s, g, e)
  {
    hide ParkedRightly, NobodyToAsk, AllSaidNo, Candidates, AroundOf;
    StallParksRightly(w, s, h);
    var t := Stall(w, s, h);
    RoundsDecide(w, s, t, g, e);
    if g == h {
      assert e == t.downloads[h];
    }
  }

  /** Whatever is parked while the next request is prepared had nobody left to ask,
      and has failed exactly if everybody who may hold it refused; every other
      download keeps its round, and one that was not open is left alone. */
  lemma {:induction false} PrepareParksRightly(w: World, s: State, h: Hash)
    requires h in s.downloads && (HasActive(s) ==> s.downloads[s.active.value].Open())
    ensures var t := Prepare(w, s).state; h in t.downloads && Prepared1(w, s, h, t.downloads[h])
    decreases |OpenDownloads(s)|, if HasActive(s) then 1 else 0
  {
    hide ActivateNext, NextHolder, Candidates, AroundOf, OnlyAdmits, Prepared1, Stall, RequestFor, NobodyToAsk, Asking;
    ActivationKeepsOpen(w, s, s.order);
    ActivationOnlyAdmits(w, s, s.order);
    AdmitsNothing(s);
    var t := if HasActive(s) then s else ActivateNext(w, s, s.order);
    OnlyAdmitsKeys(s, t);
    if HasActive(t) && t.downloads[t.active.value].fetch.None? {
      var g := t.active.value;
      var dl := t.downloads[g];
      var holder := NextHolder(w, dl, Candidates(AroundOf(w, t, g), dl.senders));
      NoneIsNobody(w, t, g);
      if holder.Some? {
        PreparedPlain(w, t, h);
        PreparedAsking(w, t, g, w.nextFetch, holder.value);
      } else {
        StallCloses(w, t, g);
        StallKeys(w, t, g);
        PrepareParksRightly(w, Stall(w, t, g), h);
        PreparedAfterStall(w, t, g, h, Prepare(w, Stall(w, t, g)).state.downloads[h]);
      }
    } else {
      PreparedPlain(w, t, h);
    }
    PreparedFrom(w, s, t, h, Prepare(w, s).state.downloads[h]);
  }

  lemma StallKeys(w: World, s: State, h: Hash)
    requires h in s.downloads
    ensures Stall(w, s, h).downloads.Keys == s.downloads.Keys
  {
    hide AllSaidNo;
  }

  /* Given up for good. */

  /** This download has failed, holds no slot and awaits nothing. */
  predicate GivenUpOn(s: State, h: Hash, why: Reason) {
    h in s.downloads ==>
      s.downloads[h].phase == Failed && s.downloads[h].reason == Some(why) && s.downloads[h].fetch.None? && s.active != Some(h)
  }

  /** The local user or a message asks for this file. */
  predicate AsksFor(e: Event, h: Hash) { e.Requested? && e.manifest.hash == h }

  lemma {:induction false} PrepareLeavesFailed(w: World, s: State, h: Hash, why: Reason)
    requires GivenUpOn(s, h, why) && h in s.downloads
    ensures GivenUpOn(Prepare(w, s).state, h, why)
    decreases |OpenDownloads(s)|, if HasActive(s) then 1 else 0
  {
    hide ActivateNext, NextHolder, Candidates, AroundOf, OnlyAdmits, RequestFor, AllSaidNo;
    ActivationKeepsOpen(w, s, s.order);
    ActivationOnlyAdmits(w, s, s.order);
    AdmitsNothing(s);
    var t := if HasActive(s) then s else ActivateNext(w, s, s.order);
    OnlyAdmitsKeys(s, t);
    ClosedIsLeft(s, t, h);
    if HasActive(t) && t.downloads[t.active.value].fetch.None? {
      var g := t.active.value;
      if NextHolder(w, t.downloads[g], Candidates(AroundOf(w, t, g), t.downloads[g].senders)).None? {
        StallCloses(w, t, g);
        PrepareLeavesFailed(w, Stall(w, t, g), h, why);
      }
    }
  }

  lemma ClosedIsLeft(s: State, t: State, h: Hash)
    requires OnlyAdmits(s, t) && h in s.downloads && !s.downloads[h].Open()
    ensures h in t.downloads && t.downloads[h] == s.downloads[h]
  {
  }

  lemma StepLeavesFailed(sha: Sha, s: State, e: Event, h: Hash, why: Reason)
    requires Fits(s) && GivenUpOn(s, h, why) && h in s.downloads && !AsksFor(e, h)
    ensures GivenUpOn(Step(sha, s, e), h, why)
  {
    hide Share, RequestDownload, OnAnswer, Prepare, OnlyLoses;
    match e {
      case Shared(data, room, full) => ShareStaysInStore(sha, s, data, room, full);
      case Requested(w, m, sender) => RequestEffect(w, s, m, sender); RequestKeepsSlot(w, s, m, sender);
      case Answered(w, full, id, answer) =>
      case Pumped(w) => PrepareLeavesFailed(w, s, h, why);
      case Pruned(deleted) =>
      case Appeared(me, peer, mayHold) =>
      case Retried(due) =>
    }
  }

  lemma RequestKeepsSlot(w: World, s: State, m: Manifest, sender: Option<Peer>)
    ensures RequestDownload(w, s, m, sender).active == s.active
  {
    hide Joined, Store.DeleteAll, Store.Begin, Store.Indices;
    JoinEffect(w, s, m, sender);
  }

  /** No retry, no appearance of a peer and nothing else revives a download that
      has failed: it stays so until the file is asked for again, or it is forgotten. */
  lemma {:induction false} FailedStaysFailed(sha: Sha, s: State, es: seq<Event>, h: Hash, why: Reason)
    requires h in s.downloads && GivenUpOn(s, h, why) && forall e | e in es :: !AsksFor(e, h)
    ensures GivenUpOn(Run(sha, s, es), h, why)
    decreases |es|
  {
    if es != [] && Fits(s) {
      hide Step, GivenUpOn;
      assert es[0] in es && forall e | e in es[1..] :: e in es;
      StepLeavesFailed(sha, s, es[0], h, why);
      var t := Step(sha, s, es[0]);
      if h in t.downloads {
        FailedStaysFailed(sha, t, es[1..], h, why);
      } else {
        ForgottenStaysSo(sha, t, es[1..], h, why);
      }
    }
  }

  lemma {:induction false} ForgottenStaysSo(sha: Sha, s: State, es: seq<Event>, h: Hash, why: Reason)
    requires h !in s.downloads && forall e | e in es :: !AsksFor(e, h)
    ensures GivenUpOn(Run(sha, s, es), h, why)
    decreases |es|
  {
    if es != [] && Fits(s) {
      assert es[0] in es && forall e | e in es[1..] :: e in es;
      OnlyRequestsAdd(sha, s, es[0], h);
      hide Step;
      ForgottenStaysSo(sha, Step(sha, s, es[0]), es[1..], h, why);
    }
  }

  lemma OnlyRequestsAdd(sha: Sha, s: State, e: Event, h: Hash)
    requires Fits(s) && h !in s.downloads && !AsksFor(e, h)
    ensures h !in Step(sha, s, e).downloads
  {
    hide Share, RequestDownload, OnAnswer, Prepare, OnlyLoses;
    match e {
      case Shared(data, room, full) => ShareStaysInStore(sha, s, data, room, full);
      case Requested(w, m, sender) => RequestEffect(w, s, m, sender);
      case Answered(w, full, id, answer) =>
      case Pumped(w) => PrepareTakesNothingIn(w, s);
      case Pruned(deleted) =>
      case Appeared(me, peer, mayHold) =>
      case Retried(due) =>
    }
  }

  /** Once every peer that may hold the file has refused it, the next look for a
      request fails the active download, and nothing but a new request for the
      file brings it back, however often parked downloads are retried. */
  lemma RefusedByAllIsGivenUp(sha: Sha, w: World, s: State, h: Hash, es: seq<Event>)
    requires Fits(s) && s.active == Some(h) && h in s.downloads && s.downloads[h].Open() && s.downloads[h].fetch.None?
    requires EverybodyRefused(w, s, h) && NobodyToAsk(w, s, h) && forall e | e in es :: !AsksFor(e, h)
    ensures var r := Run(sha, s, [Pumped(w)] + es);
            h in r.downloads ==> r.downloads[h].phase == Failed && r.downloads[h].reason == Some(AllRefused)
  {
    hide Step, Prepare, Stall, EverybodyRefused, NobodyToAsk, Candidates, AroundOf;
    NoneIsNobody(w, s, h);
    StallParksRightly(w, s, h);
    PrepareStalls(w, s, h);
    var t := Stall(w, s, h);
    assert GivenUpOn(t, h, AllRefused) by {
      StallCloses(w, s, h);
      StallFrees(w, s, h);
    }
    StallKeys(w, s, h);
    PrepareLeavesFailed(w, t, h, AllRefused);
    PrepareTakesNothingIn(w, t);
    assert ([Pumped(w)] + es)[1..] == es;
    assert Step(sha, s, Pumped(w)) == Prepare(w, t).state by { PumpIsPrepare(sha, w, s); }
    FailedStaysFailed(sha, Prepare(w, t).state, es, h, AllRefused);
  }

  lemma PumpIsPrepare(sha: Sha, w: World, s: State)
    requires Fits(s)
    ensures Step(sha, s, Pumped(w)) == Prepare(w, s).state
  {
    hide Prepare;
  }

  lemma StallFrees(w: World, s: State, h: Hash)
    requires h in s.downloads
    ensures Stall(w, s, h).active.None?
  {
  }

  lemma PrepareStalls(w: World, s: State, h: Hash)
    requires s.active == Some(h) && h in s.downloads && s.downloads[h].fetch.None?
    requires NextHolder(w, s.downloads[h], Candidates(AroundOf(w, s, h), s.downloads[h].senders)).None?
    ensures Prepare(w, s) == Prepare(w, Stall(w, s, h))
  {
    hide NextHolder, Candidates, AroundOf, Stall, ActivateNext;
  }

  /* What does revive a download. */

  /** Queued with a round before it in which everyone but the suspects may be asked. */
  predicate NewRound(d: Dl) {
    d.phase == Queued && d.reason.None? && d.attempts == 0 && d.skipped == {}
  }

  /** Everything else about a download. */
  predicate SameWork(d: Dl, dl: Dl) {
    && d.manifest == dl.manifest && d.held == dl.held && d.chunkList == dl.chunkList && d.suspect == dl.suspect
    && d.contributors == dl.contributors && d.admitted == dl.admitted && d.fetch == dl.fetch && d.senders == dl.senders
  }

  /** A retry gives exactly the waiting downloads that are due and listed a new
      round, and touches nothing else. */
  lemma RetryRevivesExactlyTheDue(s: State, due: set<Hash>, h: Hash)
    requires h in s.downloads
    ensures var t := RetryParked(s, due);
            && t == s.(downloads := t.downloads) && t.downloads.Keys == s.downloads.Keys
            && if s.downloads[h].phase == Unavailable && h in due && h in s.order
               then NewRound(t.downloads[h]) && SameWork(t.downloads[h], s.downloads[h]) && t.downloads[h].refused == s.downloads[h].refused
               else t.downloads[h] == s.downloads[h]
  {
  }

  /** A peer that appears may be asked again, in a round with all its attempts,
      for exactly the waiting downloads it may hold; who else may be asked does
      not change, and a suspect stays one. */
  lemma AppearanceRevivesExactly(me: Peer, s: State, peer: Peer, mayHold: set<Hash>, h: Hash, p: Peer)
    requires h in s.downloads
    ensures var t := PeerAppeared(me, s, peer, mayHold);
            var d, e := s.downloads[h], t.downloads[h];
            && t == s.(downloads := t.downloads) && t.downloads.Keys == s.downloads.Keys
            && if peer != me && h in mayHold && h in s.order && d.phase in {Unavailable, Queued}
               then && e.phase == Queued && e.attempts == 0 && SameWork(e, d)
                    && (Eligible(e, p) <==> Eligible(d, p) || (p == peer && p !in d.suspect))
                    && (p in e.refused <==> p in d.refused && p != peer)
               else e == d
  {
  }

  /** Asking for a file that is held whole: nothing is evicted or asked, and the download is done. */
  lemma RequestForHeldIsDone(w: World, s: State, m: Manifest, sender: Option<Peer>)
    requires s.store.Complete(m.hash)
    ensures var t := RequestDownload(w, s, m, sender);
            && t.store == s.store && m.hash in t.downloads && t.downloads[m.hash].phase == Done
            && forall i: nat :: i in t.downloads[m.hash].held <==> i < t.downloads[m.hash].Count()
  {
    hide Joined;
    HeldRequestEffect(w, s, m, sender);
    var d := RequestDownload(w, s, m, sender).downloads[m.hash];
    assert forall i: nat :: i in d.AllIndices() <==> i < d.Count();
    hide RequestDownload;
  }

  /** Whoever sends a message naming a file is somebody to ask for it, except
      this node itself; nobody else is, and nobody is listed twice. */
  lemma RequestNotesSender(w: World, s: State, m: Manifest, sender: Option<Peer>, p: Peer)
    ensures var t := RequestDownload(w, s, m, sender);
            var before := if m.hash in s.downloads then s.downloads[m.hash].senders else [];
            && m.hash in t.downloads
            && (p in t.downloads[m.hash].senders <==> p in before || (sender == Some(p) && p != w.me))
            && (NoDuplicates(before) ==> NoDuplicates(t.downloads[m.hash].senders))
  {
    hide Store.DeleteAll, Store.Begin, Store.Indices, NoDuplicates;
    SenderJoins(w, s, m, sender, p);
    hide Joined;
  }

  lemma SenderJoins(w: World, s: State, m: Manifest, sender: Option<Peer>, p: Peer)
    ensures var t := Joined(w, s, m, sender);
            var before := if m.hash in s.downloads then s.downloads[m.hash].senders else [];
            && (p in t.downloads[m.hash].senders <==> p in before || (sender == Some(p) && p != w.me))
            && (NoDuplicates(before) ==> NoDuplicates(t.downloads[m.hash].senders))
  {
  }

  /** Asking for a file that is not held whole: a download that was parked or had
      failed begins a new round, whoever refused before; one under way is let be.
      It is admitted if there is room and waits for room otherwise. */
  lemma RequestRevives(w: World, s: State, m: Manifest, sender: Option<Peer>)
    requires !s.store.Complete(m.hash)
    ensures var t := RequestDownload(w, s, m, sender);
            var d := if m.hash in s.downloads then s.downloads[m.hash] else Fresh(m);
            && m.hash in t.downloads && (m.hash !in s.downloads ==> m.hash in t.order)
            && var e := t.downloads[m.hash];
            && (d.phase in {Unavailable, Failed} && (d.admitted || w.Admits(m.hash).room) ==> NewRound(e))
            && (d.phase !in {Unavailable, Failed} ==> e.attempts == d.attempts && e.skipped == d.skipped)
            && (d.admitted && d.phase !in {Unavailable, Failed} ==> e.phase == d.phase && e.reason == d.reason)
            && (e.admitted <==> d.admitted || w.Admits(m.hash).room)
            && (!d.admitted && !w.Admits(m.hash).room ==> e.phase == Queued && e.reason == Some(NoRoom))
            && (!d.admitted && w.Admits(m.hash).room ==> e.held == s.store.Indices(m.hash) && m.hash in t.store.rows)
  {
    hide Store.DeleteAll, Store.Begin, Joined;
    AwokenEffect(w, s, m, sender);
    RequestAdmits(w, s, m, sender);
    RequestLists(w, s, m, sender);
    var u := Awoken(w, s, m, sender);
    AdmissionKeepsChunks(w, u, m.hash);
    RoomIsRow(w, u, m.hash);
    hide RequestDownload, Awoken, Store.Indices;
  }

  lemma RoomIsRow(w: World, s: State, h: Hash)
    requires h in s.downloads
    ensures w.Admits(h).room ==> h in Admit(w, s, h).store.rows
  {
  }
}
