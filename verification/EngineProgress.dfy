/** A download always settles: whatever holders answer, only so many requests
    are issued before every download is done, parked, failed, or waiting for room. */
module EngineProgress {
  import opened Prelude
  import opened Chunks
  import opened FileStore
  import opened Download
  import opened Engine
  import opened EngineRuns
  import opened EngineScheduler

  /* What a download may still cost. */

  /** Requests left, at most: in order of weight, the holders not yet found out,
      whether the chunk list is still missing, the chunks missing, and the
      holders left to try in this round. */
  function Rank(holders: nat, noList: bool, missing: nat, count: nat, attempts: nat): nat {
    ((holders * 2 + if noList then 1 else 0) * (count + 1) + missing) * 5 +
    (if attempts < MAX_HOLDER_ATTEMPTS then MAX_HOLDER_ATTEMPTS - attempts else 0)
  }

  /** What may still have to be fetched: until a download is admitted, every chunk. */
  function Left(dl: Dl): set<nat> { if dl.admitted then dl.Missing() else dl.AllIndices() }

  function Weight(pool: set<Peer>, dl: Dl): nat {
    if !dl.Open() then 0
    else 1 + Rank(|pool - dl.suspect|, dl.chunkList.None?, |Left(dl)|, dl.Count(), dl.attempts)
  }

  function Total(pool: set<Peer>, downloads: map<Hash, Dl>, order: seq<Hash>): nat {
    if order == [] then 0
    else (if order[0] in downloads then Weight(pool, downloads[order[0]]) else 0) + Total(pool, downloads, order[1..])
  }

  lemma ProductStep(x: nat, y: nat, k: nat)
    requires y < x
    ensures y * k + k <= x * k
  {
    assert (x - y - 1) * k >= 0;
    assert x * k == (x - y - 1) * k + y * k + k;
  }

  predicate RanksBelow(h': nat, l': bool, m': nat, a': nat, h: nat, l: bool, m: nat, a: nat) {
    h' < h || (h' == h && ((l && !l') || (l == l' && (m' < m || (m' == m && a <= a')))))
  }

  /** The rank follows the lexicographic order of its components. */
  lemma RankIsLexicographic(h': nat, l': bool, m': nat, a': nat, h: nat, l: bool, m: nat, a: nat, count: nat)
    requires RanksBelow(h', l', m', a', h, l, m, a)
    requires m <= count && m' <= count
    ensures Rank(h', l', m', count, a') <= Rank(h, l, m, count, a)
  {
    var x', x := h' * 2 + (if l' then 1 else 0), h * 2 + (if l then 1 else 0);
    if x' < x {
      ProductStep(x, x', count + 1);
    } else {
      assert x' == x;
    }
  }

  lemma {:induction false} BelowHasSize(s: set<nat>, n: nat)
    requires forall i | i in s :: i < n
    ensures |s| <= n
  {
    if n == 0 {
      assert s == {};
    } else {
      BelowHasSize(s - {n - 1}, n - 1);
    }
  }

  lemma LeftIsBounded(dl: Dl)
    ensures |dl.Missing()| <= dl.Count() && |Left(dl)| <= dl.Count()
  {
    BelowHasSize(dl.Missing(), dl.Count());
    BelowHasSize(Left(dl), dl.Count());
  }

  /** A new suspect; or the chunk list, a chunk, or nothing gained, and in the last case no attempts forgotten. */
  predicate CostsNoMore(pool: set<Peer>, d: Dl, dl: Dl) {
    || (exists p :: p in pool && p in d.suspect && p !in dl.suspect)
    || (dl.chunkList.None? && d.chunkList.Some?)
    || (dl.chunkList.None? == d.chunkList.None? && Left(d) < Left(dl))
    || (dl.chunkList.None? == d.chunkList.None? && Left(d) <= Left(dl) && dl.attempts <= d.attempts)
  }

  /** A download that lost nothing it knew and did not go back costs no more. */
  lemma WeightFollows(pool: set<Peer>, d: Dl, dl: Dl)
    requires dl.Open() && d.manifest == dl.manifest && dl.suspect <= d.suspect
    requires d.Open() ==> CostsNoMore(pool, d, dl)
    ensures Weight(pool, d) <= Weight(pool, dl)
  {
    if d.Open() {
      var left, left' := pool - dl.suspect, pool - d.suspect;
      assert left' <= left;
      CardinalityOfSubset(left', left);
      if p :| p in pool && p in d.suspect && p !in dl.suspect {
        assert p in left && p !in left';
      }
      LeftIsBounded(d);
      LeftIsBounded(dl);
      if Left(d) <= Left(dl) {
        CardinalityOfSubset(Left(d), Left(dl));
      }
      RankIsLexicographic(|left'|, d.chunkList.None?, |Left(d)|, d.attempts,
                          |left|, dl.chunkList.None?, |Left(dl)|, dl.attempts, dl.Count());
    }
  }

  lemma BoundArithmetic(p: nat, n: nat, x: nat, m: nat)
    requires x <= 2 * p + 1 && m <= n
    ensures (x * (n + 1) + m + 1) * 5 <= 10 * (p + 1) * (n + 1)
  {
    var k := n + 1;
    if x < 2 * p + 1 { ProductStep(2 * p + 1, x, k); }
    assert (2 * p + 1) * k + k == (2 * p + 2) * k == 2 * ((p + 1) * k);
  }

  lemma RankIsBounded(holders: nat, noList: bool, missing: nat, count: nat, attempts: nat, p: nat)
    requires holders <= p && missing <= count
    ensures 1 + Rank(holders, noList, missing, count, attempts) <= 10 * (p + 1) * (count + 1)
  {
    BoundArithmetic(p, count, holders * 2 + (if noList then 1 else 0), missing);
  }

  /** The cost of one download in plain numbers. */
  lemma WeightIsBounded(pool: set<Peer>, dl: Dl)
    ensures Weight(pool, dl) <= 10 * (|pool| + 1) * (dl.Count() + 1)
  {
    LeftIsBounded(dl);
    hide Left, Rank;
    CardinalityOfSubset(pool - dl.suspect, pool);
    RankIsBounded(|pool - dl.suspect|, dl.chunkList.None?, |Left(dl)|, dl.Count(), dl.attempts, |pool|);
  }

  /* No answer raises the cost. */

  predicate Outstanding(pool: set<Peer>, dl: Dl) {
    && dl.phase == Fetching && dl.admitted && ListFits(dl)
    && dl.holder.Some? && dl.holder.value in pool && dl.holder.value !in dl.suspect
    && dl.wantsList == dl.chunkList.None?
  }

  lemma CompletionSpends(sha: Sha, around: Around, pool: set<Peer>, dl: Dl, next: Dl, st: Store, served: bool)
    requires Outstanding(pool, dl) && next.manifest == dl.manifest && dl.suspect <= next.suspect
    requires dl.holder.value in next.suspect + next.contributors
    ensures Weight(pool, CompleteFile(sha, around, next, st, served).dl) <= Weight(pool, dl)
  {
    var d := CompleteFile(sha, around, next, st, served).dl;
    if d.Open() {
      assert dl.holder.value in d.suspect;
      WeightFollows(pool, d, dl);
    }
  }

  lemma ChunksSpend(sha: Sha, around: Around, full: set<nat>, pool: set<Peer>, dl: Dl, st: Store, data: Bytes)
    requires Outstanding(pool, dl)
    ensures Weight(pool, OnChunks(sha, around, full, dl, st, data).dl) <= Weight(pool, dl)
  {
    hide CompleteFile, Weight, TakeIn;
    var first := dl.NextIndex();
    var turn := OnChunks(sha, around, full, dl, st, data);
    if first.Some? && dl.chunkList.Some? {
      var t := TakeIn(sha, dl.manifest, dl.chunkList.value, full, dl.held, st, data, 0, first.value, 0);
      TakeInAdds(sha, dl.manifest, dl.chunkList.value, full, dl.held, st, data, 0, first.value, 0);
      assert first.value in dl.Missing();
      var taken := dl.(held := t.held);
      assert taken.Missing() <= dl.Missing() && (t.stored > 0 ==> first.value !in taken.Missing());
      if t.stop == DiskFull || t.stored == 0 {
        assert turn.dl.Missing() == taken.Missing();
        WeightFollows(pool, turn.dl, dl);
      } else {
        var checked := if t.stop == BadChunk then taken.ResetWindow().(suspect := With(dl.suspect, dl.holder)) else taken;
        var next := Credited(checked, dl.holder.value in checked.suspect);
        assert next.Missing() == taken.Missing();
        if |next.held| >= next.Count() {
          CompletionSpends(sha, around, pool, dl, next, t.store, dl.holder.value !in checked.suspect);
        } else {
          WeightFollows(pool, next, dl);
        }
      }
    } else {
      WeightFollows(pool, turn.dl, dl);
    }
  }

  /** Whatever the holder answers, the download costs no more than before. */
  lemma AnswerSpends(sha: Sha, around: Around, full: set<nat>, pool: set<Peer>, dl: Dl, st: Store, answer: Answer)
    requires Outstanding(pool, dl)
    ensures Weight(pool, OnAnswer(sha, around, full, dl, st, answer).dl) <= Weight(pool, dl)
  {
    hide OnChunks, Weight;
    var d := dl.(fetch := None);
    WeightFollows(pool, d, dl);
    var turn := OnAnswer(sha, around, full, dl, st, answer);
    match answer {
      case Failure(refusal) =>
        assert turn.dl.Missing() == dl.Missing();
        WeightFollows(pool, turn.dl, dl);
      case Reply(payload) =>
        if dl.wantsList {
          assert turn.dl.Missing() == dl.Missing();
          WeightFollows(pool, turn.dl, dl);
        } else {
          ChunksSpend(sha, around, full, pool, d, st, payload);
        }
    }
  }

  /* The whole engine, left to itself: no peer appears, nothing is retried, pruned or requested. */

  predicate KnownPeers(pool: set<Peer>, me: Peer, peers: seq<Peer>) {
    forall p | p in peers :: p in pool || p == me
  }

  /** A download knows only peers of the pool, and an outstanding request is one
      whose answer is expected, from a holder that is not suspect. */
  predicate PooledDl(pool: set<Peer>, me: Peer, byFetch: map<FetchId, Hash>, h: Hash, dl: Dl) {
    && KnownPeers(pool, me, dl.senders)
    && (dl.fetch.Some? ==>
          && dl.fetch.value in byFetch && byFetch[dl.fetch.value] == h
          && dl.holder.Some? && dl.holder.value in pool && dl.holder.value !in dl.suspect)
  }

  /** pool: every peer that any download might ever ask. */
  predicate Pooled(pool: set<Peer>, me: Peer, s: State) {
    && NoDuplicates(s.order) && ToSet(s.order) == s.downloads.Keys
    && (forall h | h in s.downloads :: PooledDl(pool, me, s.byFetch, h, s.downloads[h]))
    && (forall h | h in s.lastHolder :: s.lastHolder[h] in pool)
  }

  predicate Closed(pool: set<Peer>, me: Peer, s: State) {
    Ready(s) && Pooled(pool, me, s)
  }

  predicate ClosedWorld(pool: set<Peer>, me: Peer, w: World) {
    w.me == me && forall h | h in w.members :: KnownPeers(pool, me, w.members[h])
  }

  lemma {:induction false} TotalOfChange(pool: set<Peer>, a: map<Hash, Dl>, b: map<Hash, Dl>, order: seq<Hash>, h: Hash)
    requires NoDuplicates(order) && a.Keys == b.Keys && h in order && h in a
    requires forall g | g in a && g != h :: b[g] == a[g]
    ensures Total(pool, b, order) == Total(pool, a, order) - Weight(pool, a[h]) + Weight(pool, b[h])
  {
    hide Weight;
    if order[0] == h {
      TotalOfSame(pool, a, b, order[1..], h);
    } else {
      TotalOfChange(pool, a, b, order[1..], h);
    }
  }

  lemma {:induction false} TotalOfSame(pool: set<Peer>, a: map<Hash, Dl>, b: map<Hash, Dl>, order: seq<Hash>, h: Hash)
    requires a.Keys == b.Keys && h !in order
    requires forall g | g in a && g != h :: b[g] == a[g]
    ensures Total(pool, b, order) == Total(pool, a, order)
  {
    hide Weight;
    if order != [] {
      TotalOfSame(pool, a, b, order[1..], h);
    }
  }

  lemma {:induction false} WeightIsInTotal(pool: set<Peer>, downloads: map<Hash, Dl>, order: seq<Hash>, h: Hash)
    requires h in order && h in downloads
    ensures Weight(pool, downloads[h]) <= Total(pool, downloads, order)
  {
    if order[0] != h {
      WeightIsInTotal(pool, downloads, order[1..], h);
    }
  }

  function Cost(pool: set<Peer>, s: State): nat {
    Total(pool, s.downloads, s.order)
  }

  /** Changing one download changes the total by what that download's weight changes. */
  lemma CostOfChange(pool: set<Peer>, me: Peer, s: State, t: State, h: Hash, d: Dl)
    requires Pooled(pool, me, s) && h in s.downloads
    requires t.downloads == s.downloads[h := d] && t.order == s.order
    requires Weight(pool, d) <= Weight(pool, s.downloads[h])
    ensures Cost(pool, t) == Cost(pool, s) - Weight(pool, s.downloads[h]) + Weight(pool, d)
  {
    hide Weight;
    TotalOfChange(pool, s.downloads, t.downloads, s.order, h);
    WeightIsInTotal(pool, s.downloads, s.order, h);
  }

  /** One download changed, and knows no more peers than before. */
  lemma ChangeIsPooled(pool: set<Peer>, me: Peer, s: State, t: State, h: Hash)
    requires Pooled(pool, me, s) && h in s.downloads && t.order == s.order && t.lastHolder == s.lastHolder
    requires h in t.downloads && t.downloads == s.downloads[h := t.downloads[h]] && PooledDl(pool, me, t.byFetch, h, t.downloads[h])
    requires forall g | g in s.downloads && g != h && s.downloads[g].fetch.Some? ::
               s.downloads[g].fetch.value in t.byFetch && t.byFetch[s.downloads[g].fetch.value] == g
    ensures Pooled(pool, me, t)
  {
  }

  lemma ExpectedIsOutstanding(pool: set<Peer>, me: Peer, s: State, id: FetchId)
    requires Closed(pool, me, s) && Expects(s, id)
    ensures Orderly(s) && Fits(s) && Outstanding(pool, s.downloads[s.byFetch[id]])
    ensures forall g | g in s.downloads && s.downloads[g].fetch.Some? :: g == s.byFetch[id]
  {
    forall h | h in s.downloads
      ensures Regular(h, s.downloads[h], s.store) && PooledDl(pool, me, s.byFetch, h, s.downloads[h])
      ensures ListFits(s.downloads[h]) && (s.downloads[h].fetch.Some? ==> s.downloads[h].phase == Fetching)
    {}
    hide Regular, Fits, PooledDl;
    assert Fits(s);
    OutstandingIsOrderly(s);
    assert Regular(s.byFetch[id], s.downloads[s.byFetch[id]], s.store);
  }

  /** An answer to a request, expected or not, brings no new peer in. */
  lemma ResultIsPooled(sha: Sha, w: World, full: set<nat>, pool: set<Peer>, me: Peer, s: State, id: FetchId, answer: Answer)
    requires Pooled(pool, me, s) && Fits(s)
    ensures Pooled(pool, me, OnResult(sha, w, full, s, id, answer))
  {
    hide OnAnswer;
    if Expects(s, id) {
      var h := s.byFetch[id];
      AnswerKeeps(sha, AroundOf(w, s, h), full, s.downloads[h], s.store, answer);
      assert PooledDl(pool, me, s.byFetch, h, s.downloads[h]);
    }
  }

  /** An answer to the outstanding request. */
  lemma ResultSpends(sha: Sha, w: World, full: set<nat>, pool: set<Peer>, me: Peer, s: State, id: FetchId, answer: Answer)
    requires Closed(pool, me, s) && Expects(s, id)
    ensures Fits(s)
    ensures Closed(pool, me, OnResult(sha, w, full, s, id, answer))
    ensures Cost(pool, OnResult(sha, w, full, s, id, answer)) <= Cost(pool, s)
    ensures Idle(OnResult(sha, w, full, s, id, answer))
  {
    ExpectedIsOutstanding(pool, me, s, id);
    hide Ready, Orderly, Pooled;
    ResultIsOrderly(sha, w, full, s, id, answer);
    OrderlyIsReady(OnResult(sha, w, full, s, id, answer));
    ResultIsPooled(sha, w, full, pool, me, s, id, answer);
    var h := s.byFetch[id];
    AnswerKeeps(sha, AroundOf(w, s, h), full, s.downloads[h], s.store, answer);
    hide OnAnswer, Weight;
    AnswerSpends(sha, AroundOf(w, s, h), full, pool, s.downloads[h], s.store, answer);
    var t := OnAnswer(sha, AroundOf(w, s, h), full, s.downloads[h], s.store, answer);
    hide Outstanding, AroundOf;
    CostOfChange(pool, me, s, OnResult(sha, w, full, s, id, answer), h, t.dl);
  }

  /* The next request. */

  lemma AdmitSpends(w: World, pool: set<Peer>, me: Peer, s: State, h: Hash)
    requires Pooled(pool, me, s) && h in s.downloads && s.downloads[h].phase == Queued && !s.downloads[h].admitted
    ensures Pooled(pool, me, Admit(w, s, h)) && Cost(pool, Admit(w, s, h)) <= Cost(pool, s)
    ensures h in Admit(w, s, h).downloads && (Idle(s) ==> Idle(Admit(w, s, h)))
  {
    var t := Admit(w, s, h);
    var d, dl := t.downloads[h], s.downloads[h];
    assert d.AllIndices() == dl.AllIndices() && d.Missing() <= d.AllIndices();
    assert Left(d) <= Left(dl);
    assert t.order == s.order && t.lastHolder == s.lastHolder && t.byFetch == s.byFetch && t.downloads == s.downloads[h := d];
    assert d.manifest == dl.manifest && d.suspect == dl.suspect && d.chunkList == dl.chunkList && d.attempts == dl.attempts;
    assert PooledDl(pool, me, s.byFetch, h, dl) && PooledDl(pool, me, t.byFetch, h, d);
    hide Admit, Left;
    WeightFollows(pool, d, dl);
    hide Weight;
    CostOfChange(pool, me, s, t, h, d);
    ChangeIsPooled(pool, me, s, t, h);
  }

  lemma SlotCostsNothing(pool: set<Peer>, me: Peer, s: State, active: Option<Hash>)
    ensures var t := s.(active := active);
            && (Pooled(pool, me, s) ==> Pooled(pool, me, t)) && Cost(pool, t) == Cost(pool, s) && (Idle(s) ==> Idle(t))
  {
    hide PooledDl;
  }

  lemma {:induction false} ActivationSpends(w: World, pool: set<Peer>, me: Peer, s: State, candidates: seq<Hash>)
    requires Pooled(pool, me, s)
    ensures var t := ActivateNext(w, s, candidates);
            Pooled(pool, me, t) && Cost(pool, t) <= Cost(pool, s) && (Idle(s) ==> Idle(t))
    decreases |candidates|
  {
    hide Cost, Pooled, Idle, Admit;
    if candidates == [] {
      SlotCostsNothing(pool, me, s, None);
    } else {
      var h, rest := candidates[0], candidates[1..];
      if h !in s.downloads || s.downloads[h].phase != Queued {
        ActivationSpends(w, pool, me, s, rest);
      } else {
        var t := if s.downloads[h].admitted then s else Admit(w, s, h);
        if !s.downloads[h].admitted {
          AdmitSpends(w, pool, me, s, h);
        }
        SlotCostsNothing(pool, me, t, Some(h));
        if !t.downloads[h].admitted {
          ActivationSpends(w, pool, me, t, rest);
        }
      }
    }
  }

  /** No request is outstanding. */
  predicate Idle(s: State) {
    forall h | h in s.downloads :: s.downloads[h].fetch.None?
  }

  predicate Waiting(dl: Dl) { dl.phase == Queued && dl.admitted }

  /** Activation comes back empty-handed only when no candidate is queued with room. */
  lemma {:induction false} ActivationFindsWaiting(w: World, s: State, candidates: seq<Hash>)
    requires s.active.None? && ActivateNext(w, s, candidates).active.None?
    ensures var t := ActivateNext(w, s, candidates);
            && t.downloads.Keys == s.downloads.Keys
            && (forall h | h in s.downloads :: t.downloads[h].phase == s.downloads[h].phase
                                               && t.downloads[h].admitted == s.downloads[h].admitted)
            && (forall h | h in candidates && h in s.downloads :: !Waiting(s.downloads[h]))
    decreases |candidates|
  {
    if candidates != [] {
      var h, rest := candidates[0], candidates[1..];
      assert candidates == [h] + rest;
      if h !in s.downloads || s.downloads[h].phase != Queued {
        ActivationFindsWaiting(w, s, rest);
      } else {
        assert !s.downloads[h].admitted;
        var t := Admit(w, s, h);
        assert t.active.None? && !t.downloads[h].admitted;
        ActivationFindsWaiting(w, t, rest);
      }
    }
  }

  lemma IssueSpends(w: World, pool: set<Peer>, me: Peer, s: State, h: Hash, holder: Peer)
    requires Closed(pool, me, s) && ClosedWorld(pool, me, w) && s.active == Some(h)
    requires s.downloads[h].fetch.None?
    requires NextHolder(w, s.downloads[h], Candidates(AroundOf(w, s, h), s.downloads[h].senders)) == Some(holder)
    ensures Pooled(pool, me, IssueTo(w, s, h, holder))
    ensures Cost(pool, IssueTo(w, s, h, holder)) < Cost(pool, s)
    ensures Expects(IssueTo(w, s, h, holder), w.nextFetch)
  {
    var dl := s.downloads[h];
    var d, t := Asking(dl, w.nextFetch, holder), IssueTo(w, s, h, holder);
    IdleUnlessActive(s);
    assert Idle(s) && PooledDl(pool, me, s.byFetch, h, dl);
    hide Regular;
    NextHolderIsBest(w, dl, Candidates(AroundOf(w, s, h), dl.senders));
    assert PooledDl(pool, me, t.byFetch, h, d);
    AskingSpends(pool, dl, w.nextFetch, holder);
    hide PooledDl, Weight, Candidates, NextHolder, ClosedWorld, AroundOf, Total, Asking;
    CostOfChange(pool, me, s, t, h, d);
    ChangeIsPooled(pool, me, s, t, h);
  }

  lemma AskingSpends(pool: set<Peer>, dl: Dl, id: FetchId, holder: Peer)
    requires dl.Open() && dl.attempts < MAX_HOLDER_ATTEMPTS
    ensures Weight(pool, Asking(dl, id, holder)) < Weight(pool, dl)
  {
    assert Left(Asking(dl, id, holder)) == Left(dl);
  }

  lemma StallSpends(w: World, pool: set<Peer>, me: Peer, s: State, h: Hash)
    requires Pooled(pool, me, s) && h in s.downloads && s.downloads[h].fetch.None?
    ensures Pooled(pool, me, Stall(w, s, h)) && Cost(pool, Stall(w, s, h)) <= Cost(pool, s)
    ensures Idle(s) ==> Idle(Stall(w, s, h))
  {
    var t := Stall(w, s, h);
    assert PooledDl(pool, me, s.byFetch, h, s.downloads[h]);
    assert t.downloads == s.downloads[h := t.downloads[h]] && t.downloads[h].fetch.None? && t.downloads[h].senders == s.downloads[h].senders;
    assert Weight(pool, t.downloads[h]) == 0;
    hide Weight, Stall, Candidates, AllSaidNo;
    CostOfChange(pool, me, s, t, h, t.downloads[h]);
    ChangeIsPooled(pool, me, s, t, h);
  }

  /** Everything is done, parked, failed, or waiting for the store to have room. */
  predicate Settled(s: State) {
    forall h | h in s.downloads ::
      var dl := s.downloads[h];
      !dl.Open() || (dl.phase == Queued && !dl.admitted)
  }

  /** Issuing a request costs one; finding none to issue, with none outstanding, means everything has settled. */
  lemma {:induction false} PrepareSpends(w: World, pool: set<Peer>, me: Peer, s: State)
    requires Closed(pool, me, s) && ClosedWorld(pool, me, w)
    ensures var p := Prepare(w, s);
            && Pooled(pool, me, p.state)
            && Cost(pool, p.state) + (if p.request.Some? then 1 else 0) <= Cost(pool, s)
            && (p.request.Some? ==> Expects(p.state, w.nextFetch))
            && (Idle(s) && p.request.None? ==> Settled(p.state) && Idle(p.state))
            && (!Idle(s) && p.request.None? ==> p.state == s)
    decreases |OpenDownloads(s)|, if HasActive(s) then 1 else 0
  {
    assert HasActive(s) <==> s.active.Some?;
    IdleUnlessActive(s);
    hide Cost, Pooled, Ready, ClosedWorld, NextHolder, Candidates, AroundOf, IssueTo, Stall, ActivateNext, Idle, RequestFor;
    ActivationKeepsOpen(w, s, s.order);
    var t := if HasActive(s) then s else ActivateNext(w, s, s.order);
    if !HasActive(s) {
      ActivationSpends(w, pool, me, s, s.order);
      ActivationIsReady(w, s, s.order);
      if t.active.None? {
        NothingRuns(w, pool, me, s);
      }
    }
    if HasActive(t) {
      var h := t.active.value;
      var dl := t.downloads[h];
      if dl.fetch.None? {
        var holder := NextHolder(w, dl, Candidates(AroundOf(w, t, h), dl.senders));
        if holder.Some? {
          IssueSpends(w, pool, me, t, h, holder.value);
        } else {
          StallSpends(w, pool, me, t, h);
          StallIsReady(w, t, h);
          StallCloses(w, t, h);
          IdleUnlessActive(t);
          PrepareSpends(w, pool, me, Stall(w, t, h));
        }
      } else {
        IdleUnlessActive(t);
      }
    }
  }

  /** Only the active download can have a request outstanding. */
  lemma IdleUnlessActive(s: State)
    requires Ready(s)
    ensures Idle(s) <==> s.active.None? || s.downloads[s.active.value].fetch.None?
  {
    forall h | h in s.downloads && s.downloads[h].fetch.Some? ensures s.active == Some(h) {
      assert Regular(h, s.downloads[h], s.store);
    }
  }

  lemma NothingRuns(w: World, pool: set<Peer>, me: Peer, s: State)
    requires Closed(pool, me, s) && s.active.None? && ActivateNext(w, s, s.order).active.None?
    ensures Settled(ActivateNext(w, s, s.order))
  {
    ActivationFindsWaiting(w, s, s.order);
    var t := ActivateNext(w, s, s.order);
    forall h | h in t.downloads ensures !t.downloads[h].Open() || (t.downloads[h].phase == Queued && !t.downloads[h].admitted) {
      assert h in ToSet(s.order);
      assert !Waiting(s.downloads[h]);
    }
  }

  /** Issuing keeps everything, and never asks for nothing. */
  lemma PrepareIsClosed(w: World, pool: set<Peer>, me: Peer, s: State)
    requires Closed(pool, me, s) && ClosedWorld(pool, me, w)
    ensures var p := Prepare(w, s); Closed(pool, me, p.state) && (p.request.Some? ==> !p.request.value.WantNothing?)
  {
    PrepareIsOrderly(w, s);
    PrepareSpends(w, pool, me, s);
    hide Ready, Pooled, Prepare;
    OrderlyIsReady(Prepare(w, s).state);
  }

  /* Whole runs. */

  /** One answer and the request that follows it: the node's view before and after, and the answer itself. */
  datatype Round = Round(before: World, answer: Answer, full: set<nat>, after: World)

  datatype Driven = Driven(state: State, requests: seq<Request>, ended: bool)

  /** Answers the outstanding request, issues the next, and so on for as long as requests are issued. */
  function Drive(sha: Sha, s: State, id: FetchId, rounds: seq<Round>): Driven
    decreases |rounds|
  {
    if rounds == [] || !Fits(s) then Driven(s, [], false)
    else
      var r := rounds[0];
      var p := Prepare(r.after, OnResult(sha, r.before, r.full, s, id, r.answer));
      if p.request.None? then Driven(p.state, [], true)
      else
        var rest := Drive(sha, p.state, r.after.nextFetch, rounds[1..]);
        Driven(rest.state, [p.request.value] + rest.requests, rest.ended)
  }

  predicate RealRequests(rs: seq<Request>) {
    forall r | r in rs :: !r.WantNothing?
  }

  /** With a fixed pool of peers and no outside event, whatever the holders
      answer, the engine issues no more requests than its cost allows, none of
      them for nothing; so a run of more rounds than that has ended, and it
      ended with everything settled. */
  lemma {:induction false} DownloadsSettle(sha: Sha, pool: set<Peer>, me: Peer, s: State, id: FetchId, rounds: seq<Round>)
    requires Closed(pool, me, s) && Expects(s, id)
    requires forall r | r in rounds :: ClosedWorld(pool, me, r.before) && ClosedWorld(pool, me, r.after)
    ensures var run := Drive(sha, s, id, rounds);
            && |run.requests| <= Cost(pool, s) && RealRequests(run.requests)
            && (!run.ended ==> |run.requests| == |rounds|)
            && (|rounds| > Cost(pool, s) ==> run.ended)
            && (run.ended ==> Settled(run.state))
    decreases |rounds|
  {
    hide Cost, Closed, OnResult, Prepare, Settled, Expects, Idle, ClosedWorld;
    if rounds != [] {
      var r := rounds[0];
      assert r in rounds && forall x | x in rounds[1..] :: x in rounds;
      ResultSpends(sha, r.before, r.full, pool, me, s, id, r.answer);
      var t := OnResult(sha, r.before, r.full, s, id, r.answer);
      PrepareSpends(r.after, pool, me, t);
      PrepareIsClosed(r.after, pool, me, t);
      var p := Prepare(r.after, t);
      if p.request.Some? {
        DownloadsSettle(sha, pool, me, p.state, r.after.nextFetch, rounds[1..]);
      }
    }
  }

  /* From every reachable state. */

  /** Everybody an event names is of the pool. */
  predicate InPool(pool: set<Peer>, me: Peer, e: Event) {
    match e
    case Requested(w, _, sender) => sender.Some? ==> sender.value in pool || sender.value == me
    case Pumped(w) => ClosedWorld(pool, me, w)
    case _ => true
  }

  lemma TrackedIsPooled(pool: set<Peer>, me: Peer, s: State, m: Manifest)
    requires Pooled(pool, me, s)
    ensures Pooled(pool, me, Tracked(s, m)) && m.hash in Tracked(s, m).downloads
  {
    if m.hash !in s.downloads {
      assert m.hash !in ToSet(s.order) && m.hash !in s.order;
      assert PooledDl(pool, me, s.byFetch, m.hash, Fresh(m));
      hide PooledDl;
      assert ToSet(s.order + [m.hash]) == ToSet(s.order) + {m.hash};
    }
  }

  lemma JoinIsPooled(pool: set<Peer>, me: Peer, w: World, s: State, m: Manifest, sender: Option<Peer>)
    requires Pooled(pool, me, s) && (sender.Some? ==> sender.value in pool || sender.value == me)
    ensures Pooled(pool, me, Joined(w, s, m, sender))
  {
    TrackedIsPooled(pool, me, s, m);
    hide Tracked;
    var t, u := Tracked(s, m), Joined(w, s, m, sender);
    assert PooledDl(pool, me, t.byFetch, m.hash, t.downloads[m.hash]);
    assert PooledDl(pool, me, u.byFetch, m.hash, u.downloads[m.hash]);
    hide PooledDl;
    ChangeIsPooled(pool, me, t, u, m.hash);
  }

  predicate SamePeers(d: Dl, dl: Dl) {
    d.senders == dl.senders && d.fetch == dl.fetch && d.holder == dl.holder && d.suspect == dl.suspect
  }

  lemma RejoinKeepsPeers(w: World, s: State, h: Hash)
    requires h in s.downloads
    ensures var t := Rejoined(w, s, h);
            t == s.(downloads := s.downloads[h := t.downloads[h]], store := t.store) && SamePeers(t.downloads[h], s.downloads[h])
  {
    hide Store.Begin, Store.DeleteAll, Store.Indices;
  }

  lemma SamePeersIsPooled(pool: set<Peer>, me: Peer, s: State, t: State)
    requires Pooled(pool, me, s) && t.order == s.order && t.byFetch == s.byFetch && t.lastHolder == s.lastHolder
    requires t.downloads.Keys == s.downloads.Keys && forall h | h in s.downloads :: SamePeers(t.downloads[h], s.downloads[h])
    ensures Pooled(pool, me, t)
  {
    forall h | h in s.downloads ensures PooledDl(pool, me, t.byFetch, h, t.downloads[h]) {
      assert PooledDl(pool, me, s.byFetch, h, s.downloads[h]) && SamePeers(t.downloads[h], s.downloads[h]);
    }
    hide PooledDl, SamePeers;
  }

  lemma RequestIsPooled(pool: set<Peer>, me: Peer, w: World, s: State, m: Manifest, sender: Option<Peer>)
    requires Pooled(pool, me, s) && (sender.Some? ==> sender.value in pool || sender.value == me)
    ensures Pooled(pool, me, RequestDownload(w, s, m, sender))
  {
    JoinIsPooled(pool, me, w, s, m, sender);
    var h, t, r := m.hash, Joined(w, s, m, sender), RequestDownload(w, s, m, sender);
    RejoinKeepsPeers(w, t, h);
    assert SamePeers(AlreadyHeld(t.downloads[h]), t.downloads[h]);
    hide Joined, Rejoined, AlreadyHeld;
    assert r == t.(downloads := t.downloads[h := r.downloads[h]], store := r.store) && SamePeers(r.downloads[h], t.downloads[h]);
    hide RequestDownload;
    assert PooledDl(pool, me, t.byFetch, h, t.downloads[h]);
    ChangeIsPooled(pool, me, t, r, h);
  }

  lemma PruneIsPooled(pool: set<Peer>, me: Peer, s: State, deleted: set<Hash>)
    requires Pooled(pool, me, s)
    ensures Pooled(pool, me, Prune(s, deleted))
  {
    var u := s.(store := s.store.DeleteAll(deleted));
    var gone := GoneAmong(u, u.order);
    hide PooledDl;
    WithoutAllKeepsDistinct(s.order, gone);
    assert forall h :: h in WithoutAll(s.order, gone) <==> h in ToSet(s.order) && h !in gone;
  }

  lemma {:induction false} WithoutAllKeepsDistinct(order: seq<Hash>, gone: set<Hash>)
    requires NoDuplicates(order)
    ensures NoDuplicates(WithoutAll(order, gone))
  {
    if order != [] {
      assert order == [order[0]] + order[1..];
      assert order[0] !in order[1..];
      WithoutAllKeepsDistinct(order[1..], gone);
    }
  }

  lemma ShareIsPooled(sha: Sha, pool: set<Peer>, me: Peer, s: State, data: Bytes, room: bool, full: set<nat>)
    requires Pooled(pool, me, s)
    ensures Pooled(pool, me, Share(sha, s, data, room, full))
  {
    hide PutAll;
    SamePeersIsPooled(pool, me, s, Share(sha, s, data, room, full));
  }

  lemma AppearanceIsPooled(pool: set<Peer>, me: Peer, s: State, node: Peer, peer: Peer, mayHold: set<Hash>)
    requires Pooled(pool, me, s)
    ensures Pooled(pool, me, PeerAppeared(node, s, peer, mayHold))
  {
    hide Pooled;
    SamePeersIsPooled(pool, me, s, PeerAppeared(node, s, peer, mayHold));
  }

  lemma RetryIsPooled(pool: set<Peer>, me: Peer, s: State, due: set<Hash>)
    requires Pooled(pool, me, s)
    ensures Pooled(pool, me, RetryParked(s, due))
  {
    hide Pooled;
    SamePeersIsPooled(pool, me, s, RetryParked(s, due));
  }

  lemma StepIsPooled(sha: Sha, pool: set<Peer>, me: Peer, s: State, e: Event)
    requires Orderly(s) && Pooled(pool, me, s) && Fits(s) && InPool(pool, me, e)
    ensures Pooled(pool, me, Step(sha, s, e))
  {
    hide Pooled, Share, RequestDownload, OnResult, Prepare, Prune, PeerAppeared, RetryParked, Orderly;
    match e {
      case Shared(data, room, full) => ShareIsPooled(sha, pool, me, s, data, room, full);
      case Requested(w, m, sender) => RequestIsPooled(pool, me, w, s, m, sender);
      case Answered(w, full, id, answer) => ResultIsPooled(sha, w, full, pool, me, s, id, answer);
      case Pumped(w) => OrderlyIsReady(s); PrepareSpends(w, pool, me, s);
      case Pruned(deleted) => PruneIsPooled(pool, me, s, deleted);
      case Appeared(me', peer, mayHold) => AppearanceIsPooled(pool, me, s, me', peer, mayHold);
      case Retried(due) => RetryIsPooled(pool, me, s, due);
    }
  }

  lemma {:induction false} RunIsPooled(sha: Sha, pool: set<Peer>, me: Peer, s: State, es: seq<Event>)
    requires Orderly(s) && Pooled(pool, me, s) && AllHarmless(sha, s, es)
    requires forall e | e in es :: Checked(e) && InPool(pool, me, e)
    ensures Orderly(Run(sha, s, es)) && Pooled(pool, me, Run(sha, s, es))
    decreases |es|
  {
    if es != [] {
      OrderlyIsReady(s);
      assert es[0] in es && forall e | e in es[1..] :: e in es;
      hide Orderly, Pooled, Step, Harmless, Fits, InPool, Checked;
      StepIsOrderly(sha, s, es[0]);
      StepIsPooled(sha, pool, me, s, es[0]);
      RunIsPooled(sha, pool, me, Step(sha, s, es[0]), es[1..]);
    }
  }

  /** Nothing more is asked of the engine: it waits for the outstanding answer, if any, and goes on from there. */
  function LeftAlone(sha: Sha, w: World, s: State, rounds: seq<Round>): Driven {
    var p := Prepare(w, s);
    if p.request.Some? then
      var rest := Drive(sha, p.state, w.nextFetch, rounds);
      Driven(rest.state, [p.request.value] + rest.requests, rest.ended)
    else if HasActive(p.state) && p.state.downloads[p.state.active.value].fetch.Some? then
      Drive(sha, p.state, p.state.downloads[p.state.active.value].fetch.value, rounds)
    else Driven(p.state, [], true)
  }

  lemma LeftAloneSettles(sha: Sha, pool: set<Peer>, me: Peer, w: World, s: State, rounds: seq<Round>)
    requires Closed(pool, me, s) && ClosedWorld(pool, me, w)
    requires forall r | r in rounds :: ClosedWorld(pool, me, r.before) && ClosedWorld(pool, me, r.after)
    ensures var run := LeftAlone(sha, w, s, rounds);
            && |run.requests| <= Cost(pool, s) && RealRequests(run.requests)
            && (|rounds| > Cost(pool, s) ==> run.ended)
            && (run.ended ==> Settled(run.state))
  {
    PrepareSpends(w, pool, me, s);
    PrepareIsClosed(w, pool, me, s);
    IdleUnlessActive(s);
    var p := Prepare(w, s);
    if p.request.Some? {
      hide Cost, Closed, Prepare, Settled, Expects, Idle, ClosedWorld, Drive;
      DownloadsSettle(sha, pool, me, p.state, w.nextFetch, rounds);
    } else if !Idle(s) {
      assert PooledDl(pool, me, s.byFetch, s.active.value, s.downloads[s.active.value]);
      hide Cost, Closed, Prepare, Settled, Idle, ClosedWorld, Drive;
      DownloadsSettle(sha, pool, me, s, s.downloads[s.active.value].fetch.value, rounds);
    }
  }

  /** From nothing or from a restart, after any run of harmless events among
      peers of the pool: left alone, the engine issues no more requests than its
      cost then allows, each for something missing, and everything settles. */
  lemma ReachableSettles(sha: Sha, pool: set<Peer>, me: Peer, s: State, es: seq<Event>, w: World, rounds: seq<Round>)
    requires Orderly(s) && Pooled(pool, me, s) && AllHarmless(sha, s, es)
    requires forall e | e in es :: Checked(e) && InPool(pool, me, e)
    requires ClosedWorld(pool, me, w)
    requires forall r | r in rounds :: ClosedWorld(pool, me, r.before) && ClosedWorld(pool, me, r.after)
    ensures var t := Run(sha, s, es);
            var run := LeftAlone(sha, w, t, rounds);
            && |run.requests| <= Cost(pool, t) && RealRequests(run.requests)
            && (|rounds| > Cost(pool, t) ==> run.ended)
            && (run.ended ==> Settled(run.state))
  {
    RunIsPooled(sha, pool, me, s, es);
    OrderlyIsReady(Run(sha, s, es));
    LeftAloneSettles(sha, pool, me, w, Run(sha, s, es), rounds);
  }

  /** Where a run may begin: a node that tracks nothing, and a restart in which every file lacks a chunk. */
  lemma OriginsAreClosed(pool: set<Peer>, me: Peer, st: Store, listed: seq<Hash>, told: map<Hash, Told>)
    requires NoDuplicates(listed) && Telling(told) && forall h | h in told :: KnownPeers(pool, me, told[h].senders)
    ensures Orderly(Start()) && Pooled(pool, me, Start())
    ensures Pooled(pool, me, Restored(st, listed, told))
    ensures Orderly(Restored(st, listed, told))
            <==> forall h | h in listed && h in told :: !HasAll(st, h, 0, ChunkCount(told[h].manifest.size))
  {
    RestoredIsOrderly(st, listed, told);
    assert ToSet(Named(listed, told)) == Restored(st, listed, told).downloads.Keys;
  }
}
