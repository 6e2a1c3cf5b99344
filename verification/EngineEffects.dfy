/** What sharing leaves in the tables, who is asked first, which download comes
    next and how much is asked for, each said without the code that does it. */
module EngineEffects {
  import opened Prelude
  import opened Chunks
  import opened FileStore
  import opened Download
  import opened Engine
  import opened EngineRuns
  import opened EngineScheduler

  /* Sharing. */

  /** Other files are as they were. */
  predicate OthersUntouched(h: Hash, a: Store, b: Store) {
    && (forall g | g in a.rows && g != h :: g in b.rows && b.rows[g] == a.rows[g]) && (forall g | g in b.rows && g != h :: g in a.rows)
    && (forall k | k in a.chunks && k.0 != h :: k in b.chunks && b.chunks[k] == a.chunks[k]) && (forall k | k in b.chunks && k.0 != h :: k in a.chunks)
  }

  /** An own row of the file, called complete. */
  predicate OwnAndComplete(st: Store, h: Hash) {
    h in st.rows && st.rows[h].own && st.rows[h].complete
  }

  lemma SharingHeld(sha: Sha, s: State, data: Bytes, room: bool, full: set<nat>)
    requires data != [] && s.store.Complete(sha(data))
    ensures var t := Share(sha, s, data, room, full);
            && t == s.(store := t.store) && OthersUntouched(sha(data), s.store, t.store)
            && OwnAndComplete(t.store, sha(data)) && t.store.chunks == s.store.chunks
            && t.store.rows[sha(data)].chunkCount == s.store.rows[sha(data)].chunkCount
  {
  }

  lemma SharingNothing(sha: Sha, s: State, data: Bytes, room: bool, full: set<nat>)
    requires data == [] || (!s.store.Complete(sha(data)) && !room)
    ensures Share(sha, s, data, room, full) == s
  {
  }

  lemma SharingStored(sha: Sha, s: State, data: Bytes, room: bool, full: set<nat>)
    requires GoesThrough(sha, s, data, room, full)
    ensures var h, t := sha(data), Share(sha, s, data, room, full);
            && t == s.(store := t.store) && OthersUntouched(h, s.store, t.store) && OwnAndComplete(t.store, h)
            && (forall i: nat | (h, i) in s.store.chunks :: (h, i) in t.store.chunks && t.store.chunks[(h, i)] == s.store.chunks[(h, i)])
            && (forall i: nat | i < ChunkCount(|data|) && (h, i) !in s.store.chunks ::
                  (h, i) in t.store.chunks && t.store.chunks[(h, i)] == Chunk(data, i))
            && (forall i: nat | i >= ChunkCount(|data|) && (h, i) !in s.store.chunks :: (h, i) !in t.store.chunks)
  {
    var h, n := sha(data), ChunkCount(|data|);
    var begun := s.store.Begin(h, |data|, true);
    BeginIsOwn(s.store, h, |data|);
    assert HasRoom(begun, h, 0, n, full);
    PutAllNeedsRoom(begun, h, data, 0, full);
    PutAllResult(begun, h, data, 0, full);
    hide PutAll, HasRoom, Chunk, Store.Begin;
    var st := PutAll(begun, h, data, 0, full).value;
    assert HasAll(st, h, 0, n);
    forall i: nat | i >= n && (h, i) !in s.store.chunks ensures (h, i) !in st.chunks {
      assert (h, i).1 == i;
    }
    forall i: nat | i < n && (h, i) !in s.store.chunks ensures (h, i) in st.chunks && st.chunks[(h, i)] == Chunk(data, i) {
      assert (h, i).1 == i;
    }
    assert OthersUntouched(h, s.store, st);
    MarkedIsComplete(s.store, st, h);
  }

  lemma BeginIsOwn(st: Store, h: Hash, size: nat)
    ensures var b := st.Begin(h, size, true);
            h in b.rows && b.rows[h].own && b.chunks == st.chunks && OthersUntouched(h, st, b)
  {
  }

  lemma MarkedIsComplete(a: Store, b: Store, h: Hash)
    requires OthersUntouched(h, a, b) && h in b.rows && b.rows[h].own
    ensures OthersUntouched(h, a, b.MarkComplete(h)) && OwnAndComplete(b.MarkComplete(h), h) && b.MarkComplete(h).chunks == b.chunks
  {
  }

  lemma SharingUndone(sha: Sha, s: State, data: Bytes, full: set<nat>)
    requires data != [] && !s.store.Complete(sha(data)) && !HasRoom(s.store, sha(data), 0, ChunkCount(|data|), full)
    ensures var h, t := sha(data), Share(sha, s, data, true, full);
            && t == s.(store := t.store) && OthersUntouched(h, s.store, t.store)
            && h !in t.store.rows && forall k | k in t.store.chunks :: k.0 != h
  {
    var h := sha(data);
    var begun := s.store.Begin(h, |data|, true);
    PutAllNeedsRoom(begun, h, data, 0, full);
    assert !HasRoom(begun, h, 0, ChunkCount(|data|), full);
    hide PutAll;
  }

  /** What a share leaves. An empty file and one there is no room for change
      nothing; a file held whole becomes own; otherwise every chunk missing is
      stored and the file is own and complete, or, if one could not be stored,
      nothing of it is left at all, not even what was there before. */
  lemma ShareLeaves(sha: Sha, s: State, data: Bytes, room: bool, full: set<nat>)
    ensures var h, t := sha(data), Share(sha, s, data, room, full);
            && t == s.(store := t.store) && OthersUntouched(h, s.store, t.store)
            && (data == [] || (!s.store.Complete(h) && !room) ==> t == s)
            && (data != [] && (s.store.Complete(h) || (room && HasRoom(s.store, h, 0, ChunkCount(|data|), full))) ==> OwnAndComplete(t.store, h))
            && (data != [] && !s.store.Complete(h) && room && !HasRoom(s.store, h, 0, ChunkCount(|data|), full) ==>
                  h !in t.store.rows && forall k | k in t.store.chunks :: k.0 != h)
            && (data != [] && s.store.Complete(h) ==> t.store.chunks == s.store.chunks)
  {
    hide Share, HasRoom, OthersUntouched, OwnAndComplete;
    SameOthers(sha(data), s.store);
    if data == [] || (!s.store.Complete(sha(data)) && !room) {
      SharingNothing(sha, s, data, room, full);
    } else if s.store.Complete(sha(data)) {
      SharingHeld(sha, s, data, room, full);
    } else if HasRoom(s.store, sha(data), 0, ChunkCount(|data|), full) {
      SharingStored(sha, s, data, room, full);
    } else {
      SharingUndone(sha, s, data, full);
    }
  }

  lemma SameOthers(h: Hash, st: Store)
    ensures OthersUntouched(h, st, st)
  {
  }

  /* Whom to ask. */

  function FirstAt(peers: seq<Peer>, p: Peer): nat
    requires p in peers
  {
    if peers[0] == p then 0 else 1 + FirstAt(peers[1..], p)
  }

  predicate Known(a: Around, senders: seq<Peer>, p: Peer) {
    Some(p) == a.last || p in senders || p in a.members
  }

  /** The place of a peer: who served last, then the senders in turn, then the members in turn. */
  function Place(a: Around, senders: seq<Peer>, p: Peer): nat
    requires Known(a, senders, p)
  {
    if Some(p) == a.last then 0
    else if p in senders then 1 + FirstAt(senders, p)
    else 1 + |senders| + FirstAt(a.members, p)
  }

  /** Each is named once, in order of place. */
  ghost predicate Ranked(rank: Peer -> nat, peers: seq<Peer>) {
    forall i, j | 0 <= i < j < |peers| :: rank(peers[i]) < rank(peers[j])
  }

  ghost predicate AllBelow(rank: Peer -> nat, peers: seq<Peer>, bound: nat) {
    forall p | p in peers :: rank(p) < bound
  }

  /** Adding peers whose rank is their place behind a base, to ones ranked below it. */
  lemma {:induction false} AddingKeepsRank(rank: Peer -> nat, me: Peer, ordered: seq<Peer>, done: seq<Peer>, peers: seq<Peer>, base: nat)
    requires Ranked(rank, ordered) && AllBelow(rank, ordered, base + |done|)
    requires forall p | p in done && p != me :: p in ordered
    requires forall p | p in peers && p !in ordered && p != me :: p !in done && rank(p) == base + |done| + FirstAt(peers, p)
    ensures Ranked(rank, AddPeers(me, ordered, peers)) && AllBelow(rank, AddPeers(me, ordered, peers), base + |done| + |peers|)
    decreases |peers|
  {
    if peers != [] {
      var p, rest := peers[0], peers[1..];
      assert peers == [p] + rest;
      var next := AddPeer(me, ordered, p);
      assert FirstAt(peers, p) == 0;
      forall q | q in rest && q !in next && q != me ensures q !in done + [p] && rank(q) == base + |done + [p]| + FirstAt(rest, q) {
        assert q in peers && q != p && q !in ordered;
        assert FirstAt(peers, q) == 1 + FirstAt(rest, q);
        assert |done + [p]| == |done| + 1;
      }
      AddingKeepsRank(rank, me, next, done + [p], rest, base);
    }
  }

  /** The candidates come each once: who served last, then the senders in the
      order they sent, then the members in the order given. */
  lemma CandidatesComeInOrder(a: Around, senders: seq<Peer>)
    ensures var r := Candidates(a, senders);
            && NoDuplicates(r)
            && (forall p | p in r :: Known(a, senders, p))
            && forall i, j | 0 <= i < j < |r| :: Known(a, senders, r[i]) && Known(a, senders, r[j]) && Place(a, senders, r[i]) < Place(a, senders, r[j])
  {
    hide Place, Candidates, AddPeers, Known, Ranked, AllBelow, NoDuplicates;
    var rank := (p: Peer) => if Known(a, senders, p) then Place(a, senders, p) else 0;
    var one := AddPeers(a.me, [], if a.last.Some? then [a.last.value] else []);
    var two := AddPeers(a.me, one, senders);
    LastIsKnown(a, senders);
    LastAlone(rank, a, senders);
    forall p | p in senders && p !in one && p != a.me ensures rank(p) == 1 + FirstAt(senders, p) {
      PlaceOfSender(a, senders, p);
    }
    AddingKeepsRank(rank, a.me, one, [], senders, 1);
    forall p | p in a.members && p !in two && p != a.me ensures rank(p) == 1 + |senders| + FirstAt(a.members, p) {
      PlaceOfMember(a, senders, p);
    }
    AddingKeepsRank(rank, a.me, two, [], a.members, 1 + |senders|);
    CandidatesAre(a, senders);
    RankedIsOrdered(rank, a, senders, Candidates(a, senders));
  }

  lemma CandidatesAre(a: Around, senders: seq<Peer>)
    ensures var one := AddPeers(a.me, [], if a.last.Some? then [a.last.value] else []);
            Candidates(a, senders) == AddPeers(a.me, AddPeers(a.me, one, senders), a.members)
    ensures forall p | p in Candidates(a, senders) :: Known(a, senders, p)
  {
    hide AddPeers;
  }

  lemma LastIsKnown(a: Around, senders: seq<Peer>)
    ensures a.last.Some? ==> Known(a, senders, a.last.value)
  {
  }

  lemma LastAlone(rank: Peer -> nat, a: Around, senders: seq<Peer>)
    requires a.last.Some? ==> rank(a.last.value) == Place(a, senders, a.last.value)
    ensures var one := AddPeers(a.me, [], if a.last.Some? then [a.last.value] else []);
            Ranked(rank, one) && AllBelow(rank, one, 1) && forall p | Some(p) == a.last && p != a.me :: p in one
  {
    if a.last.Some? {
      assert [a.last.value][1..] == [];
    }
  }

  lemma RankedIsOrdered(rank: Peer -> nat, a: Around, senders: seq<Peer>, r: seq<Peer>)
    requires Ranked(rank, r) && forall p | p in r :: Known(a, senders, p) && rank(p) == Place(a, senders, p)
    ensures NoDuplicates(r)
    ensures forall i, j | 0 <= i < j < |r| :: Known(a, senders, r[i]) && Known(a, senders, r[j]) && Place(a, senders, r[i]) < Place(a, senders, r[j])
  {
    hide Place, Known;
    forall i, j | 0 <= i < j < |r| ensures r[i] != r[j] && Place(a, senders, r[i]) < Place(a, senders, r[j]) {
      assert r[i] in r && r[j] in r && rank(r[i]) < rank(r[j]);
    }
  }

  lemma PlaceOfSender(a: Around, senders: seq<Peer>, p: Peer)
    requires p in senders && Some(p) != a.last
    ensures Known(a, senders, p) && Place(a, senders, p) == 1 + FirstAt(senders, p)
  {
  }

  lemma PlaceOfMember(a: Around, senders: seq<Peer>, p: Peer)
    requires p in a.members && p !in senders && Some(p) != a.last
    ensures Known(a, senders, p) && Place(a, senders, p) == 1 + |senders| + FirstAt(a.members, p)
  {
  }

  /** A peer that can be dialled goes before one that cannot, and of two alike in
      that one heard from goes before one that was not. */
  lemma TierPrefersReachable(w: World, p: Peer, q: Peer)
    ensures w.Tier(p) < w.Tier(q)
            <==> (p in w.reachable && q !in w.reachable)
                 || ((p in w.reachable <==> q in w.reachable) && p in w.online && q !in w.online)
  {
  }

  lemma {:induction false} FirstInTierIsFirst(w: World, dl: Dl, peers: seq<Peer>, tier: nat) returns (i: nat)
    requires FirstInTier(w, dl, peers, tier).Some?
    ensures i < |peers| && FirstInTier(w, dl, peers, tier) == Some(peers[i])
    ensures forall j | 0 <= j < i :: !(Eligible(dl, peers[j]) && w.Tier(peers[j]) == tier)
  {
    if Eligible(dl, peers[0]) && w.Tier(peers[0]) == tier {
      i := 0;
    } else {
      var k := FirstInTierIsFirst(w, dl, peers[1..], tier);
      i := k + 1;
      forall j | 0 <= j < i ensures !(Eligible(dl, peers[j]) && w.Tier(peers[j]) == tier) {
        if j > 0 {
          assert peers[j] == peers[1..][j - 1];
        }
      }
    }
  }

  /** Of the eligible candidates of the best tier, the one that comes first is asked. */
  lemma NextHolderIsFirstOfBest(w: World, dl: Dl, peers: seq<Peer>) returns (i: nat)
    requires NextHolder(w, dl, peers).Some?
    ensures i < |peers| && NextHolder(w, dl, peers) == Some(peers[i]) && Eligible(dl, peers[i])
    ensures forall p | p in peers && Eligible(dl, p) :: w.Tier(peers[i]) <= w.Tier(p)
    ensures forall j | 0 <= j < i && Eligible(dl, peers[j]) :: w.Tier(peers[i]) < w.Tier(peers[j])
  {
    hide FirstInTier;
    NextHolderIsBest(w, dl, peers);
    var p := NextHolder(w, dl, peers).value;
    BestIsFirst(w, dl, peers);
    i := FirstInTierIsFirst(w, dl, peers, w.Tier(p));
    forall j | 0 <= j < i && Eligible(dl, peers[j]) ensures w.Tier(peers[i]) < w.Tier(peers[j]) {
      assert peers[j] in peers;
    }
  }

  lemma BestIsFirst(w: World, dl: Dl, peers: seq<Peer>)
    requires NextHolder(w, dl, peers).Some?
    ensures FirstInTier(w, dl, peers, w.Tier(NextHolder(w, dl, peers).value)) == NextHolder(w, dl, peers)
  {
    hide FirstInTier;
    FirstInTierFinds(w, dl, peers, 0);
    FirstInTierFinds(w, dl, peers, 1);
    FirstInTierFinds(w, dl, peers, 2);
    FirstInTierFinds(w, dl, peers, 3);
  }

  /* Which download comes next, and how much is asked for. */

  /** A queued download that is admitted, or for which there is room. */
  predicate CanStart(w: World, s: State, h: Hash) {
    h in s.downloads && s.downloads[h].phase == Queued && (s.downloads[h].admitted || w.Admits(h).room)
  }

  lemma AdmittingChangesNoOther(w: World, s: State, h: Hash, g: Hash)
    requires h in s.downloads && s.downloads[h].phase == Queued && !w.Admits(h).room
    ensures CanStart(w, Admit(w, s, h), g) <==> CanStart(w, s, g)
    ensures Admit(w, s, h).downloads[h].admitted == s.downloads[h].admitted
  {
    hide Store.DeleteAll;
  }

  lemma AdmittingWithRoom(w: World, s: State, h: Hash)
    requires h in s.downloads && w.Admits(h).room
    ensures Admit(w, s, h).downloads[h].admitted
  {
  }

  /** The slot goes to the first download in line that can start, and stays free
      exactly if none can. */
  lemma {:induction false} FirstThatCanStartIsActivated(w: World, s: State, line: seq<Hash>)
    ensures var t := ActivateNext(w, s, line);
            && (t.active.None? <==> forall h | h in line :: !CanStart(w, s, h))
            && (t.active.Some? ==> exists i :: 0 <= i < |line| && t.active == Some(line[i]) && CanStart(w, s, line[i])
                                       && forall j | 0 <= j < i :: !CanStart(w, s, line[j]))
    decreases |line|
  {
    hide Admit;
    if line != [] {
      var h, rest := line[0], line[1..];
      assert line == [h] + rest;
      if h !in s.downloads || s.downloads[h].phase != Queued {
        FirstThatCanStartIsActivated(w, s, rest);
        LaterInLine(w, s, line, ActivateNext(w, s, rest).active);
      } else if s.downloads[h].admitted {
        assert CanStart(w, s, line[0]);
      } else if w.Admits(h).room {
        AdmittingWithRoom(w, s, h);
        assert CanStart(w, s, line[0]);
      } else {
        forall g ensures CanStart(w, Admit(w, s, h), g) <==> CanStart(w, s, g) {
          AdmittingChangesNoOther(w, s, h, g);
        }
        AdmittingChangesNoOther(w, s, h, h);
        var t := Admit(w, s, h);
        FirstThatCanStartIsActivated(w, t, rest);
        assert ActivateNext(w, s, line) == ActivateNext(w, t, rest);
        LaterInLine(w, s, line, ActivateNext(w, t, rest).active);
      }
    }
  }

  lemma LaterInLine(w: World, s: State, line: seq<Hash>, chosen: Option<Hash>)
    requires line != [] && !CanStart(w, s, line[0])
    requires chosen.Some? ==> exists i :: 0 <= i < |line[1..]| && chosen == Some(line[1..][i]) && CanStart(w, s, line[1..][i])
                                          && forall j | 0 <= j < i :: !CanStart(w, s, line[1..][j])
    ensures chosen.Some? ==> exists i :: 0 <= i < |line| && chosen == Some(line[i]) && CanStart(w, s, line[i])
                                         && forall j | 0 <= j < i :: !CanStart(w, s, line[j])
  {
    hide CanStart;
    if chosen.Some? {
      var i :| 0 <= i < |line[1..]| && chosen == Some(line[1..][i]) && CanStart(w, s, line[1..][i])
               && forall j | 0 <= j < i :: !CanStart(w, s, line[1..][j]);
      forall j | 0 <= j < i + 1 ensures !CanStart(w, s, line[j]) {
        if j > 0 {
          assert line[j] == line[1..][j - 1];
        }
      }
      assert chosen == Some(line[i + 1]) && CanStart(w, s, line[i + 1]);
    }
  }

  lemma {:induction false} RunIsMaximal(dl: Dl, first: nat, count: nat)
    requires 1 <= count
    ensures var r := RunLength(dl, first, count);
            r >= dl.window || first + r >= dl.Count() || first + r in dl.held
    decreases dl.window - count
  {
    if count < dl.window && first + count < dl.Count() && first + count !in dl.held {
      RunIsMaximal(dl, first, count + 1);
    }
  }

  /** A request for chunks starts at the first one missing and goes on until the
      window is full, the file ends, or the next chunk is held. */
  lemma RequestTakesAllItMay(dl: Dl, id: FetchId, holder: Peer)
    requires dl.chunkList.Some? && dl.NextIndex().Some?
    ensures var r := RequestFor(dl, id, holder);
            && r.WantChunks? && r.id == id && r.holder == holder && r.h == dl.Hash()
            && r.first !in dl.held && r.first < dl.Count() && (forall i: nat | i < r.first :: i in dl.held)
            && (r.count >= dl.window || r.first + r.count == dl.Count() || r.first + r.count in dl.held)
  {
    RunIsMaximal(dl, dl.NextIndex().value, 1);
  }
}
