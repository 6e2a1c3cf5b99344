/** Runs of the download manager that end badly, event by event: each shows that
    a condition the other results ask for is one the code can really miss. */
module EngineExamples {
  import opened Prelude
  import opened Chunks
  import opened FileStore
  import opened Download
  import opened Engine
  import opened EngineRuns
  import opened EngineScheduler
  import opened EngineSafety
  import opened ServeAndVerify
  import opened EngineTrust

  /* One event at a time. */

  /** A node 0 that can dial nobody and has heard from nobody, with no channel members to ask. */
  function Alone(admissions: map<Hash, Admission>, next: FetchId): World {
    World(0, map[], {}, {}, admissions, next)
  }

  function Granted(h: Hash): map<Hash, Admission> { map[h := Admission({}, true)] }

  lemma {:induction false} RunAppends(sha: Sha, s: State, es: seq<Event>, fs: seq<Event>)
    ensures Run(sha, s, es + fs) == Run(sha, Run(sha, s, es), fs)
    decreases |es|
  {
    if es == [] {
      assert es + fs == fs;
    } else if Fits(s) {
      assert (es + fs)[1..] == es[1..] + fs;
      hide Step;
      RunAppends(sha, Step(sha, s, es[0]), es[1..], fs);
    }
  }

  lemma RunFirst(sha: Sha, s: State, e: Event, es: seq<Event>)
    requires Fits(s)
    ensures Run(sha, s, [e] + es) == Run(sha, Step(sha, s, e), es)
  {
    hide Step;
    assert ([e] + es)[1..] == es;
  }

  lemma RunOne(sha: Sha, s: State, e: Event)
    requires Fits(s)
    ensures Run(sha, s, [e]) == Step(sha, s, e)
  {
    hide Step;
    assert [e][1..] == [];
  }

  function Known(sender: Option<Peer>): seq<Peer> { if sender.Some? then [sender.value] else [] }

  lemma RequestStarts(w: World, s: State, m: Manifest, sender: Option<Peer>)
    requires m.hash !in s.downloads && !s.store.Complete(m.hash) && w.Admits(m.hash).room && sender != Some(w.me)
    ensures RequestDownload(w, s, m, sender)
            == s.(downloads := s.downloads[m.hash := Fresh(m).(senders := Known(sender), admitted := true, held := s.store.Indices(m.hash))],
                  order := s.order + [m.hash],
                  store := s.store.DeleteAll(w.Admits(m.hash).evicted - {m.hash}).Begin(m.hash, m.size, false))
  {
    var h, d := m.hash, Fresh(m).(senders := Known(sender));
    var u := s.(downloads := s.downloads[h := d], order := s.order + [h]);
    assert sender.Some? ==> [] + [sender.value] == [sender.value];
    assert s.downloads[h := Fresh(m)][h := d] == s.downloads[h := d];
    assert Joined(w, s, m, sender) == u;
    assert u.downloads[h := Woken(d)] == u.downloads && Change(u, h, Woken(u.downloads[h])) == u;
    AdmissionKeepsChunks(w, u, h);
    var e := d.(admitted := true, held := s.store.Indices(h));
    assert Admit(w, u, h).downloads[h] == e && u.downloads[h := e] == s.downloads[h := e];
  }

  lemma {:induction false} OnlyOneWaits(w: World, s: State, h: Hash, candidates: seq<Hash>)
    requires h in candidates && h in s.downloads && s.downloads[h].phase == Queued && s.downloads[h].admitted
    requires forall g | g in candidates && g in s.downloads && g != h :: s.downloads[g].phase != Queued
    ensures ActivateNext(w, s, candidates) == s.(active := Some(h))
    decreases |candidates|
  {
    if candidates[0] != h {
      OnlyOneWaits(w, s, h, candidates[1..]);
    }
  }

  /** One peer to ask: it sent the message, and served the file last if anyone did. */
  predicate OnlyPeer(s: State, h: Hash, p: Peer) {
    && h in s.downloads && s.downloads[h].senders == [p] && p != 0
    && (h in s.lastHolder ==> s.lastHolder[h] == p)
    && p !in s.downloads[h].suspect && p !in s.downloads[h].skipped && s.downloads[h].attempts < MAX_HOLDER_ATTEMPTS
  }

  lemma OnlyPeerIsNext(s: State, h: Hash, p: Peer, admissions: map<Hash, Admission>, next: FetchId)
    requires OnlyPeer(s, h, p)
    ensures var w := Alone(admissions, next);
            NextHolder(w, s.downloads[h], Candidates(AroundOf(w, s, h), s.downloads[h].senders)) == Some(p)
  {
    var w := Alone(admissions, next);
    NextHolderIsBest(w, s.downloads[h], Candidates(AroundOf(w, s, h), s.downloads[h].senders));
  }

  lemma PumpAsks(s: State, h: Hash, p: Peer, admissions: map<Hash, Admission>, next: FetchId)
    requires OnlyPeer(s, h, p) && s.downloads[h].fetch.None?
    requires s.active == Some(h) || (
               && s.active.None? && h in s.order && s.downloads[h].phase == Queued && s.downloads[h].admitted
               && forall g | g in s.order && g in s.downloads && g != h :: s.downloads[g].phase != Queued)
    ensures Prepare(Alone(admissions, next), s)
            == Prepared(IssueTo(Alone(admissions, next), s.(active := Some(h)), h, p), Some(RequestFor(s.downloads[h], next, p)))
  {
    var w := Alone(admissions, next);
    if s.active.None? {
      OnlyOneWaits(w, s, h, s.order);
    }
    OnlyPeerIsNext(s.(active := Some(h)), h, p, admissions, next);
    hide ActivateNext, NextHolder, Candidates;
  }

  /** A file's list of digests, as its manifest's root asks. */
  ghost predicate Lists(sha: Sha, m: Manifest, list: seq<Bytes>) {
    && |list| == ChunkCount(m.size) && ChunkRoot(sha, list) == m.root
    && forall i | 0 <= i < |list| :: |list[i]| == CHUNK_HASH_BYTES
  }

  predicate Awaiting(s: State, h: Hash, id: FetchId, p: Peer) {
    && Fits(s) && id in s.byFetch && s.byFetch[id] == h && h in s.downloads
    && s.downloads[h].fetch == Some(id) && s.downloads[h].holder == Some(p) && s.downloads[h].Hash() == h
  }

  lemma ListArrives(sha: Sha, w: World, s: State, h: Hash, id: FetchId, p: Peer, list: seq<Bytes>)
    requires Awaiting(s, h, id, p) && s.downloads[h].wantsList && Lists(sha, s.downloads[h].manifest, list)
    ensures OnResult(sha, w, {}, s, id, Reply(Join(list)))
            == s.(byFetch := s.byFetch - {id}, lastHolder := s.lastHolder[h := p],
                  downloads := s.downloads[h := RoundReset(s.downloads[h].(fetch := None, chunkList := Some(list)))])
  {
    SplitJoinedHashes(list);
  }

  /** A holder that is no suspect serves the first missing chunk, and the file lacks others still. */
  lemma ChunkArrives(sha: Sha, w: World, s: State, h: Hash, id: FetchId, p: Peer, i: nat, c: Bytes)
    requires Awaiting(s, h, id, p) && ServesNext(sha, s.downloads[h], p, i, c) && |s.downloads[h].held| + 1 < s.downloads[h].Count()
    ensures OnResult(sha, w, {}, s, id, Reply(c))
            == s.(byFetch := s.byFetch - {id}, lastHolder := s.lastHolder[h := p], store := s.store.Put(h, i, c),
                  downloads := s.downloads[h := Credited(s.downloads[h].(fetch := None, held := s.downloads[h].held + {i}), false)])
  {
    OneChunkTaken(sha, s.downloads[h].(fetch := None), s.store, p, i, c);
    hide TakeIn, CompleteFile;
  }

  predicate ServesNext(sha: Sha, dl: Dl, p: Peer, i: nat, c: Bytes) {
    && !dl.wantsList && dl.chunkList.Some? && |dl.chunkList.value| == dl.Count() && dl.NextIndex() == Some(i)
    && |c| == ChunkSizeAt(dl.manifest.size, i) && sha(c) == dl.chunkList.value[i] && p !in dl.suspect
  }

  lemma OneChunkTaken(sha: Sha, dl: Dl, st: Store, p: Peer, i: nat, c: Bytes)
    requires ServesNext(sha, dl, p, i, c)
    ensures TakeIn(sha, dl.manifest, dl.chunkList.value, {}, dl.held, st, c, 0, i, 0)
            == Intake(dl.held + {i}, st.Put(dl.manifest.hash, i, c), 1, |c|, Consumed)
  {
    ChunkBounds(dl.manifest.size, i);
    assert c[0..|c|] == c;
    var next := st.Put(dl.manifest.hash, i, c);
    assert TakeIn(sha, dl.manifest, dl.chunkList.value, {}, dl.held + {i}, next, c, |c|, i + 1, 1) == Intake(dl.held + {i}, next, 1, |c|, Consumed);
  }

  /** The same, and that was the last one the count calls for: the first chunks are right. */
  lemma LastChunkArrives(sha: Sha, w: World, s: State, h: Hash, id: FetchId, p: Peer, i: nat, c: Bytes)
    requires Awaiting(s, h, id, p) && ServesNext(sha, s.downloads[h], p, i, c) && |s.downloads[h].held + {i}| >= s.downloads[h].Count()
    requires var n, st := s.downloads[h].Count(), s.store.Put(h, i, c); |st.Range(h, 0, n)| == n && sha(st.Content(h, n)) == h
    ensures OnResult(sha, w, {}, s, id, Reply(c))
            == s.(byFetch := s.byFetch - {id}, lastHolder := s.lastHolder[h := p], store := s.store.Put(h, i, c).MarkComplete(h),
                  active := if s.active == Some(h) then None else s.active,
                  downloads := s.downloads[h := Credited(s.downloads[h].(fetch := None, held := s.downloads[h].held + {i}), false).Finish(Done, None)])
  {
    OneChunkTaken(sha, s.downloads[h].(fetch := None), s.store, p, i, c);
    hide TakeIn;
  }

  /* How a download opens: it is asked for, the one peer is asked for the list, gives it, and is asked for a chunk. */

  function Joining(m: Manifest, p: Peer, held: set<nat>): Dl {
    Fresh(m).(senders := [p], admitted := true, held := held)
  }

  function Joins(s: State, m: Manifest, p: Peer): State {
    s.(downloads := s.downloads[m.hash := Joining(m, p, s.store.Indices(m.hash))], order := s.order + [m.hash],
       store := s.store.Begin(m.hash, m.size, false))
  }

  function Listing(m: Manifest, p: Peer, held: set<nat>, id: FetchId): Dl {
    Joining(m, p, held).(phase := Fetching, holder := Some(p), attempts := 1, fetch := Some(id), wantsList := true)
  }

  function AsksForList(s: State, m: Manifest, p: Peer, id: FetchId): State {
    Joins(s, m, p).(downloads := s.downloads[m.hash := Listing(m, p, s.store.Indices(m.hash), id)],
                    active := Some(m.hash), byFetch := s.byFetch[id := m.hash])
  }

  /** The list is there, and no request is outstanding. */
  function Listed(m: Manifest, p: Peer, held: set<nat>, list: seq<Bytes>): Dl {
    Joining(m, p, held).(phase := Fetching, holder := Some(p), chunkList := Some(list), wantsList := true)
  }

  function HasList(s: State, m: Manifest, p: Peer, list: seq<Bytes>, id: FetchId): State {
    AsksForList(s, m, p, id).(downloads := s.downloads[m.hash := Listed(m, p, s.store.Indices(m.hash), list)],
                              lastHolder := s.lastHolder[m.hash := p], byFetch := s.byFetch[id := m.hash] - {id})
  }

  /** Nothing is going on, and this file is not tracked. */
  predicate Quiet(s: State, m: Manifest, p: Peer) {
    && Fits(s) && s.active.None? && m.hash !in s.downloads && !s.store.Complete(m.hash) && p != 0
    && (m.hash in s.lastHolder ==> s.lastHolder[m.hash] == p)
    && forall g | g in s.order && g in s.downloads :: s.downloads[g].phase != Queued
  }

  lemma Opens1(s: State, m: Manifest, p: Peer, w: World)
    requires Quiet(s, m, p) && w.Admits(m.hash) == Admission({}, true) && w.me == 0
    ensures RequestDownload(w, s, m, Some(p)) == Joins(s, m, p) && Fits(Joins(s, m, p))
  {
    RequestStarts(w, s, m, Some(p));
    assert s.store.DeleteAll({} - {m.hash}) == s.store;
    hide RequestDownload;
  }

  lemma JoiningIsAsked(s: State, m: Manifest, p: Peer, admissions: map<Hash, Admission>, id: FetchId)
    requires m.hash !in s.downloads
    ensures IssueTo(Alone(admissions, id), Joins(s, m, p).(active := Some(m.hash)), m.hash, p) == AsksForList(s, m, p, id)
    ensures RequestFor(Joins(s, m, p).downloads[m.hash], id, p) == WantList(id, p, m.hash)
  {
    hide Store.Begin, Store.Indices;
    var h, t := m.hash, Joins(s, m, p);
    var d := Listing(m, p, s.store.Indices(h), id);
    assert Asking(t.downloads[h], id, p) == d && t.downloads[h := d] == s.downloads[h := d];
  }

  lemma Opens2(s: State, m: Manifest, p: Peer, admissions: map<Hash, Admission>, id: FetchId)
    requires Quiet(s, m, p)
    ensures Prepare(Alone(admissions, id), Joins(s, m, p)) == Prepared(AsksForList(s, m, p, id), Some(WantList(id, p, m.hash)))
    ensures Fits(AsksForList(s, m, p, id))
  {
    hide Store.Begin, Store.Indices, Prepare, IssueTo, RequestFor;
    PumpAsks(Joins(s, m, p), m.hash, p, admissions, id);
    JoiningIsAsked(s, m, p, admissions, id);
  }

  lemma Opens3(sha: Sha, s: State, m: Manifest, p: Peer, list: seq<Bytes>, w: World, id: FetchId)
    requires Lists(sha, m, list) && Fits(AsksForList(s, m, p, id))
    ensures OnResult(sha, w, {}, AsksForList(s, m, p, id), id, Reply(Join(list))) == HasList(s, m, p, list, id)
    ensures Fits(HasList(s, m, p, list, id))
  {
    hide OnResult, Join, Store.Begin, Store.Indices, ChunkRoot;
    var h, t := m.hash, AsksForList(s, m, p, id);
    assert t.downloads[h] == Listing(m, p, s.store.Indices(h), id);
    ListArrives(sha, w, t, h, id, p, list);
    hide Lists;
    var d := Listed(m, p, s.store.Indices(h), list);
    assert RoundReset(t.downloads[h].(fetch := None, chunkList := Some(list))) == d;
    assert t.downloads[h := d] == s.downloads[h := d];
    assert OnResult(sha, w, {}, t, id, Reply(Join(list))) == HasList(s, m, p, list, id);
  }

  /** A download under way: the list is there, and the first request for chunks is out. */
  function Opening(m: Manifest, p: Peer, list: seq<Bytes>, id: FetchId): seq<Event> {
    [Requested(Alone(Granted(m.hash), id), m, Some(p))] + ([Pumped(Alone(map[], id))] + [Answered(Alone(map[], id), {}, id, Reply(Join(list)))])
  }

  lemma QuietFits(s: State, m: Manifest, p: Peer)
    requires Quiet(s, m, p)
    ensures Fits(s)
  {
  }

  lemma OpeningOpens(sha: Sha, s: State, m: Manifest, p: Peer, list: seq<Bytes>, id: FetchId)
    requires Quiet(s, m, p) && Lists(sha, m, list)
    ensures Run(sha, s, Opening(m, p, list, id)) == HasList(s, m, p, list, id)
    ensures Fits(HasList(s, m, p, list, id))
  {
    hide RequestDownload, Prepare, OnResult, Run, Joins, AsksForList, HasList, Join, Fits, Quiet, Lists, Share, Prune, PeerAppeared, RetryParked;
    QuietFits(s, m, p);
    var w := Alone(map[], id);
    Opens1(s, m, p, Alone(Granted(m.hash), id));
    Opens2(s, m, p, map[], id);
    Opens3(sha, s, m, p, list, w, id);
    var e1, e2, e3 := Requested(Alone(Granted(m.hash), id), m, Some(p)), Pumped(w), Answered(w, {}, id, Reply(Join(list)));
    RunFirst(sha, s, e1, [e2] + [e3]);
    RunFirst(sha, Joins(s, m, p), e2, [e3]);
    RunOne(sha, AsksForList(s, m, p, id), e3);
  }

  /* How a download goes on: the one peer is asked for the next chunk, and serves it. */

  function NextChunk(id: FetchId, c: Bytes): seq<Event> {
    [Pumped(Alone(map[], id))] + [Answered(Alone(map[], id), {}, id, Reply(c))]
  }

  /** The active download has its list, nothing outstanding, and one peer to ask. */
  predicate Going(s: State, h: Hash, p: Peer) {
    && Fits(s) && s.active == Some(h) && h in s.downloads && OnlyPeer(s, h, p) && s.downloads[h].Hash() == h
    && s.downloads[h].phase == Fetching && s.downloads[h].fetch.None? && s.downloads[h].chunkList.Some?
  }

  function Asked(s: State, h: Hash, p: Peer, id: FetchId): State
    requires h in s.downloads
  {
    s.(byFetch := s.byFetch[id := h],
       downloads := s.downloads[h := s.downloads[h].(fetch := Some(id), holder := Some(p), attempts := s.downloads[h].attempts + 1, wantsList := false)])
  }

  lemma AskedIsIssued(s: State, h: Hash, p: Peer, id: FetchId)
    requires s.active == Some(h) && h in s.downloads && s.downloads[h].phase == Fetching && s.downloads[h].chunkList.Some? && s.downloads[h].Hash() == h
    ensures IssueTo(Alone(map[], id), s.(active := Some(h)), h, p) == Asked(s, h, p, id)
  {
    assert s.(active := Some(h)) == s;
  }

  lemma AskedAwaits(s: State, h: Hash, p: Peer, id: FetchId)
    requires Going(s, h, p)
    ensures Awaiting(Asked(s, h, p, id), h, id, p)
  {
  }

  lemma AsksNext(sha: Sha, s: State, h: Hash, p: Peer, id: FetchId)
    requires Going(s, h, p)
    ensures Prepare(Alone(map[], id), s).state == Asked(s, h, p, id)
    ensures Fits(Asked(s, h, p, id)) && Awaiting(Asked(s, h, p, id), h, id, p)
  {
    hide Prepare, OnlyPeer, IssueTo, Asked, Fits, RequestFor;
    PumpAsks(s, h, p, map[], id);
    AskedIsIssued(s, h, p, id);
    AskedAwaits(s, h, p, id);
  }

  /** What a served chunk leaves of the download it is for. */
  function AfterChunk(dl: Dl, p: Peer, i: nat): Dl {
    Credited(dl.(holder := Some(p), wantsList := false, held := dl.held + {i}), false)
  }

  function Took(s: State, h: Hash, p: Peer, id: FetchId, i: nat, c: Bytes): State
    requires h in s.downloads
  {
    s.(byFetch := s.byFetch[id := h] - {id}, lastHolder := s.lastHolder[h := p], store := s.store.Put(h, i, c),
       downloads := s.downloads[h := AfterChunk(s.downloads[h], p, i)])
  }

  lemma ServingTheNext(sha: Sha, s: State, h: Hash, p: Peer, id: FetchId, i: nat, c: Bytes)
    requires Going(s, h, p) && ServesNext(sha, s.downloads[h].(wantsList := false), p, i, c)
    ensures ServesNext(sha, Asked(s, h, p, id).downloads[h], p, i, c)
  {
    assert Asked(s, h, p, id).downloads[h].NextIndex() == s.downloads[h].(wantsList := false).NextIndex();
  }

  lemma TakesNext(sha: Sha, s: State, h: Hash, p: Peer, id: FetchId, i: nat, c: Bytes)
    requires Going(s, h, p) && ServesNext(sha, s.downloads[h].(wantsList := false), p, i, c)
    requires |s.downloads[h].held| + 1 < s.downloads[h].Count()
    ensures Run(sha, s, NextChunk(id, c)) == Took(s, h, p, id, i, c)
    ensures Going(Took(s, h, p, id, i, c), h, p)
  {
    hide Prepare, OnResult, Run, ServesNext, Awaiting, Asked, Took, Fits, RequestDownload, Share, Prune, PeerAppeared, RetryParked;
    var w := Alone(map[], id);
    AsksNext(sha, s, h, p, id);
    ServedInPlace(sha, w, s, h, p, id, i, c);
    TwoEvents(sha, s, Pumped(w), Answered(w, {}, id, Reply(c)));
  }

  lemma ServedInPlace(sha: Sha, w: World, s: State, h: Hash, p: Peer, id: FetchId, i: nat, c: Bytes)
    requires Going(s, h, p) && ServesNext(sha, s.downloads[h].(wantsList := false), p, i, c)
    requires |s.downloads[h].held| + 1 < s.downloads[h].Count() && Awaiting(Asked(s, h, p, id), h, id, p)
    ensures OnResult(sha, w, {}, Asked(s, h, p, id), id, Reply(c)) == Took(s, h, p, id, i, c)
    ensures Going(Took(s, h, p, id, i, c), h, p)
  {
    hide OnResult, ServesNext, Store.Put, Credited, Fits, OnlyPeer;
    ServingTheNext(sha, s, h, p, id, i, c);
    ChunkArrives(sha, w, Asked(s, h, p, id), h, id, p, i, c);
    AnsweredIsServed(s, h, p, id, i);
    GoesOn(s, h, p, id, i, c);
  }

  lemma GoesOn(s: State, h: Hash, p: Peer, id: FetchId, i: nat, c: Bytes)
    requires Going(s, h, p)
    ensures Going(Took(s, h, p, id, i, c), h, p)
  {
    hide Store.Put;
  }

  lemma AnsweredIsServed(s: State, h: Hash, p: Peer, id: FetchId, i: nat)
    requires h in s.downloads && s.downloads[h].fetch.None?
    ensures var d := Asked(s, h, p, id).downloads[h];
            Credited(d.(fetch := None, held := d.held + {i}), false) == AfterChunk(s.downloads[h], p, i)
  {
  }

  lemma TwoEvents(sha: Sha, s: State, e: Event, f: Event)
    requires Fits(s) && Fits(Step(sha, s, e))
    ensures Run(sha, s, [e] + [f]) == Step(sha, Step(sha, s, e), f)
  {
    hide Step, Run;
    RunFirst(sha, s, e, [f]);
    RunOne(sha, Step(sha, s, e), f);
  }

  /* A share of the file being downloaded, and a request for it. */

  function StrandingRun(sha: Sha, data: Bytes, root: Bytes, p: Peer): seq<Event> {
    var m := Manifest(|data|, sha(data), root);
    [Requested(Alone(Granted(m.hash), 1), m, Some(p))] +
    ([Pumped(Alone(map[], 1))] + ([Shared(data, true, {})] + [Requested(Alone(map[], 2), m, Some(p))]))
  }

  lemma ShareOfActive(sha: Sha, s: State, data: Bytes)
    requires data != [] && !s.store.Complete(sha(data))
    ensures var t := Share(sha, s, data, true, {}); t == s.(store := t.store) && t.store.Complete(sha(data))
    ensures Fits(s) ==> Fits(Share(sha, s, data, true, {}))
  {
    hide Share, Fits;
    StoredShare(sha, s, data, true, {});
    SameDownloadsFit(s, Share(sha, s, data, true, {}));
  }

  lemma SameDownloadsFit(s: State, t: State)
    requires t.downloads == s.downloads
    ensures Fits(s) ==> Fits(t)
  {
  }

  lemma StartIsQuiet(m: Manifest, p: Peer)
    requires p != 0
    ensures Quiet(Start(), m, p)
  {
  }

  /** Whatever file it is: it is asked for, the peer is asked for its list, the
      same bytes are shared here, and it is asked for again. The download is
      done with its request still out and the slot still its own, so nothing
      more is requested, for any file, until that peer answers. */
  lemma SharingTheActiveFileStrandsTheSlot(sha: Sha, data: Bytes, root: Bytes, p: Peer, w: World)
    requires data != [] && p != 0
    ensures var r, h := Run(sha, Start(), StrandingRun(sha, data, root, p)), sha(data);
            && h in r.downloads && r.downloads[h].phase == Done && r.downloads[h].fetch == Some(1) && r.active == Some(h)
            && !Orderly(r) && Prepare(w, r) == Prepared(r, None)
  {
    hide Quiet, Fits, RequestDownload, Prepare, Share, Run, Joins, AsksForList, Start, OnResult, Prune, PeerAppeared, RetryParked, Orderly;
    var m := Manifest(|data|, sha(data), root);
    var w1, w2 := Alone(Granted(m.hash), 1), Alone(map[], 2);
    var s1, s2 := Joins(Start(), m, p), AsksForList(Start(), m, p, 1);
    StartIsQuiet(m, p);
    QuietFits(Start(), m, p);
    Opens1(Start(), m, p, w1);
    Opens2(Start(), m, p, map[], 1);
    FirstAskedOf(m, p);
    ShareOfActive(sha, s2, data);
    var s3 := Share(sha, s2, data, true, {});
    HeldRequestEffect(w2, s3, m, Some(p));
    var e1, e2, e3, e4 := Requested(w1, m, Some(p)), Pumped(Alone(map[], 1)), Shared(data, true, {}), Requested(w2, m, Some(p));
    RunFirst(sha, Start(), e1, [e2] + ([e3] + [e4]));
    RunFirst(sha, s1, e2, [e3] + [e4]);
    TwoEvents(sha, s2, e3, e4);
    StrandedSlot(w, RequestDownload(w2, s3, m, Some(p)), m.hash);
  }

  lemma FirstAskedOf(m: Manifest, p: Peer)
    ensures var s := AsksForList(Start(), m, p, 1);
            && s.active == Some(m.hash) && s.downloads == map[m.hash := Listing(m, p, {}, 1)] && !s.store.Complete(m.hash)
  {
    assert Start().store.Indices(m.hash) == {};
  }

  lemma StrandedSlot(w: World, s: State, h: Hash)
    requires s.active == Some(h) && h in s.downloads && s.downloads[h].fetch.Some? && s.downloads[h].phase == Done
    ensures !Orderly(s) && Prepare(w, s) == Prepared(s, None)
  {
  }

  /* A row begun under another count. */

  function MiscountedRun(m: Manifest, p: Peer, data: Bytes): seq<Event> {
    [Requested(Alone(Granted(m.hash), 1), m, Some(p))] + [Shared(data, true, {})]
  }

  lemma ShareOverRow(sha: Sha, s: State, m: Manifest, p: Peer, data: Bytes)
    requires s == Joins(Start(), m, p) && m.hash == sha(data) && data != []
    ensures var st := Share(sha, s, data, true, {}).store;
            && st.Complete(sha(data)) && HoldsExactly(st, sha(data), data) && st.Content(sha(data), ChunkCount(|data|)) == data
            && st.rows[sha(data)].chunkCount == ChunkCount(m.size)
  {
    var h := sha(data);
    assert s.store.chunks == map[] && !s.store.Complete(h);
    var begun := s.store.Begin(h, |data|, true);
    PutAllNeedsRoom(begun, h, data, 0, {});
    PutAllResult(begun, h, data, 0, {});
    hide PutAll;
    ShareStoresDataIffLeftoversAgree(sha, s, data, {});
  }

  lemma ExactIsFirst(st: Store, h: Hash, data: Bytes)
    requires HoldsExactly(st, h, data)
    ensures HoldsFirst(st, h, data) && NothingPast(st, h, ChunkCount(|data|))
  {
  }

  lemma JoiningIsHarmless(sha: Sha, m: Manifest, p: Peer, data: Bytes)
    requires m.size >= 1 && m.hash == sha(data) && p != 0
    ensures Harmless(sha, Start(), Requested(Alone(Granted(m.hash), 1), m, Some(p)))
    ensures Harmless(sha, Joins(Start(), m, p), Shared(data, true, {}))
  {
    assert 0 < ChunkCount(m.size) && (m.hash, 0) !in Start().store.chunks;
  }

  /** A download of the hash is begun under a manifest that claims another size,
      and then the file itself is shared here. This node then holds exactly the
      file and calls it complete, and by its row's count no downloader with the
      true manifest is ever served a list that passes: with fewer chunks claimed
      each such list makes this node suspect, with more it serves none. */
  lemma SharingUnderAnotherCountMisserves(sha: Sha, data: Bytes, claimed: nat, root: Bytes, p: Peer, dl: Dl, st: Store)
    requires IsSha256(sha) && data != [] && claimed >= 1 && ChunkCount(claimed) != ChunkCount(|data|) && p != 0
    requires dl.manifest == ManifestFor(sha, data)
    ensures var h, es := sha(data), MiscountedRun(Manifest(claimed, sha(data), root), p, data);
            var r := Run(sha, Start(), es).store;
            && AllHarmless(sha, Start(), es)
            && r.Complete(h) && HoldsExactly(r, h, data) && r.Content(h, ChunkCount(|data|)) == data
            && r.rows[h].chunkCount == ChunkCount(claimed)
            && (ChunkCount(claimed) > ChunkCount(|data|) ==> Served(sha, r, h, TheList).None?)
            && (ChunkCount(claimed) < ChunkCount(|data|) ==>
                  var list := Served(sha, r, h, TheList);
                  list.Some? && !ListMatches(sha, dl, list.value) && OnChunkList(sha, dl, st, list.value).dl.suspect == With(dl.suspect, dl.holder))
  {
    hide Run, Quiet, Fits, RequestDownload, Share, Joins, Start, Harmless, Served, OnChunkList, ListMatches, HoldsExactly, HoldsFirst,
         NothingPast, Store.Content, Prepare, OnResult, Prune, PeerAppeared, RetryParked, IsSha256, ManifestFor;
    var m, h := Manifest(claimed, sha(data), root), sha(data);
    var e1, e2 := Requested(Alone(Granted(h), 1), m, Some(p)), Shared(data, true, {});
    var s1 := Joins(Start(), m, p);
    StartIsQuiet(m, p);
    QuietFits(Start(), m, p);
    Opens1(Start(), m, p, Alone(Granted(h), 1));
    JoiningIsHarmless(sha, m, p, data);
    TwoEvents(sha, Start(), e1, e2);
    AllHarmlessTwo(sha, Start(), e1, e2);
    ShareOverRow(sha, s1, m, p, data);
    var r := Share(sha, s1, data, true, {}).store;
    ExactIsFirst(r, h, data);
    ServedListPassesIffCountFits(sha, r, data, dl, st);
  }

  lemma AllHarmlessTwo(sha: Sha, s: State, e: Event, f: Event)
    requires Fits(s) && Harmless(sha, s, e) && Harmless(sha, Step(sha, s, e), f)
    ensures AllHarmless(sha, s, [e] + [f])
  {
    hide Step, Harmless;
    assert ([e] + [f])[1..] == [f] && [f][1..] == [];
    assert AllHarmless(sha, Step(sha, s, e), [f]);
  }

  /* A restart with a file that lacks nothing. */

  function RestoredFull(st: Store, m: Manifest, p: Peer): State {
    Restored(st, [m.hash], map[m.hash := Told(m, [p])])
  }

  function WakingRun(h: Hash, list: seq<Bytes>): seq<Event> {
    [Retried({h})] + ([Pumped(Alone(map[], 1))] + [Answered(Alone(map[], 1), {}, 1, Reply(Join(list)))])
  }

  lemma RestoredFullIs(st: Store, m: Manifest, p: Peer)
    requires p != 0
    ensures var s := RestoredFull(st, m, p);
            && RetryParked(s, {m.hash}) == s.(downloads := map[m.hash := Joining(m, p, st.Indices(m.hash))])
            && s.downloads.Keys == {m.hash} && s.order == [m.hash] && s.active.None? && s.byFetch == map[] && s.lastHolder == map[] && s.store == st
    ensures Fits(RestoredFull(st, m, p)) && Fits(RetryParked(RestoredFull(st, m, p), {m.hash}))
  {
    hide Store.Indices;
    var s, told := RestoredFull(st, m, p), map[m.hash := Told(m, [p])];
    assert Named([m.hash], told) == [m.hash] + Named([], told);
    assert s.downloads == map[m.hash := Resumed(told[m.hash], st)];
  }

  /** A file whose last chunk was stored before the node stopped, but which was
      not yet marked complete, is restored with nothing missing. Once its list
      is fetched there is no chunk to ask for: the next request has no index. */
  lemma RestoredFullFileAsksForNothing(sha: Sha, st: Store, m: Manifest, p: Peer, list: seq<Bytes>)
    requires HasAll(st, m.hash, 0, ChunkCount(m.size)) && Lists(sha, m, list) && p != 0
    ensures Prepare(Alone(map[], 2), Run(sha, RestoredFull(st, m, p), WakingRun(m.hash, list))).request == Some(WantNothing(2, p, m.hash))
  {
    hide RestoredFull, RetryParked, Prepare, OnResult, Lists, Join, Store.Indices, HasAll, Run, RequestDownload, Share, Prune, PeerAppeared;
    var h, held, w := m.hash, st.Indices(m.hash), Alone(map[], 1);
    var s0 := RestoredFull(st, m, p);
    var s1 := s0.(downloads := map[h := Joining(m, p, held)]);
    var s2 := s1.(downloads := map[h := Listing(m, p, held, 1)], active := Some(h), byFetch := map[1 := h]);
    RestoredFullIs(st, m, p);
    WakesAndAsks(s1, m, p, held);
    ListTakesItsPlace(sha, w, s2, m, p, held, list);
    RunFirst(sha, s0, Retried({h}), [Pumped(w)] + [Answered(w, {}, 1, Reply(Join(list)))]);
    TwoEvents(sha, s1, Pumped(w), Answered(w, {}, 1, Reply(Join(list))));
    AsksForNothing(OnResult(sha, w, {}, s2, 1, Reply(Join(list))), m, p, st, list);
  }

  lemma WakesAndAsks(s: State, m: Manifest, p: Peer, held: set<nat>)
    requires s.downloads == map[m.hash := Joining(m, p, held)] && s.order == [m.hash] && s.active.None? && s.byFetch == map[] && p != 0
    requires s.lastHolder == map[]
    ensures Prepare(Alone(map[], 1), s).state
            == s.(downloads := map[m.hash := Listing(m, p, held, 1)], active := Some(m.hash), byFetch := map[1 := m.hash])
  {
    PumpAsks(s, m.hash, p, map[], 1);
    hide Prepare;
    assert Asking(s.downloads[m.hash], 1, p) == Listing(m, p, held, 1);
  }

  lemma ListTakesItsPlace(sha: Sha, w: World, s: State, m: Manifest, p: Peer, held: set<nat>, list: seq<Bytes>)
    requires s.downloads == map[m.hash := Listing(m, p, held, 1)] && s.byFetch == map[1 := m.hash] && s.lastHolder == map[]
    requires Fits(s) && Lists(sha, m, list)
    ensures OnResult(sha, w, {}, s, 1, Reply(Join(list)))
            == s.(downloads := map[m.hash := Listed(m, p, held, list)], lastHolder := map[m.hash := p], byFetch := map[])
  {
    ListArrives(sha, w, s, m.hash, 1, p, list);
    hide OnResult, Join, Lists;
    assert RoundReset(s.downloads[m.hash].(fetch := None, chunkList := Some(list))) == Listed(m, p, held, list);
  }

  lemma AsksForNothing(s: State, m: Manifest, p: Peer, st: Store, list: seq<Bytes>)
    requires s.downloads == map[m.hash := Listed(m, p, st.Indices(m.hash), list)] && s.active == Some(m.hash) && s.lastHolder == map[m.hash := p]
    requires HasAll(st, m.hash, 0, ChunkCount(m.size)) && p != 0
    ensures Prepare(Alone(map[], 2), s).request == Some(WantNothing(2, p, m.hash))
  {
    PumpAsks(s, m.hash, p, map[], 2);
    hide Prepare;
    forall i: nat | i < ChunkCount(m.size) ensures i in st.Indices(m.hash) {
      assert (m.hash, i) in st.chunks;
    }
  }

  /* A share over what a download left behind. */

  /** What the first download of a node has once its list is there. */
  lemma FirstListed(m: Manifest, p: Peer, list: seq<Bytes>)
    requires p != 0 && |list| == ChunkCount(m.size)
    ensures var s := HasList(Start(), m, p, list, 1);
            && s.downloads == map[m.hash := Listed(m, p, {}, list)] && s.order == [m.hash]
            && s.store == Store(map[m.hash := Row(ChunkCount(m.size), false, false)], map[])
            && s.lastHolder == map[m.hash := p] && Going(s, m.hash, p)
  {
    assert Start().store.Indices(m.hash) == {};
    var s := HasList(Start(), m, p, list, 1);
    assert s.downloads == map[m.hash := Listed(m, p, {}, list)] && s.lastHolder == map[m.hash := p];
    assert [] + [m.hash] == [m.hash];
  }

  lemma ShareKeepsChunks(sha: Sha, s: State, data: Bytes)
    requires data != [] && !s.store.Complete(sha(data))
    ensures forall k | k in s.store.chunks :: k in Share(sha, s, data, true, {}).store.chunks
                                              && Share(sha, s, data, true, {}).store.chunks[k] == s.store.chunks[k]
  {
    var h := sha(data);
    var begun := s.store.Begin(h, |data|, true);
    PutAllNeedsRoom(begun, h, data, 0, {});
    PutAllResult(begun, h, data, 0, {});
    hide PutAll;
  }

  function OtherBytesRun(m: Manifest, p: Peer, list: seq<Bytes>, bad: Bytes, data: Bytes): seq<Event> {
    Opening(m, p, list, 1) + (NextChunk(2, bad) + [Shared(data, true, {})])
  }

  /** A manifest for the hash of some short file claims two chunks and a list
      that starts with the digest of other bytes. Once a holder has served those,
      sharing the file itself marks the hash complete with the other bytes. */
  lemma ShareCanCompleteOtherBytes(sha: Sha, data: Bytes, bad: Bytes, last: Bytes, p: Peer)
    requires IsSha256(sha) && 1 <= |data| <= FILE_CHUNK_BYTES && |bad| == FILE_CHUNK_BYTES && |last| == CHUNK_HASH_BYTES && p != 0
    ensures var list := [sha(bad), last];
            var m := Manifest(2 * FILE_CHUNK_BYTES, sha(data), ChunkRoot(sha, list));
            var st := Run(sha, Start(), OtherBytesRun(m, p, list, bad, data)).store;
            st.Complete(sha(data)) && st.Content(sha(data), ChunkCount(|data|)) == bad
  {
    hide Run, HasList, Took, Share, ChunkRoot, Start, Opening, NextChunk, Going, ServesNext, Store.Content, Lists, Quiet,
         Fits, RequestDownload, Prepare, OnResult, Prune, PeerAppeared, RetryParked;
    var list, h := [sha(bad), last], sha(data);
    var m := Manifest(2 * FILE_CHUNK_BYTES, h, ChunkRoot(sha, list));
    StartIsQuiet(m, p);
    TwoAreListed(sha, m, list);
    OpeningOpens(sha, Start(), m, p, list, 1);
    FirstListed(m, p, list);
    var s1 := HasList(Start(), m, p, list, 1);
    FirstOfSeveral(sha, m, p, list, bad);
    TakesNext(sha, s1, h, p, 2, 0, bad);
    var s2 := Took(s1, h, p, 2, 0, bad);
    TookStores(s1, h, p, 2, 0, bad);
    ShareOfActive(sha, s2, data);
    ShareKeepsChunks(sha, s2, data);
    GoingFits(s2, h, p);
    RunAppends(sha, Start(), Opening(m, p, list, 1), NextChunk(2, bad) + [Shared(data, true, {})]);
    RunAppends(sha, s1, NextChunk(2, bad), [Shared(data, true, {})]);
    RunOne(sha, s2, Shared(data, true, {}));
    OneChunkContent(Share(sha, s2, data, true, {}).store, h, bad);
  }

  lemma TwoAreListed(sha: Sha, m: Manifest, list: seq<Bytes>)
    requires |list| == ChunkCount(m.size) && m.root == ChunkRoot(sha, list) && forall i | 0 <= i < |list| :: |list[i]| == CHUNK_HASH_BYTES
    ensures Lists(sha, m, list)
  {
  }

  lemma FirstOfSeveral(sha: Sha, m: Manifest, p: Peer, list: seq<Bytes>, c: Bytes)
    requires |list| == ChunkCount(m.size) && |list| > 0 && |c| == ChunkSizeAt(m.size, 0) && sha(c) == list[0]
    ensures ServesNext(sha, Listed(m, p, {}, list).(wantsList := false), p, 0, c)
  {
  }

  lemma TookStores(s: State, h: Hash, p: Peer, id: FetchId, i: nat, c: Bytes)
    requires h in s.downloads
    ensures Took(s, h, p, id, i, c).store == s.store.Put(h, i, c)
    ensures Took(s, h, p, id, i, c).downloads == s.downloads[h := AfterChunk(s.downloads[h], p, i)]
    ensures Took(s, h, p, id, i, c).order == s.order && Took(s, h, p, id, i, c).active == s.active
    ensures Took(s, h, p, id, i, c).lastHolder == s.lastHolder[h := p]
  {
  }

  lemma GoingFits(s: State, h: Hash, p: Peer)
    requires Going(s, h, p)
    ensures Fits(s) && s.active == Some(h) && h in s.downloads
  {
  }

  lemma OneChunkContent(st: Store, h: Hash, c: Bytes)
    requires (h, 0) in st.chunks && st.chunks[(h, 0)] == c
    ensures |st.Range(h, 0, 1)| == 1 && st.Content(h, 1) == c
  {
    assert st.Range(h, 0, 1) == [c];
    assert Join([c]) == c + Join([]);
  }

  /* A download that is done and evicted. */

  function Finished(s: State, h: Hash, p: Peer, id: FetchId, i: nat, c: Bytes): State
    requires h in s.downloads
  {
    s.(byFetch := s.byFetch[id := h] - {id}, lastHolder := s.lastHolder[h := p], store := s.store.Put(h, i, c).MarkComplete(h),
       active := None, downloads := s.downloads[h := AfterChunk(s.downloads[h], p, i).Finish(Done, None)])
  }

  /** The chunk served is the one missing, and what is then stored hashes to the address. */
  predicate ServesLast(sha: Sha, s: State, h: Hash, p: Peer, i: nat, c: Bytes)
    requires h in s.downloads
  {
    var dl, n, st := s.downloads[h].(wantsList := false), s.downloads[h].Count(), s.store.Put(h, i, c);
    ServesNext(sha, dl, p, i, c) && |dl.held + {i}| >= n && |st.Range(h, 0, n)| == n && sha(st.Content(h, n)) == h
  }

  lemma FinishedInPlace(sha: Sha, w: World, s: State, h: Hash, p: Peer, id: FetchId, i: nat, c: Bytes)
    requires Going(s, h, p) && ServesLast(sha, s, h, p, i, c) && Awaiting(Asked(s, h, p, id), h, id, p)
    ensures OnResult(sha, w, {}, Asked(s, h, p, id), id, Reply(c)) == Finished(s, h, p, id, i, c)
  {
    hide OnResult, ServesNext, Store.Put, Store.Range, Store.Content, Store.MarkComplete, Credited, Fits, OnlyPeer;
    ServingTheNext(sha, s, h, p, id, i, c);
    LastChunkArrives(sha, w, Asked(s, h, p, id), h, id, p, i, c);
    AnsweredIsServed(s, h, p, id, i);
  }

  lemma TakesLast(sha: Sha, s: State, h: Hash, p: Peer, id: FetchId, i: nat, c: Bytes)
    requires Going(s, h, p) && ServesLast(sha, s, h, p, i, c)
    ensures Run(sha, s, NextChunk(id, c)) == Finished(s, h, p, id, i, c)
  {
    hide Prepare, OnResult, Run, ServesLast, Awaiting, Asked, Finished, Fits, RequestDownload, Share, Prune, PeerAppeared, RetryParked;
    var w := Alone(map[], id);
    AsksNext(sha, s, h, p, id);
    FinishedInPlace(sha, w, s, h, p, id, i, c);
    TwoEvents(sha, s, Pumped(w), Answered(w, {}, id, Reply(c)));
  }

  lemma OnlyChunkIsLast(sha: Sha, s: State, m: Manifest, p: Peer, held: set<nat>, x: Bytes)
    requires m.hash in s.downloads && s.downloads[m.hash] == Listed(m, p, held, [sha(x)])
    requires 1 <= |x| <= FILE_CHUNK_BYTES && m.size == |x| && m.hash == sha(x) && 0 !in held && (m.hash, 0) !in s.store.chunks
    ensures ServesLast(sha, s, m.hash, p, 0, x)
  {
    OneChunkContent(s.store.Put(m.hash, 0, x), m.hash, x);
    CardinalityOfSubset({0}, held + {0});
  }

  function EvictedRun(sha: Sha, m: Manifest, p: Peer, data: Bytes, other: Manifest): seq<Event> {
    var evicting := Alone(map[other.hash := Admission({m.hash}, true)], 3);
    Opening(m, p, [sha(data)], 1) + (NextChunk(2, data) + ([Requested(evicting, other, None)] + [Requested(Alone(Granted(m.hash), 4), m, Some(p))]))
  }

  /** A file is fetched, evicted to make room for another, and asked for again:
      it is not held, its download is still done, and nothing will fetch it. */
  lemma EvictedFileIsNotFetchedAgain(sha: Sha, data: Bytes, other: Manifest, p: Peer)
    requires IsSha256(sha) && 1 <= |data| <= FILE_CHUNK_BYTES && other.hash != sha(data) && p != 0
    ensures var m := Manifest(|data|, sha(data), ChunkRoot(sha, [sha(data)]));
            var r := Run(sha, Start(), EvictedRun(sha, m, p, data, other));
            m.hash in r.downloads && r.downloads[m.hash].phase == Done && !r.store.Complete(m.hash)
  {
    hide Run, HasList, Finished, ChunkRoot, Start, Opening, NextChunk, Going, ServesLast, RequestDownload, Lists, Quiet, Fits,
         Prepare, Share, OnResult, Prune, PeerAppeared, RetryParked;
    var list, h := [sha(data)], sha(data);
    var m := Manifest(|data|, h, ChunkRoot(sha, list));
    var evicting, granting := Alone(map[other.hash := Admission({h}, true)], 3), Alone(Granted(h), 4);
    var s1 := HasList(Start(), m, p, list, 1);
    StartIsQuiet(m, p);
    TwoAreListed(sha, m, list);
    OpeningOpens(sha, Start(), m, p, list, 1);
    FirstListed(m, p, list);
    OnlyChunkIsLast(sha, s1, m, p, {}, data);
    TakesLast(sha, s1, h, p, 2, 0, data);
    var s2 := Finished(s1, h, p, 2, 0, data);
    FinishedHolds(s1, m, p, list, data);
    var s3 := RequestDownload(evicting, s2, other, None);
    EvictionDrops(s2, h, other);
    RequestEffect(granting, s3, m, Some(p));
    EvictedDoneStaysDone(granting, s3, m, Some(p));
    var es := [Requested(evicting, other, None)] + [Requested(granting, m, Some(p))];
    RunAppends(sha, Start(), Opening(m, p, list, 1), NextChunk(2, data) + es);
    RunAppends(sha, s1, NextChunk(2, data), es);
    TwoEvents(sha, s2, Requested(evicting, other, None), Requested(granting, m, Some(p)));
    assert NoMoreOf(h, s3.store, RequestDownload(granting, s3, m, Some(p)).store);
  }

  lemma FinishedHolds(s: State, m: Manifest, p: Peer, list: seq<Bytes>, c: Bytes)
    requires s.downloads == map[m.hash := Listed(m, p, {}, list)] && |list| == ChunkCount(m.size)
    requires s.store == Store(map[m.hash := Row(ChunkCount(m.size), false, false)], map[])
    ensures var t := Finished(s, m.hash, p, 2, 0, c);
            && t.downloads.Keys == {m.hash} && t.downloads[m.hash].phase == Done && t.downloads[m.hash].admitted
            && t.store.rows.Keys == {m.hash} && Fits(t)
  {
  }

  lemma EvictionDrops(s: State, h: Hash, other: Manifest)
    requires s.downloads.Keys == {h} && s.store.rows.Keys == {h} && other.hash != h && Fits(s)
    ensures var t := RequestDownload(Alone(map[other.hash := Admission({h}, true)], 3), s, other, None);
            && h in t.downloads && t.downloads[h] == s.downloads[h] && h !in t.store.rows && Fits(t)
  {
    RequestStarts(Alone(map[other.hash := Admission({h}, true)], 3), s, other, None);
    hide RequestDownload;
  }

  /* A chunk that outlives the download it was for. */

  /** A manifest of several chunks, with a holder that serves its list and the first two of them. */
  datatype Claim = Claim(m: Manifest, p: Peer, list: seq<Bytes>, first: Bytes, second: Bytes) {
    ghost predicate Valid(sha: Sha) {
      && IsSha256(sha) && p != 0 && Lists(sha, m, list) && |list| >= 2 && list[0] == sha(first) && list[1] == sha(second)
      && |first| == ChunkSizeAt(m.size, 0) && |second| == ChunkSizeAt(m.size, 1)
    }
  }

  function Evicting(g: Hash, h: Hash): World { Alone(map[g := Admission({h}, true)], 3) }

  /** The list and a chunk are served; then the second chunk is asked for, and
      while it is out another file is asked for and evicts this one. */
  function EvictionRun(c: Claim, other: Manifest): seq<Event> {
    Opening(c.m, c.p, c.list, 1) + (NextChunk(2, c.first) +
    ([Pumped(Alone(map[], 3))] + [Requested(Evicting(other.hash, c.m.hash), other, None)]))
  }

  /** After that the second chunk comes, and the evicted download is pruned. */
  function StrayRun(c: Claim, other: Manifest): seq<Event> {
    EvictionRun(c, other) + ([Answered(Alone(map[], 3), {}, 3, Reply(c.second))] + ([Pruned({})] + [Pumped(Alone(map[], 4))]))
  }

  /** After it: no row and no download of the file, but its second chunk. */
  predicate Strayed(s: State, c: Claim, other: Manifest) {
    && s.store == Store(map[other.hash := Row(ChunkCount(other.size), false, false)], map[(c.m.hash, 1) := c.second])
    && s.downloads.Keys == {other.hash} && s.downloads[other.hash].phase == Unavailable && s.order == [other.hash]
    && s.active.None? && s.lastHolder == map[c.m.hash := c.p] && Fits(s)
  }

  /** The first chunk is held, and the second asked for. */
  predicate SecondIsOut(sha: Sha, s: State, c: Claim) {
    && Awaiting(s, c.m.hash, 3, c.p) && ServesNext(sha, s.downloads[c.m.hash], c.p, 1, c.second)
    && s.downloads[c.m.hash].held == {0} && s.downloads[c.m.hash].admitted && s.downloads[c.m.hash].manifest == c.m
    && s.downloads[c.m.hash].senders == [c.p]
    && s.active == Some(c.m.hash) && s.lastHolder == map[c.m.hash := c.p]
  }

  lemma SecondGoesOut(sha: Sha, c: Claim)
    requires c.Valid(sha)
    ensures var s := Asked(Took(HasList(Start(), c.m, c.p, c.list, 1), c.m.hash, c.p, 2, 0, c.first), c.m.hash, c.p, 3);
            && SecondIsOut(sha, s, c) && s.downloads.Keys == {c.m.hash} && s.order == [c.m.hash]
            && s.store == Store(map[c.m.hash := Row(ChunkCount(c.m.size), false, false)], map[(c.m.hash, 0) := c.first])
    ensures var s := HasList(Start(), c.m, c.p, c.list, 1);
            Run(sha, s, NextChunk(2, c.first)) == Took(s, c.m.hash, c.p, 2, 0, c.first)
            && Going(Took(s, c.m.hash, c.p, 2, 0, c.first), c.m.hash, c.p)
  {
    hide Run, HasList, Took, Asked, ChunkRoot, Start, NextChunk, Going, ServesNext;
    var h, list := c.m.hash, c.list;
    var s := HasList(Start(), c.m, c.p, list, 1);
    FirstListed(c.m, c.p, list);
    FirstOfSeveral(sha, c.m, c.p, list, c.first);
    TakesNext(sha, s, h, c.p, 2, 0, c.first);
    TookStores(s, h, c.p, 2, 0, c.first);
    var t := Took(s, h, c.p, 2, 0, c.first);
    GoingFits(t, h, c.p);
    AskedAwaits(t, h, c.p, 3);
    SecondOfSeveral(sha, c, t);
  }

  lemma SecondOfSeveral(sha: Sha, c: Claim, t: State)
    requires c.Valid(sha) && Going(t, c.m.hash, c.p)
    requires t.downloads == map[c.m.hash := AfterChunk(Listed(c.m, c.p, {}, c.list), c.p, 0)]
    ensures var u := Asked(t, c.m.hash, c.p, 3);
            && ServesNext(sha, u.downloads[c.m.hash], c.p, 1, c.second) && u.downloads.Keys == {c.m.hash}
            && u.downloads[c.m.hash].held == {0} && u.downloads[c.m.hash].admitted && u.downloads[c.m.hash].manifest == c.m
            && u.downloads[c.m.hash].senders == [c.p]
            && u.active == t.active && u.lastHolder == t.lastHolder && u.order == t.order && u.store == t.store
  {
    var d := Asked(t, c.m.hash, c.p, 3).downloads[c.m.hash];
    assert d.held == {0} && 1 !in d.held && d.Count() >= 2;
  }

  /** Admitting the other file deletes this one's row and chunk, and nothing else of its download. */
  lemma OtherEvicts(sha: Sha, s: State, c: Claim, other: Manifest)
    requires SecondIsOut(sha, s, c) && s.downloads.Keys == {c.m.hash} && s.order == [c.m.hash] && other.hash != c.m.hash
    requires s.store == Store(map[c.m.hash := Row(ChunkCount(c.m.size), false, false)], map[(c.m.hash, 0) := c.first])
    ensures var t := RequestDownload(Evicting(other.hash, c.m.hash), s, other, None);
            Evicted(sha, t, c, other)
  {
    var g := other.hash;
    hide RequestDownload, ServesNext;
    RequestStarts(Evicting(g, c.m.hash), s, other, None);
    assert s.store.Indices(g) == {};
    assert s.store.DeleteAll({c.m.hash} - {g}) == Store(map[], map[]);
    hide Store.DeleteAll, Store.Indices;
  }

  /** The answer is expected still, and its chunk is stored without a row. */
  lemma SecondStrays(sha: Sha, s: State, c: Claim, other: Manifest)
    requires Evicted(sha, s, c, other) && ChunkCount(c.m.size) >= 3 && other.hash != c.m.hash
    ensures var t := OnResult(sha, Alone(map[], 3), {}, s, 3, Reply(c.second));
            && t.downloads.Keys == s.downloads.Keys && t.order == s.order && t.downloads[other.hash] == s.downloads[other.hash]
            && t.downloads[c.m.hash].admitted && t.active == s.active && t.lastHolder == s.lastHolder && Fits(t)
            && t.store == s.store.(chunks := map[(c.m.hash, 1) := c.second])
  {
    var h := c.m.hash;
    ChunkArrives(sha, Alone(map[], 3), s, h, 3, c.p, 1, c.second);
    hide OnResult, ServesNext;
    assert s.lastHolder[h := c.p] == s.lastHolder;
  }

  lemma PruneForgets(s: State, h: Hash, g: Hash)
    requires s.downloads.Keys == {h, g} && s.order == [h, g] && h != g && s.downloads[h].admitted && s.active == Some(h)
    requires h !in s.store.rows && g in s.store.rows && Fits(s)
    ensures var t := Prune(s, {});
            && t.downloads.Keys == {g} && t.downloads[g] == s.downloads[g] && t.order == [g] && t.active.None?
            && t.store == s.store && t.lastHolder == s.lastHolder && t.byFetch == s.byFetch && Fits(t)
  {
    assert s.store.DeleteAll({}) == s.store;
    assert GoneAmong(s, s.order) == {h};
    assert s.order[1..] == [g] && [g][1..] == [];
    assert WithoutAll([g], {h}) == [g] + WithoutAll([], {h});
    assert WithoutAll(s.order, {h}) == [g];
  }

  /** Nobody holds the other file, so it is parked. */
  lemma NobodyToAsk(s: State, g: Hash)
    requires s.downloads.Keys == {g} && s.order == [g] && s.active.None? && g !in s.lastHolder && Fits(s)
    requires s.downloads[g].phase == Queued && s.downloads[g].admitted && s.downloads[g].fetch.None? && s.downloads[g].senders == []
    ensures var t := Prepare(Alone(map[], 4), s).state;
            && t.downloads.Keys == {g} && t.downloads[g].phase == Unavailable && t.order == [g] && t.active.None?
            && t.store == s.store && t.lastHolder == s.lastHolder && Fits(t)
  {
    var w := Alone(map[], 4);
    var t := s.(active := Some(g));
    OnlyOneWaits(w, s, g, s.order);
    NextHolderIsBest(w, s.downloads[g], Candidates(AroundOf(w, t, g), s.downloads[g].senders));
    hide NextHolder, Candidates;
    var u := Stall(w, t, g);
    assert ActivateNext(w, u, u.order[1..]).active.None?;
    assert Prepare(w, u).state == u;
  }

  /** The second chunk is out still; the first is stored no more, nor is the row. */
  predicate Evicted(sha: Sha, s: State, c: Claim, other: Manifest) {
    && SecondIsOut(sha, s, c) && s.downloads.Keys == {c.m.hash, other.hash} && s.order == [c.m.hash, other.hash]
    && s.downloads[other.hash] == Fresh(other).(admitted := true)
    && s.store == Store(map[other.hash := Row(ChunkCount(other.size), false, false)], map[])
  }

  lemma ValidIsListed(sha: Sha, c: Claim)
    requires c.Valid(sha)
    ensures Lists(sha, c.m, c.list) && |c.list| == ChunkCount(c.m.size) >= 2 && c.p != 0
  {
  }

  lemma EvictionEvicts(sha: Sha, c: Claim, other: Manifest)
    requires c.Valid(sha) && other.hash != c.m.hash
    ensures Evicted(sha, Run(sha, Start(), EvictionRun(c, other)), c, other)
  {
    hide Run, HasList, Took, Asked, ChunkRoot, Start, Opening, NextChunk, Going, RequestDownload, Lists, Quiet,
         Prepare, Share, OnResult, Prune, PeerAppeared, RetryParked, ServesNext, Evicting, Fits, Claim.Valid, Awaiting;
    var h, p, list := c.m.hash, c.p, c.list;
    var w, evicting := Alone(map[], 3), Evicting(other.hash, c.m.hash);
    ValidIsListed(sha, c);
    StartIsQuiet(c.m, p);
    OpeningOpens(sha, Start(), c.m, p, list, 1);
    FirstListed(c.m, p, list);
    SecondGoesOut(sha, c);
    var s1 := HasList(Start(), c.m, p, list, 1);
    var s2 := Took(s1, h, p, 2, 0, c.first);
    GoingFits(s2, h, p);
    AsksNext(sha, s2, h, p, 3);
    OtherEvicts(sha, Asked(s2, h, p, 3), c, other);
    var e1, e2 := Pumped(w), Requested(evicting, other, None);
    RunAppends(sha, Start(), Opening(c.m, p, list, 1), NextChunk(2, c.first) + ([e1] + [e2]));
    RunAppends(sha, s1, NextChunk(2, c.first), [e1] + [e2]);
    TwoEvents(sha, s2, e1, e2);
  }

  lemma OutFits(sha: Sha, s: State, c: Claim)
    requires SecondIsOut(sha, s, c)
    ensures Fits(s) && s.active == Some(c.m.hash) && s.lastHolder == map[c.m.hash := c.p]
  {
  }

  lemma StrayIsLeft(sha: Sha, c: Claim, other: Manifest)
    requires c.Valid(sha) && |c.list| >= 3 && other.hash != c.m.hash
    ensures Strayed(Run(sha, Start(), StrayRun(c, other)), c, other)
  {
    hide Run, Start, EvictionRun, RequestDownload, Prepare, Share, OnResult, Prune, PeerAppeared, RetryParked, SecondIsOut, Fits, Claim.Valid;
    var w := Alone(map[], 3);
    ValidIsListed(sha, c);
    EvictionEvicts(sha, c, other);
    var s4 := Run(sha, Start(), EvictionRun(c, other));
    OutFits(sha, s4, c);
    SecondStrays(sha, s4, c, other);
    var s5 := OnResult(sha, w, {}, s4, 3, Reply(c.second));
    PruneForgets(s5, c.m.hash, other.hash);
    NobodyToAsk(Prune(s5, {}), other.hash);
    var e3, e4, e5 := Answered(w, {}, 3, Reply(c.second)), Pruned({}), Pumped(Alone(map[], 4));
    RunAppends(sha, Start(), EvictionRun(c, other), [e3] + ([e4] + [e5]));
    RunFirst(sha, s4, e3, [e4] + [e5]);
    TwoEvents(sha, s5, e4, e5);
  }

  function StrayCompletesRun(sha: Sha, c: Claim, other: Manifest, m: Manifest, x: Bytes): seq<Event> {
    StrayRun(c, other) + (Opening(m, c.p, [sha(x)], 5) + NextChunk(6, x))
  }

  /** The true manifest of a short file then names the same hash. Its one chunk
      is fetched and the file marked complete, rightly; but what is handed out
      is that chunk followed by the stray one. */
  lemma StrayChunkIsHandedOut(sha: Sha, c: Claim, other: Manifest, x: Bytes)
    requires c.Valid(sha) && |c.list| >= 3 && other.hash != c.m.hash && 1 <= |x| <= FILE_CHUNK_BYTES && c.m.hash == sha(x)
    ensures var m := Manifest(|x|, sha(x), ChunkRoot(sha, [sha(x)]));
            var st := Run(sha, Start(), StrayCompletesRun(sha, c, other, m, x)).store;
            && st.Complete(sha(x)) && Hashes(sha, st, sha(x), 1)
            && Assembled(st, sha(x)) == x + c.second && Assembled(st, sha(x)) != x
  {
    hide Run, HasList, Finished, ChunkRoot, Start, Opening, NextChunk, Going, ServesLast, Lists, Quiet, StrayRun, Assembled, Hashes;
    var h, p, list := sha(x), c.p, [sha(x)];
    var m := Manifest(|x|, h, ChunkRoot(sha, list));
    var s1 := Run(sha, Start(), StrayRun(c, other));
    StrayIsLeft(sha, c, other);
    StrayedIsQuiet(s1, c, other, m);
    TwoAreListed(sha, m, list);
    OpeningOpens(sha, s1, m, p, list, 5);
    var s2 := HasList(s1, m, p, list, 5);
    StrayedListed(s1, c, other, m, list);
    OnlyChunkIsLast(sha, s2, m, p, {1}, x);
    TakesLast(sha, s2, h, p, 6, 0, x);
    RunAppends(sha, Start(), StrayRun(c, other), Opening(m, p, list, 5) + NextChunk(6, x));
    RunAppends(sha, s1, Opening(m, p, list, 5), NextChunk(6, x));
    StrayedStore(sha, s2, h, p, x, c.second);
  }

  lemma StrayedIsQuiet(s: State, c: Claim, other: Manifest, m: Manifest)
    requires Strayed(s, c, other) && other.hash != c.m.hash && m.hash == c.m.hash && c.p != 0
    ensures Quiet(s, m, c.p)
  {
  }

  lemma StrayedListed(s: State, c: Claim, other: Manifest, m: Manifest, list: seq<Bytes>)
    requires Strayed(s, c, other) && other.hash != c.m.hash && m.hash == c.m.hash && c.p != 0 && |list| == ChunkCount(m.size)
    ensures var t := HasList(s, m, c.p, list, 5);
            && m.hash in t.downloads && t.downloads[m.hash] == Listed(m, c.p, {1}, list) && Going(t, m.hash, c.p)
            && t.store.chunks == map[(m.hash, 1) := c.second] && m.hash in t.store.rows
  {
    assert (m.hash, 1) in s.store.chunks;
    assert s.store.Indices(m.hash) == {1};
    var t := HasList(s, m, c.p, list, 5);
    hide Store.Indices;
    assert t.downloads == s.downloads[m.hash := Listed(m, c.p, {1}, list)];
  }

  lemma StrayedStore(sha: Sha, s: State, h: Hash, p: Peer, x: Bytes, stray: Bytes)
    requires h in s.downloads && h in s.store.rows && s.store.chunks == map[(h, 1) := stray] && stray != [] && sha(x) == h
    ensures var st := Finished(s, h, p, 6, 0, x).store;
            st.Complete(h) && Hashes(sha, st, h, 1) && Assembled(st, h) == x + stray && x + stray != x
  {
    var st := Finished(s, h, p, 6, 0, x).store;
    assert st.chunks == map[(h, 1) := stray, (h, 0) := x];
    OneChunkContent(st, h, x);
    assert (h, 0) in st.chunks && (h, 1) in st.chunks;
    assert st.Indices(h) == {0, 1};
    assert End({0, 1}) == 2;
    assert st.Range(h, 0, 2) == [x, stray] by {
      assert st.Range(h, 1, 2) == [stray] + st.Range(h, 2, 2);
    }
    assert Join([x, stray]) == x + Join([stray]) && Join([stray]) == stray + Join([]) by {
      assert [x, stray][1..] == [stray];
    }
    assert |x + stray| > |x|;
  }

  /* A holder blamed for a chunk that was evicted here. */

  /** A file of two chunks, and a holder of it. */
  function Genuine(sha: Sha, data: Bytes, p: Peer): Claim
    requires ChunkCount(|data|) == 2
  {
    Claim(ManifestFor(sha, data), p, ChunkHashes(sha, data), Chunk(data, 0), Chunk(data, 1))
  }

  lemma GenuineIsValid(sha: Sha, data: Bytes, p: Peer)
    requires IsSha256(sha) && ChunkCount(|data|) == 2 && p != 0
    ensures Genuine(sha, data, p).Valid(sha)
  {
  }

  function BlamingRun(c: Claim, other: Manifest): seq<Event> {
    EvictionRun(c, other) + [Answered(Alone(map[], 3), {}, 3, Reply(c.second))]
  }

  /** What the holder sends is what any holder of the file answers when asked: the list, then each chunk. */
  predicate ServesAll(sha: Sha, server: Store, c: Claim) {
    && Served(sha, server, c.m.hash, TheList) == Some(Join(c.list))
    && Served(sha, server, c.m.hash, TheChunks(0, 1)) == Some(c.first)
    && Served(sha, server, c.m.hash, TheChunks(1, 1)) == Some(c.second)
  }

  lemma HolderServesAll(sha: Sha, server: Store, data: Bytes, p: Peer)
    requires HoldsProperly(sha, server, data) && ChunkCount(|data|) == 2
    ensures ServesAll(sha, server, Genuine(sha, data, p))
  {
    var h := sha(data);
    HeldRange(server, h, data, 0, 2);
    assert Digests(sha, ChunkRange(data, 0, 2)) == ChunkHashes(sha, data);
    hide Served;
    HonestRange(sha, server, data, 0, 1);
    HonestRange(sha, server, data, 1, 1);
    OneJoins(Chunk(data, 0));
    OneJoins(Chunk(data, 1));
    assert ChunkRange(data, 0, 1) == [Chunk(data, 0)] && ChunkRange(data, 1, 2) == [Chunk(data, 1)];
    ListIsServed(sha, server, h);
  }

  lemma ListIsServed(sha: Sha, server: Store, h: Hash)
    requires server.Complete(h) && |server.Range(h, 0, server.rows[h].chunkCount)| == server.rows[h].chunkCount
    ensures Served(sha, server, h, TheList) == Some(Join(Digests(sha, server.Range(h, 0, server.rows[h].chunkCount))))
  {
  }

  lemma OneJoins(c: Bytes)
    ensures Join([c]) == c
  {
    assert [c][1..] == [];
    assert Join([c]) == c + Join([]);
  }

  /** A node fetches a file of two chunks from its only holder. Before the second
      one arrives, room made for another file evicts the first one here. The
      holder has answered everything as any node that has the file would, and
      yet it is suspect, and the download failed for good. */
  lemma EvictionBlamesHonestHolder(sha: Sha, server: Store, data: Bytes, other: Manifest, p: Peer)
    requires IsSha256(sha) && ChunkCount(|data|) == 2 && p != 0 && other.hash != sha(data) && HoldsProperly(sha, server, data)
    ensures var c := Genuine(sha, data, p);
            var r := Run(sha, Start(), BlamingRun(c, other));
            && ServesAll(sha, server, c)
            && sha(data) in r.downloads && p in r.downloads[sha(data)].suspect
            && r.downloads[sha(data)].phase == Failed && r.downloads[sha(data)].reason == Some(Corrupt)
  {
    hide Run, EvictionRun, Start, OnResult, Claim.Valid, SecondIsOut, Fits, ServesAll, HoldsProperly, IsSha256;
    var c := Genuine(sha, data, p);
    GenuineIsValid(sha, data, p);
    HolderServesAll(sha, server, data, p);
    EvictionEvicts(sha, c, other);
    var s := Run(sha, Start(), EvictionRun(c, other));
    var e := Answered(Alone(map[], 3), {}, 3, Reply(c.second));
    OutFits(sha, s, c);
    RunAppends(sha, Start(), EvictionRun(c, other), [e]);
    RunOne(sha, s, e);
    SecondIsBlamed(sha, s, c, other);
  }

  lemma SecondIsBlamed(sha: Sha, s: State, c: Claim, other: Manifest)
    requires Evicted(sha, s, c, other) && ChunkCount(c.m.size) == 2 && other.hash != c.m.hash
    ensures var t := OnResult(sha, Alone(map[], 3), {}, s, 3, Reply(c.second));
            && c.m.hash in t.downloads && c.p in t.downloads[c.m.hash].suspect
            && t.downloads[c.m.hash].phase == Failed && t.downloads[c.m.hash].reason == Some(Corrupt)
  {
    var h, dl := c.m.hash, s.downloads[c.m.hash];
    OneChunkTaken(sha, dl.(fetch := None), s.store, c.p, 1, c.second);
    hide TakeIn, CompleteFile, Candidates;
    LackIsBlamed(sha, AroundOf(Alone(map[], 3), s, h), Credited(dl.(fetch := None, held := {0, 1}), false), s.store.Put(h, 1, c.second), c.p);
    assert dl.held + {1} == {0, 1};
  }

  /** Its only holder served the last chunk, and the first is gone. */
  lemma LackIsBlamed(sha: Sha, around: Around, dl: Dl, st: Store, p: Peer)
    requires dl.Count() == 2 && (dl.Hash(), 0) !in st.chunks && dl.holder == Some(p) && p in dl.contributors
    requires dl.senders == [p] && around.members == []
    ensures var t := CompleteFile(sha, around, dl, st, true);
            p in t.dl.suspect && t.dl.phase == Failed && t.dl.reason == Some(Corrupt)
  {
    RangeOfAll(st, dl.Hash(), 0, 2);
    assert |st.Range(dl.Hash(), 0, 2)| != 2;
    hide Store.Range, Store.Delete, Store.Begin;
  }
}
