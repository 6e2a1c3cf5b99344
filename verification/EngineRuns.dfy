/** Everything that can happen to the download manager, whole runs of it, and
    what a restart begins with (trenchchat/core/files.py). */
module EngineRuns {
  import opened Prelude
  import opened Chunks
  import opened FileStore
  import opened Download
  import opened Engine

  /** Everything that happens to the manager, in any interleaving of its locked regions. */
  datatype Event =
    | Shared(data: Bytes, room: bool, full: set<nat>)
    | Requested(w: World, manifest: Manifest, sender: Option<Peer>)
    | Answered(w: World, full: set<nat>, id: FetchId, answer: Answer)
    | Pumped(w: World)
    | Pruned(deleted: set<Hash>)
    | Appeared(me: Peer, peer: Peer, mayHold: set<Hash>)
    | Retried(due: set<Hash>)

  function Step(sha: Sha, s: State, e: Event): State
    requires Fits(s)
  {
    match e
    case Shared(data, room, full) => Share(sha, s, data, room, full)
    case Requested(w, m, sender) => RequestDownload(w, s, m, sender)
    case Answered(w, full, id, answer) => OnResult(sha, w, full, s, id, answer)
    case Pumped(w) => Prepare(w, s).state
    case Pruned(deleted) => Prune(s, deleted)
    case Appeared(me, peer, mayHold) => PeerAppeared(me, s, peer, mayHold)
    case Retried(due) => RetryParked(s, due)
  }

  function Run(sha: Sha, s: State, es: seq<Event>): State
    decreases |es|
  {
    if es == [] || !Fits(s) then s else Run(sha, Step(sha, s, es[0]), es[1..])
  }

  /** A manifest is only ever used after its size was checked to be positive. */
  predicate Checked(e: Event) { e.Requested? ==> e.manifest.size >= 1 }

  /** Storing a shared file fails exactly when there is no room for one of its missing chunks. */
  lemma {:induction false} PutAllNeedsRoom(st: Store, h: Hash, data: Bytes, from: nat, full: set<nat>)
    requires from <= ChunkCount(|data|)
    ensures PutAll(st, h, data, from, full).Some? <==> HasRoom(st, h, from, ChunkCount(|data|), full)
    decreases ChunkCount(|data|) - from
  {
    if from < ChunkCount(|data|) && ((h, from) in st.chunks || from !in full) {
      var next := st.Put(h, from, Chunk(data, from));
      PutAllNeedsRoom(next, h, data, from + 1, full);
      assert forall i: nat | from + 1 <= i :: (h, i) in next.chunks <==> (h, i) in st.chunks;
    }
  }

  /** It stores exactly the missing chunks, and replaces none. */
  lemma {:induction false} PutAllResult(st: Store, h: Hash, data: Bytes, from: nat, full: set<nat>)
    requires from <= ChunkCount(|data|) && PutAll(st, h, data, from, full).Some?
    ensures var t := PutAll(st, h, data, from, full).value;
            && t.rows == st.rows
            && HasAll(t, h, from, ChunkCount(|data|))
            && (forall k | k in st.chunks :: k in t.chunks && t.chunks[k] == st.chunks[k])
            && (forall k | k in t.chunks && k !in st.chunks :: k.0 == h && k.1 < ChunkCount(|data|) && t.chunks[k] == Chunk(data, k.1))
    decreases ChunkCount(|data|) - from
  {
    if from < ChunkCount(|data|) {
      PutAllResult(st.Put(h, from, Chunk(data, from)), h, data, from + 1, full);
    }
  }

  lemma ShareStaysInStore(sha: Sha, s: State, data: Bytes, room: bool, full: set<nat>)
    ensures Share(sha, s, data, room, full) == s.(store := Share(sha, s, data, room, full).store)
  {
    hide PutAll;
  }

  predicate HasRoom(st: Store, h: Hash, first: nat, last: nat, full: set<nat>) {
    forall i: nat | first <= i < last :: (h, i) in st.chunks || i !in full
  }

  /* A restart. */

  /** What the stored messages say of a file: its manifest, and who sent it. */
  datatype Told = Told(manifest: Manifest, senders: seq<Peer>)

  function Resumed(t: Told, st: Store): Dl {
    Fresh(t.manifest).(admitted := true, phase := Unavailable, reason := Some(NoHolder),
                       senders := t.senders, held := st.Indices(t.manifest.hash))
  }

  function Named(listed: seq<Hash>, told: map<Hash, Told>): (r: seq<Hash>)
    ensures forall h :: h in r <==> h in listed && h in told
    ensures NoDuplicates(listed) ==> NoDuplicates(r)
  {
    if listed == [] then []
    else
      assert listed == [listed[0]] + listed[1..];
      (if listed[0] in told then [listed[0]] else []) + Named(listed[1..], told)
  }

  /** The downloads a previous run left behind: the listed files that a stored message names. */
  function Restored(st: Store, listed: seq<Hash>, told: map<Hash, Told>): State {
    State(map h | h in listed && h in told :: Resumed(told[h], st), Named(listed, told), None, map[], map[], st)
  }

  lemma {:induction false} NamedGrows(listed: seq<Hash>, h: Hash, told: map<Hash, Told>)
    ensures Named(listed + [h], told) == Named(listed, told) + if h in told then [h] else []
  {
    if listed == [] {
      assert [] + [h] == [h] && [h][1..] == [];
    } else {
      assert (listed + [h])[1..] == listed[1..] + [h];
      NamedGrows(listed[1..], h, told);
    }
  }

  /** The messages of each file name that file. */
  predicate Telling(told: map<Hash, Told>) {
    forall h | h in told :: told[h].manifest.hash == h && told[h].manifest.size >= 1
  }

  /* What a step leaves alone. */

  /** The part of the tables that belongs to other files is untouched. */
  predicate SameElsewhere(h: Hash, a: Store, b: Store) {
    && (forall g | g in a.rows && g != h :: g in b.rows && b.rows[g] == a.rows[g])
    && (forall g | g in b.rows && g != h :: g in a.rows)
    && (forall k | k in a.chunks && k.0 != h :: k in b.chunks && b.chunks[k] == a.chunks[k])
    && (forall k | k in b.chunks && k.0 != h :: k in a.chunks)
  }

  /** Nothing of a file appeared in the tables. */
  predicate NoMoreOf(g: Hash, a: Store, b: Store) {
    && (b.Complete(g) ==> a.Complete(g))
    && (forall k | k in b.chunks && k.0 == g :: k in a.chunks && b.chunks[k] == a.chunks[k])
  }

  /** A file that is still complete has lost none of its chunks. */
  predicate NoneLostOf(g: Hash, a: Store, b: Store) {
    b.Complete(g) ==> forall k | k in a.chunks && k.0 == g :: k in b.chunks
  }

  /** Files may have been deleted, whole, and new rows begun. */
  ghost predicate OnlyLoses(a: Store, b: Store) {
    forall g :: NoMoreOf(g, a, b) && NoneLostOf(g, a, b)
  }

  /** Of what a download holds, only admission changed anything. */
  predicate OnlyAdmitted(h: Hash, d: Dl, dl: Dl, st: Store) {
    && d.manifest == dl.manifest && d.chunkList == dl.chunkList && d.window == dl.window && d.suspect == dl.suspect
    && if d.admitted == dl.admitted then d.held == dl.held else d.admitted && d.held <= st.Indices(h)
  }

  /** A row that was begun since has the count of the download it was begun for. */
  predicate RowsFrom(a: Store, b: Store, downloads: map<Hash, Dl>) {
    forall g | g in b.rows ::
      (g in a.rows && b.rows[g].chunkCount == a.rows[g].chunkCount) || (g in downloads && b.rows[g].chunkCount == downloads[g].Count())
  }

  /** A step that takes nothing in: it may delete files, park or start downloads, and admit them. */
  ghost predicate TakesNothingIn(s: State, t: State) {
    && t.downloads.Keys == s.downloads.Keys && t.order == s.order && OnlyLoses(s.store, t.store)
    && RowsFrom(s.store, t.store, s.downloads)
    && forall h | h in s.downloads :: OnlyAdmitted(h, t.downloads[h], s.downloads[h], s.store)
  }

  lemma NothingInTwice(s: State, t: State, u: State)
    requires TakesNothingIn(s, t) && TakesNothingIn(t, u)
    ensures TakesNothingIn(s, u)
  {
    forall g ensures NoMoreOf(g, s.store, u.store) && NoneLostOf(g, s.store, u.store) {
      assert NoMoreOf(g, s.store, t.store) && NoneLostOf(g, s.store, t.store);
      assert NoMoreOf(g, t.store, u.store) && NoneLostOf(g, t.store, u.store);
    }
    forall h | h in s.downloads ensures OnlyAdmitted(h, u.downloads[h], s.downloads[h], s.store) {
      assert OnlyAdmitted(h, t.downloads[h], s.downloads[h], s.store);
      assert OnlyAdmitted(h, u.downloads[h], t.downloads[h], t.store);
      assert NoMoreOf(h, s.store, t.store);
      forall i | i in t.store.Indices(h) ensures i in s.store.Indices(h) {
        assert (h, i).0 == h;
      }
    }
  }

  lemma AdmissionLoses(w: World, s: State, h: Hash)
    requires h in s.downloads
    ensures OnlyLoses(s.store, Admit(w, s, h).store) && RowsFrom(s.store, Admit(w, s, h).store, map[h := s.downloads[h]])
    ensures !s.downloads[h].admitted ==> TakesNothingIn(s, Admit(w, s, h))
  {
    var t := Admit(w, s, h);
    forall i | i in t.store.Indices(h) ensures i in s.store.Indices(h) {
      assert (h, i) in s.store.chunks;
    }
  }

  lemma {:induction false} ActivationTakesNothingIn(w: World, s: State, candidates: seq<Hash>)
    ensures TakesNothingIn(s, ActivateNext(w, s, candidates))
    decreases |candidates|
  {
    if candidates != [] {
      var h := candidates[0];
      if h in s.downloads && s.downloads[h].phase == Queued && !s.downloads[h].admitted {
        AdmissionLoses(w, s, h);
        hide Admit, OnlyLoses, OnlyAdmitted;
        var t := Admit(w, s, h);
        if t.downloads[h].admitted {
          NothingInTwice(s, t, t.(active := Some(h)));
        } else {
          ActivationTakesNothingIn(w, t, candidates[1..]);
          NothingInTwice(s, t, ActivateNext(w, s, candidates));
        }
      } else if h !in s.downloads || s.downloads[h].phase != Queued {
        ActivationTakesNothingIn(w, s, candidates[1..]);
      }
    }
  }

  lemma IssueTakesNothingIn(w: World, s: State, h: Hash, holder: Peer)
    requires h in s.downloads
    ensures TakesNothingIn(s, IssueTo(w, s, h, holder))
  {
  }

  lemma StallTakesNothingIn(w: World, s: State, h: Hash)
    requires h in s.downloads
    ensures TakesNothingIn(s, Stall(w, s, h))
  {
    hide AllSaidNo;
  }

  lemma NothingIn(s: State)
    ensures TakesNothingIn(s, s)
  {
  }

  /** Issuing the next request, with all the parking and admitting before it, takes nothing in. */
  lemma {:induction false} PrepareTakesNothingIn(w: World, s: State)
    ensures TakesNothingIn(s, Prepare(w, s).state)
    decreases |OpenDownloads(s)|, if HasActive(s) then 1 else 0
  {
    hide ActivateNext, NextHolder, Candidates, AroundOf, TakesNothingIn, RequestFor, IssueTo, Stall;
    ActivationKeepsOpen(w, s, s.order);
    ActivationTakesNothingIn(w, s, s.order);
    NothingIn(s);
    var t := if HasActive(s) then s else ActivateNext(w, s, s.order);
    if HasActive(t) && t.downloads[t.active.value].fetch.None? {
      var h := t.active.value;
      var dl := t.downloads[h];
      var holder := NextHolder(w, dl, Candidates(AroundOf(w, t, h), dl.senders));
      if holder.Some? {
        IssueTakesNothingIn(w, t, h, holder.value);
        NothingInTwice(s, t, IssueTo(w, t, h, holder.value));
      } else {
        StallCloses(w, t, h);
        StallTakesNothingIn(w, t, h);
        PrepareTakesNothingIn(w, Stall(w, t, h));
        NothingInTwice(s, t, Stall(w, t, h));
        NothingInTwice(s, Stall(w, t, h), Prepare(w, s).state);
      }
    }
  }

  predicate SameDone(s: State, t: State) {
    t.downloads.Keys == s.downloads.Keys && forall h | h in s.downloads :: t.downloads[h].phase == Done <==> s.downloads[h].phase == Done
  }

  lemma SameDoneTwice(s: State, t: State, u: State)
    requires SameDone(s, t) && SameDone(t, u)
    ensures SameDone(s, u)
  {
  }

  lemma AdmitKeepsDone(w: World, s: State, h: Hash)
    requires h in s.downloads && s.downloads[h].phase == Queued
    ensures SameDone(s, Admit(w, s, h))
  {
  }

  lemma {:induction false} ActivationKeepsDone(w: World, s: State, candidates: seq<Hash>)
    ensures SameDone(s, ActivateNext(w, s, candidates))
    decreases |candidates|
  {
    if candidates != [] {
      var h := candidates[0];
      if h in s.downloads && s.downloads[h].phase == Queued && !s.downloads[h].admitted {
        AdmitKeepsDone(w, s, h);
        hide Admit;
        ActivationKeepsDone(w, Admit(w, s, h), candidates[1..]);
        SameDoneTwice(s, Admit(w, s, h), ActivateNext(w, Admit(w, s, h), candidates[1..]));
      } else {
        ActivationKeepsDone(w, s, candidates[1..]);
      }
    }
  }

  lemma StallKeepsDone(w: World, s: State, h: Hash)
    requires h in s.downloads && s.downloads[h].phase != Done
    ensures SameDone(s, Stall(w, s, h))
  {
    hide AllSaidNo;
  }

  lemma IssueKeepsDone(w: World, s: State, h: Hash, holder: Peer)
    requires h in s.downloads && s.downloads[h].phase != Done
    ensures SameDone(s, IssueTo(w, s, h, holder))
  {
  }

  /** Unless a download that is done holds the slot, preparing a request starts no download that is done. */
  lemma {:induction false} PrepareKeepsDone(w: World, s: State)
    requires HasActive(s) ==> s.downloads[s.active.value].phase != Done
    ensures SameDone(s, Prepare(w, s).state)
    decreases |OpenDownloads(s)|, if HasActive(s) then 1 else 0
  {
    ActivationKeepsOpen(w, s, s.order);
    ActivationKeepsDone(w, s, s.order);
    var t := if HasActive(s) then s else ActivateNext(w, s, s.order);
    assert SameDone(s, t);
    hide SameDone, ActivateNext, NextHolder, Candidates, AroundOf, RequestFor, Stall, IssueTo;
    if HasActive(t) && t.downloads[t.active.value].fetch.None? {
      var h := t.active.value;
      var holder := NextHolder(w, t.downloads[h], Candidates(AroundOf(w, t, h), t.downloads[h].senders));
      if holder.Some? {
        IssueKeepsDone(w, t, h, holder.value);
        SameDoneTwice(s, t, IssueTo(w, t, h, holder.value));
      } else {
        StallCloses(w, t, h);
        StallKeepsDone(w, t, h);
        PrepareKeepsDone(w, Stall(w, t, h));
        SameDoneTwice(s, t, Stall(w, t, h));
        SameDoneTwice(s, Stall(w, t, h), Prepare(w, s).state);
      }
    }
  }

  /* What a request changes. */

  lemma JoinEffect(w: World, s: State, m: Manifest, sender: Option<Peer>)
    ensures var t := Joined(w, s, m, sender);
            && t == s.(downloads := t.downloads, order := t.order)
            && t.downloads.Keys == s.downloads.Keys + {m.hash}
            && (forall g | g in s.downloads && g != m.hash :: t.downloads[g] == s.downloads[g])
            && t.downloads[m.hash] == (if m.hash in s.downloads then s.downloads[m.hash] else Fresh(m)).(senders := t.downloads[m.hash].senders)
  {
  }

  /** The state before a request for a file that is not here asks for room. */
  function Awoken(w: World, s: State, m: Manifest, sender: Option<Peer>): State {
    var t := Joined(w, s, m, sender);
    Change(t, m.hash, Woken(t.downloads[m.hash]))
  }

  lemma AwokenEffect(w: World, s: State, m: Manifest, sender: Option<Peer>)
    ensures var u := Awoken(w, s, m, sender);
            && u == s.(downloads := u.downloads, order := u.order)
            && u.downloads.Keys == s.downloads.Keys + {m.hash}
            && (forall g | g in s.downloads && g != m.hash :: u.downloads[g] == s.downloads[g])
            && (var d := if m.hash in s.downloads then s.downloads[m.hash] else Fresh(m);
                u.downloads[m.hash] == Woken(d).(senders := u.downloads[m.hash].senders))
  {
    JoinEffect(w, s, m, sender);
    hide Joined;
  }

  lemma AdmittedState(w: World, s: State, h: Hash)
    requires h in s.downloads
    ensures var t := Admit(w, s, h);
            && t.active == s.active && t.downloads == s.downloads[h := t.downloads[h]]
            && t.downloads[h].phase == if w.Admits(h).room then s.downloads[h].phase else Queued
  {
  }

  lemma AdmissionKeepsChunks(w: World, s: State, h: Hash)
    requires h in s.downloads
    ensures var t := Admit(w, s, h);
            && t.store.Indices(h) == s.store.Indices(h)
            && (forall n: nat :: HasAll(t.store, h, 0, n) <==> HasAll(s.store, h, 0, n))
  {
    var t := Admit(w, s, h);
    assert forall i: nat :: (h, i) in t.store.chunks <==> (h, i) in s.store.chunks;
  }

  /** What a request for a file that is held whole leaves of its download. */
  lemma HeldRequestEffect(w: World, s: State, m: Manifest, sender: Option<Peer>)
    requires s.store.Complete(m.hash)
    ensures var t := RequestDownload(w, s, m, sender);
            var d := if m.hash in s.downloads then s.downloads[m.hash] else Fresh(m);
            && t == s.(downloads := t.downloads, order := t.order)
            && t.downloads.Keys == s.downloads.Keys + {m.hash}
            && (forall g | g in s.downloads && g != m.hash :: t.downloads[g] == s.downloads[g])
            && t.downloads[m.hash] == AlreadyHeld(d).(senders := t.downloads[m.hash].senders)
  {
    JoinEffect(w, s, m, sender);
    hide Joined;
  }

  /** The download that a request leaves, compared with what was there or a fresh one. */
  predicate RequestLeaves(w: World, st: Store, h: Hash, d: Dl, e: Dl) {
    && e.manifest == d.manifest && e.chunkList == d.chunkList && e.suspect == d.suspect
    && if st.Complete(h) then e.phase == Done && e.admitted == d.admitted
       else OnlyAdmitted(h, e, d, st) && (e.phase == Done <==> d.phase == Done && (d.admitted || w.Admits(h).room))
  }

  lemma AdmissionLeaves(w: World, s: State, h: Hash, d: Dl)
    requires h in s.downloads && !s.store.Complete(h) && s.downloads[h] == Woken(d).(senders := s.downloads[h].senders)
    ensures RequestLeaves(w, s.store, h, d, if d.admitted then s.downloads[h] else Admit(w, s, h).downloads[h])
  {
    hide Store.DeleteAll, Store.Begin;
    AdmissionKeepsChunks(w, s, h);
    AdmittedState(w, s, h);
  }

  /** A request adds or changes one download, never which file it is for, and stores nothing. */
  lemma RequestEffect(w: World, s: State, m: Manifest, sender: Option<Peer>)
    ensures var t := RequestDownload(w, s, m, sender);
            var d := if m.hash in s.downloads then s.downloads[m.hash] else Fresh(m);
            && OnlyLoses(s.store, t.store) && t.store.Indices(m.hash) == s.store.Indices(m.hash)
            && t.downloads.Keys == s.downloads.Keys + {m.hash}
            && (forall g | g in s.downloads && g != m.hash :: t.downloads[g] == s.downloads[g])
            && RequestLeaves(w, s.store, m.hash, d, t.downloads[m.hash])
  {
    var h := m.hash;
    SameTables(s.store);
    if s.store.Complete(h) {
      HeldRequestEffect(w, s, m, sender);
      hide RequestDownload, OnlyLoses, Store.Indices;
    } else {
      AwokenEffect(w, s, m, sender);
      var u := Awoken(w, s, m, sender);
      assert RequestDownload(w, s, m, sender) == if u.downloads[h].admitted then u else Admit(w, u, h);
      hide Awoken, RequestDownload;
      AdmissionLoses(w, u, h);
      AdmissionKeepsChunks(w, u, h);
      AdmittedState(w, u, h);
      AdmissionLeaves(w, u, h, if h in s.downloads then s.downloads[h] else Fresh(m));
      hide OnlyLoses, Admit, RequestLeaves, Store.Indices, HasAll;
    }
  }

  /** A request for a file that is not held whole: woken, then admitted if that is still to be done. */
  lemma RequestAdmits(w: World, s: State, m: Manifest, sender: Option<Peer>)
    requires !s.store.Complete(m.hash)
    ensures var u := Awoken(w, s, m, sender);
            && m.hash in u.downloads
            && RequestDownload(w, s, m, sender) == (if u.downloads[m.hash].admitted then u else Admit(w, u, m.hash))
            && u.store == s.store
            && u.downloads[m.hash].manifest == (if m.hash in s.downloads then s.downloads[m.hash] else Fresh(m)).manifest
  {
    AwokenEffect(w, s, m, sender);
    hide Joined, Admit;
  }

  lemma SameRows(st: Store, downloads: map<Hash, Dl>)
    ensures RowsFrom(st, st, downloads)
  {
  }

  lemma RowsOfOne(a: Store, b: Store, h: Hash, d: Dl, e: Dl)
    requires RowsFrom(a, b, map[h := d]) && d.manifest == e.manifest
    ensures RowsFrom(a, b, map[h := e])
  {
  }

  lemma RequestRows(w: World, s: State, m: Manifest, sender: Option<Peer>)
    ensures RowsFrom(s.store, RequestDownload(w, s, m, sender).store, map[m.hash := if m.hash in s.downloads then s.downloads[m.hash] else Fresh(m)])
  {
    hide RequestDownload, Awoken, Admit, RowsFrom, OnlyLoses, TakesNothingIn;
    var h, d := m.hash, if m.hash in s.downloads then s.downloads[m.hash] else Fresh(m);
    SameRows(s.store, map[h := d]);
    if s.store.Complete(h) {
      HeldRequestEffect(w, s, m, sender);
    } else {
      RequestAdmits(w, s, m, sender);
      var u := Awoken(w, s, m, sender);
      AdmissionLoses(w, u, h);
      RowsOfOne(s.store, Admit(w, u, h).store, h, u.downloads[h], d);
    }
  }

  lemma SameTables(st: Store)
    ensures OnlyLoses(st, st)
  {
  }
}
