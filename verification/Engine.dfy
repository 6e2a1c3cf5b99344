/** The download manager as a state machine: one step for each region of the
    source that runs under its lock (trenchchat/core/files.py). */
module Engine {
  import opened Prelude
  import opened Chunks
  import opened FileStore
  import opened Download

  datatype State = State(
    downloads: map<Hash, Dl>,
    order: seq<Hash>,
    active: Option<Hash>,
    byFetch: map<FetchId, Hash>,
    lastHolder: map<Hash, Peer>,
    store: Store)

  function Start(): State {
    State(map[], [], None, map[], map[], Store(map[], map[]))
  }

  /** What the store answered when asked for room: which other files it evicted, and whether there is room now. */
  datatype Admission = Admission(evicted: set<Hash>, room: bool)

  /** What the rest of the node says at one moment: the channel members of each
      file, who can be dialled, who has been heard from, what the store would
      answer, and a random id for the next request. */
  datatype World = World(
    me: Peer,
    members: map<Hash, seq<Peer>>,
    reachable: set<Peer>,
    online: set<Peer>,
    admissions: map<Hash, Admission>,
    nextFetch: FetchId)
  {
    function Members(h: Hash): seq<Peer> { if h in members then members[h] else [] }

    function Admits(h: Hash): Admission { if h in admissions then admissions[h] else Admission({}, false) }

    /** 0: reachable and heard from, 1: reachable, 2: heard from, 3: neither. */
    function Tier(p: Peer): nat { (if p in reachable then 0 else 2) + (if p in online then 0 else 1) }
  }

  function AroundOf(w: World, s: State, h: Hash): Around {
    Around(w.me, if h in s.lastHolder then Some(s.lastHolder[h]) else None, w.Members(h))
  }

  /* Choosing a holder. */

  predicate Eligible(dl: Dl, p: Peer) { p !in dl.suspect && p !in dl.skipped }

  function FirstInTier(w: World, dl: Dl, peers: seq<Peer>, tier: nat): Option<Peer> {
    if peers == [] then None
    else if Eligible(dl, peers[0]) && w.Tier(peers[0]) == tier then Some(peers[0])
    else FirstInTier(w, dl, peers[1..], tier)
  }

  function NextHolder(w: World, dl: Dl, peers: seq<Peer>): Option<Peer> {
    if dl.attempts >= MAX_HOLDER_ATTEMPTS then None
    else if FirstInTier(w, dl, peers, 0).Some? then FirstInTier(w, dl, peers, 0)
    else if FirstInTier(w, dl, peers, 1).Some? then FirstInTier(w, dl, peers, 1)
    else if FirstInTier(w, dl, peers, 2).Some? then FirstInTier(w, dl, peers, 2)
    else FirstInTier(w, dl, peers, 3)
  }

  lemma {:induction false} FirstInTierFinds(w: World, dl: Dl, peers: seq<Peer>, tier: nat)
    ensures var r := FirstInTier(w, dl, peers, tier);
            && (r.Some? ==> r.value in peers && Eligible(dl, r.value) && w.Tier(r.value) == tier)
            && (r.None? ==> forall p | p in peers && Eligible(dl, p) :: w.Tier(p) != tier)
  {
    if peers != [] {
      assert peers == [peers[0]] + peers[1..];
      FirstInTierFinds(w, dl, peers[1..], tier);
    }
  }

  /** The holder chosen is an eligible candidate of the best tier any eligible
      candidate has; there is none exactly when the round is over or nobody is eligible. */
  lemma NextHolderIsBest(w: World, dl: Dl, peers: seq<Peer>)
    ensures var r := NextHolder(w, dl, peers);
            && (r.Some? ==> r.value in peers && Eligible(dl, r.value) && dl.attempts < MAX_HOLDER_ATTEMPTS)
            && (r.Some? ==> forall p | p in peers && Eligible(dl, p) :: w.Tier(r.value) <= w.Tier(p))
            && (r.None? <==> dl.attempts >= MAX_HOLDER_ATTEMPTS || forall p | p in peers :: !Eligible(dl, p))
  {
    FirstInTierFinds(w, dl, peers, 0);
    FirstInTierFinds(w, dl, peers, 1);
    FirstInTierFinds(w, dl, peers, 2);
    FirstInTierFinds(w, dl, peers, 3);
  }

  /* Issuing a request. */

  datatype Request = WantList(id: FetchId, holder: Peer, h: Hash)
                   | WantChunks(id: FetchId, holder: Peer, h: Hash, first: nat, count: nat)
                   | WantNothing(id: FetchId, holder: Peer, h: Hash)  // no chunk is missing: the source has no index to ask for

  /** How many of the chunks from first on are asked for: missing, within the window and the file. */
  function RunLength(dl: Dl, first: nat, count: nat): (r: nat)
    requires 1 <= count
    ensures count <= r && (r <= dl.window || r == count)
    ensures forall i | first + count <= i < first + r :: i !in dl.held
    ensures r == count || first + r <= dl.Count()
    decreases dl.window - count
  {
    if count < dl.window && first + count < dl.Count() && first + count !in dl.held
    then RunLength(dl, first, count + 1) else count
  }

  function Asking(dl: Dl, id: FetchId, holder: Peer): Dl {
    var d := dl.(fetch := Some(id), holder := Some(holder), attempts := dl.attempts + 1, wantsList := dl.chunkList.None?);
    if d.phase != Fetching then d.(phase := Fetching, reason := None) else d
  }

  function RequestFor(dl: Dl, id: FetchId, holder: Peer): Request {
    if dl.chunkList.None? then WantList(id, holder, dl.Hash())
    else if dl.NextIndex().None? then WantNothing(id, holder, dl.Hash())
    else WantChunks(id, holder, dl.Hash(), dl.NextIndex().value, RunLength(dl, dl.NextIndex().value, 1))
  }

  function IssueTo(w: World, s: State, h: Hash, holder: Peer): State
    requires h in s.downloads
  {
    s.(downloads := s.downloads[h := Asking(s.downloads[h], w.nextFetch, holder)],
       byFetch := s.byFetch[w.nextFetch := s.downloads[h].Hash()])
  }

  /* Starting and parking downloads. */

  function Admit(w: World, s: State, h: Hash): State
    requires h in s.downloads
  {
    var dl, a := s.downloads[h], w.Admits(h);
    var cleared := s.store.DeleteAll(a.evicted - {h});
    if a.room then
      var st := cleared.Begin(h, dl.manifest.size, false);
      s.(store := st,
         downloads := s.downloads[h := dl.(admitted := true, held := st.Indices(h),
                                           reason := if dl.reason == Some(NoRoom) then None else dl.reason)])
    else
      s.(store := cleared, downloads := s.downloads[h := dl.(phase := Queued, reason := Some(NoRoom))])
  }

  /** The next queued download that has room becomes the active one. */
  function ActivateNext(w: World, s: State, candidates: seq<Hash>): State
    decreases |candidates|
  {
    if candidates == [] then s.(active := None)
    else
      var h, rest := candidates[0], candidates[1..];
      if h !in s.downloads || s.downloads[h].phase != Queued then ActivateNext(w, s, rest)
      else
        var t := if s.downloads[h].admitted then s else Admit(w, s, h);
        if t.downloads[h].admitted then t.(active := Some(h)) else ActivateNext(w, t, rest)
  }

  predicate AllSaidNo(dl: Dl, peers: seq<Peer>) {
    peers != [] && dl.refused != {} && forall p | p in peers :: p in dl.refused || p in dl.suspect
  }

  /** Parks a download nobody reachable can answer. */
  function Stall(w: World, s: State, h: Hash): State
    requires h in s.downloads
  {
    var dl := s.downloads[h].(holder := None);
    var parked := if AllSaidNo(dl, Candidates(AroundOf(w, s, h), dl.senders))
                  then dl.(phase := Failed, reason := Some(AllRefused))
                  else dl.(phase := Unavailable, reason := Some(NoHolder));
    s.(downloads := s.downloads[h := parked], active := None)
  }

  predicate HasActive(s: State) { s.active.Some? && s.active.value in s.downloads }

  function OpenDownloads(s: State): set<Hash> {
    set h | h in s.downloads && s.downloads[h].Open()
  }

  lemma {:induction false} ActivationKeepsOpen(w: World, s: State, candidates: seq<Hash>)
    ensures var t := ActivateNext(w, s, candidates);
            && OpenDownloads(t) == OpenDownloads(s)
            && t.downloads.Keys == s.downloads.Keys
            && (t.active.Some? ==> t.active.value in t.downloads && t.downloads[t.active.value].phase == Queued
                                   && t.downloads[t.active.value].admitted)
    decreases |candidates|
  {
    if candidates != [] {
      var h := candidates[0];
      if h !in s.downloads || s.downloads[h].phase != Queued {
        ActivationKeepsOpen(w, s, candidates[1..]);
      } else {
        var t := if s.downloads[h].admitted then s else Admit(w, s, h);
        assert t.downloads[h].phase == Queued;
        assert OpenDownloads(t) == OpenDownloads(s);
        ActivationKeepsOpen(w, t, candidates[1..]);
      }
    }
  }

  datatype Prepared = Prepared(state: State, request: Option<Request>)

  /** The one request to issue now, or none. Each stall closes a download, so the loop ends. */
  function Prepare(w: World, s: State): Prepared
    decreases |OpenDownloads(s)|, if HasActive(s) then 1 else 0
  {
    ActivationKeepsOpen(w, s, s.order);
    var t := if HasActive(s) then s else ActivateNext(w, s, s.order);
    if !HasActive(t) then Prepared(t, None)
    else
      var h := t.active.value;
      var dl := t.downloads[h];
      if dl.fetch.Some? then Prepared(t, None)
      else
        var holder := NextHolder(w, dl, Candidates(AroundOf(w, t, h), dl.senders));
        if holder.Some? then Prepared(IssueTo(w, t, h, holder.value), Some(RequestFor(dl, w.nextFetch, holder.value)))
        else
          StallCloses(w, t, h);
          Prepare(w, Stall(w, t, h))
  }

  lemma StallCloses(w: World, s: State, h: Hash)
    requires h in s.downloads
    ensures OpenDownloads(Stall(w, s, h)) == OpenDownloads(s) - {h}
    ensures h in OpenDownloads(s) ==> |OpenDownloads(Stall(w, s, h))| < |OpenDownloads(s)|
    ensures h !in OpenDownloads(s) ==> |OpenDownloads(Stall(w, s, h))| == |OpenDownloads(s)|
    ensures !HasActive(Stall(w, s, h))
  {
    assert OpenDownloads(Stall(w, s, h)) == OpenDownloads(s) - {h};
    if h !in OpenDownloads(s) {
      assert OpenDownloads(s) - {h} == OpenDownloads(s);
    }
  }

  /* The transport answers. */

  predicate Fits(s: State) {
    forall h | h in s.downloads :: ListFits(s.downloads[h])
  }

  predicate Expects(s: State, id: FetchId) {
    id in s.byFetch && s.byFetch[id] in s.downloads && s.downloads[s.byFetch[id]].fetch == Some(id)
  }

  function Remembered(lastHolder: map<Hash, Peer>, h: Hash, served: bool, holder: Option<Peer>): map<Hash, Peer> {
    if served && holder.Some? then lastHolder[h := holder.value] else lastHolder
  }

  function SlotAfter(active: Option<Hash>, h: Hash, slot: Slot): Option<Hash> {
    if slot == GivenUp || (slot == GivenUpIfActive && active == Some(h)) then None else active
  }

  function Settle(w: World, s: State, h: Hash, t: Turn, holder: Option<Peer>): State {
    s.(downloads := s.downloads[h := t.dl],
       store := t.store,
       lastHolder := Remembered(s.lastHolder, h, t.served, holder),
       active := SlotAfter(s.active, h, t.slot))
  }

  function OnResult(sha: Sha, w: World, full: set<nat>, s: State, id: FetchId, answer: Answer): State
    requires Fits(s)
  {
    var popped := s.(byFetch := s.byFetch - {id});
    if !Expects(s, id) then popped
    else
      var h := s.byFetch[id];
      var dl := s.downloads[h];
      Settle(w, popped, h, OnAnswer(sha, AroundOf(w, s, h), full, dl, s.store, answer), dl.holder)
  }

  /* Local requests and outside events. */

  function PutAll(st: Store, h: Hash, data: Bytes, from: nat, full: set<nat>): Option<Store>
    requires from <= ChunkCount(|data|)
    decreases ChunkCount(|data|) - from
  {
    if from == ChunkCount(|data|) then Some(st)
    else if (h, from) !in st.chunks && from in full then None
    else PutAll(st.Put(h, from, Chunk(data, from)), h, data, from + 1, full)
  }

  /** Storing a file as our own; empty data makes no manifest. */
  function Share(sha: Sha, s: State, data: Bytes, room: bool, full: set<nat>): State {
    var h := sha(data);
    if data == [] then s
    else if s.store.Complete(h) then s.(store := s.store.Begin(h, |data|, true).MarkComplete(h))
    else if !room then s
    else
      var begun := s.store.Begin(h, |data|, true);
      match PutAll(begun, h, data, 0, full)
      case None => s.(store := s.store.Delete(h))
      case Some(st) => s.(store := st.MarkComplete(h))
  }

  function Tracked(s: State, m: Manifest): State {
    if m.hash in s.downloads then s
    else s.(downloads := s.downloads[m.hash := Fresh(m)], order := s.order + [m.hash])
  }

  function SenderNoted(w: World, s: State, h: Hash, sender: Option<Peer>): State
    requires h in s.downloads
  {
    var dl := s.downloads[h];
    if sender.Some? && sender.value != w.me && sender.value !in dl.senders
    then s.(downloads := s.downloads[h := dl.(senders := dl.senders + [sender.value])])
    else s
  }

  /** The download of a file tracked, and the sender of a message naming it noted. */
  function Joined(w: World, s: State, m: Manifest, sender: Option<Peer>): (t: State)
    ensures m.hash in t.downloads
  {
    SenderNoted(w, Tracked(s, m), m.hash, sender)
  }

  function AlreadyHeld(dl: Dl): Dl {
    var full := dl.(held := dl.AllIndices());
    if full.phase != Done then full.(phase := Done, reason := None) else full
  }

  function Woken(dl: Dl): Dl {
    if dl.phase == Unavailable || dl.phase == Failed
    then dl.(phase := Queued, reason := None, skipped := {}, attempts := 0) else dl
  }

  function Change(s: State, h: Hash, dl: Dl): State {
    s.(downloads := s.downloads[h := dl])
  }

  function Rejoined(w: World, s: State, h: Hash): State
    requires h in s.downloads
  {
    var u := Change(s, h, Woken(s.downloads[h]));
    if u.downloads[h].admitted then u else Admit(w, u, h)
  }

  /** Starting or joining the download of the file that a message from this sender names. */
  function RequestDownload(w: World, s: State, m: Manifest, sender: Option<Peer>): State {
    var t := Joined(w, s, m, sender);
    if s.store.Complete(m.hash) then Change(t, m.hash, AlreadyHeld(t.downloads[m.hash])) else Rejoined(w, t, m.hash)
  }

  function Without(s: State, gone: set<Hash>): State {
    s.(downloads := s.downloads - gone,
       order := WithoutAll(s.order, gone),
       active := if s.active.Some? && s.active.value in gone then None else s.active)
  }

  /** Forgets the admitted downloads whose rows are gone. */
  function DropGone(s: State): State {
    Without(s, GoneAmong(s, s.order))
  }

  function GoneAmong(s: State, listed: seq<Hash>): set<Hash> {
    set h | h in s.downloads && h in listed && s.downloads[h].admitted && h !in s.store.rows
  }

  function WithoutAll(order: seq<Hash>, gone: set<Hash>): (r: seq<Hash>)
    ensures forall h :: h in r <==> h in order && h !in gone
  {
    if order == [] then []
    else
      assert order == [order[0]] + order[1..];
      (if order[0] in gone then [] else [order[0]]) + WithoutAll(order[1..], gone)
  }

  function Prune(s: State, deleted: set<Hash>): State {
    DropGone(s.(store := s.store.DeleteAll(deleted)))
  }

  function Nudged(dl: Dl, peer: Peer): Dl {
    var d := dl.(skipped := dl.skipped - {peer}, refused := dl.refused - {peer}, attempts := 0);
    if d.phase == Unavailable then d.(phase := Queued, reason := None) else d
  }

  /** A peer that may hold these files has been heard from. */
  function PeerAppeared(me: Peer, s: State, peer: Peer, mayHold: set<Hash>): State {
    if peer == me then s
    else s.(downloads := map h | h in s.downloads ::
       var dl := s.downloads[h];
       if h in mayHold && h in s.order && (dl.phase == Unavailable || dl.phase == Queued) then Nudged(dl, peer) else dl)
  }

  /** The parked downloads whose wait is up are queued again. */
  function RetryParked(s: State, due: set<Hash>): State {
    s.(downloads := map h | h in s.downloads ::
       var dl := s.downloads[h];
       if h in due && h in s.order && dl.phase == Unavailable
       then Woken(dl) else dl)
  }
}
