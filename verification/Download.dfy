/** One download: its bookkeeping, and what each answer from a holder does to it
    (trenchchat/core/files.py). */
module Download {
  import opened Prelude
  import opened Chunks
  import opened FileStore

  const MAX_HOLDER_ATTEMPTS: nat := 4
  const WINDOW_GROWTH_STREAK: nat := 2
  const FILE_REQUEST_MAX_CHUNKS: nat := 16

  type Peer = nat
  type FetchId = nat

  datatype Phase = Queued | Fetching | Done | Unavailable | Failed
  datatype Reason = NoRoom | NoHolder | AllRefused | Corrupt

  datatype Dl = Dl(
    manifest: Manifest,
    phase: Phase,
    reason: Option<Reason>,
    holder: Option<Peer>,
    senders: seq<Peer>,
    held: set<nat>,
    chunkList: Option<seq<Bytes>>,
    window: nat,
    wins: nat,
    attempts: nat,
    skipped: set<Peer>,                       // passed over for the rest of this round
    suspect: set<Peer>,                       // for the life of the download
    refused: set<Peer>,
    contributors: set<Peer>,
    admitted: bool,
    fetch: Option<FetchId>,
    wantsList: bool)
  {
    function Hash(): Hash { manifest.hash }

    function Count(): nat { ChunkCount(manifest.size) }

    function GrowWindow(): Dl {
      if wins + 1 >= WINDOW_GROWTH_STREAK
      then this.(wins := 0, window := if window * 2 < FILE_REQUEST_MAX_CHUNKS then window * 2 else FILE_REQUEST_MAX_CHUNKS)
      else this.(wins := wins + 1)
    }

    function ShrinkWindow(): Dl {
      this.(wins := 0, window := if window / 2 > 1 then window / 2 else 1)
    }

    function ResetWindow(): Dl { this.(wins := 0, window := 1) }

    function NextIndex(): Option<nat> { FirstMissing(held, 0, Count()) }

    function Missing(): set<nat> { set i: nat | i < Count() && i !in held }

    function AllIndices(): set<nat> { this.(held := {}).Missing() }

    function Finish(to: Phase, why: Option<Reason>): Dl {
      this.(phase := to, reason := why, holder := None)
    }

    predicate Open() { phase == Queued || phase == Fetching }
  }

  function Fresh(m: Manifest): Dl {
    Dl(m, Queued, None, None, [], {}, None, 1, 0, 0, {}, {}, {}, {}, false, None, false)
  }

  function FirstMissing(held: set<nat>, from: nat, count: nat): (r: Option<nat>)
    ensures r.Some? ==> from <= r.value < count && r.value !in held && forall i | from <= i < r.value :: i in held
    ensures r.None? ==> forall i | from <= i < count :: i in held
    decreases count - from
  {
    if from >= count then None else if from !in held then Some(from) else FirstMissing(held, from + 1, count)
  }

  function With(peers: set<Peer>, peer: Option<Peer>): set<Peer> {
    if peer.Some? then peers + {peer.value} else peers
  }

  /* Whom to ask. */

  /** What is known about the peers that might hold a file: this node, who
      served it last, and the members of its channels, most recently seen first. */
  datatype Around = Around(me: Peer, last: Option<Peer>, members: seq<Peer>)

  function AddPeer(me: Peer, ordered: seq<Peer>, peer: Peer): seq<Peer> {
    if peer == me || peer in ordered then ordered else ordered + [peer]
  }

  function AddPeers(me: Peer, ordered: seq<Peer>, peers: seq<Peer>): (r: seq<Peer>)
    ensures forall p :: p in r <==> p in ordered || (p in peers && p != me)
    decreases |peers|
  {
    if peers == [] then ordered
    else
      assert peers == [peers[0]] + peers[1..];
      AddPeers(me, AddPeer(me, ordered, peers[0]), peers[1..])
  }

  /** Every peer that might hold the file, in the order they are considered. */
  function Candidates(a: Around, senders: seq<Peer>): (r: seq<Peer>)
    ensures forall p :: p in r <==> (Some(p) == a.last || p in senders || p in a.members) && p != a.me
  {
    AddPeers(a.me, AddPeers(a.me, AddPeers(a.me, [], if a.last.Some? then [a.last.value] else []), senders), a.members)
  }

  /** What an answer did: the download and the tables after it, the holder to
      remember, and whether the one in-flight slot was given up. */
  datatype Slot = Kept | GivenUpIfActive | GivenUp

  datatype Turn = Turn(dl: Dl, store: Store, served: bool, slot: Slot)

  /** A holder answered, so the round starts over. */
  function RoundReset(dl: Dl): Dl {
    dl.(attempts := 0, skipped := {}, refused := if dl.holder.Some? then dl.refused - {dl.holder.value} else dl.refused)
  }

  function OnFailedRequest(dl: Dl, refusal: bool): Dl {
    var d := dl.ShrinkWindow();
    d.(skipped := With(d.skipped, dl.holder), refused := if refusal then With(d.refused, dl.holder) else d.refused)
  }

  predicate ListMatches(sha: Sha, dl: Dl, payload: Bytes) {
    |payload| == dl.Count() * CHUNK_HASH_BYTES && ChunkRoot(sha, SplitHashes(payload)) == dl.manifest.root
  }

  function OnChunkList(sha: Sha, dl: Dl, st: Store, payload: Bytes): Turn {
    if ListMatches(sha, dl, payload)
    then Turn(RoundReset(dl.(chunkList := Some(SplitHashes(payload)))), st, true, Kept)
    else Turn(dl.ResetWindow().(suspect := With(dl.suspect, dl.holder)), st, false, Kept)
  }

  /** How far a reply could be taken in: the bytes consumed, the chunks stored, and why it stopped. */
  datatype Stop = Consumed | Short | BadChunk | DiskFull

  datatype Intake = Intake(held: set<nat>, store: Store, stored: nat, used: nat, stop: Stop)

  /** Cuts a reply into the chunks from idx on, checking each against the list before storing it.
      full: the chunks for which the database has no room. */
  function TakeIn(sha: Sha, m: Manifest, list: seq<Bytes>, full: set<nat>,
                  held: set<nat>, st: Store, data: Bytes, offset: nat, idx: nat, stored: nat): Intake
    requires |list| == ChunkCount(m.size) && offset <= |data|
    decreases |list| - idx
  {
    if offset >= |data| || idx >= |list| then Intake(held, st, stored, offset, Consumed)
    else
      ChunkBounds(m.size, idx);
      var length := ChunkSizeAt(m.size, idx);
      if offset + length > |data| then Intake(held, st, stored, offset, Short)
      else
        var chunk := data[offset..offset + length];
        if sha(chunk) != list[idx] then Intake(held, st, stored, offset, BadChunk)
        else if (m.hash, idx) !in st.chunks && idx in full then Intake(held, st, stored, offset, DiskFull)
        else TakeIn(sha, m, list, full, held + {idx}, st.Put(m.hash, idx, chunk), data, offset + length, idx + 1, stored + 1)
  }

  /** The next chunk is there whole, matches its digest, and can be stored. */
  predicate Takes(sha: Sha, m: Manifest, list: seq<Bytes>, full: set<nat>, st: Store, data: Bytes, offset: nat, idx: nat)
    requires |list| == ChunkCount(m.size)
  {
    && offset < |data| && idx < |list|
    && (ChunkBounds(m.size, idx); offset + ChunkSizeAt(m.size, idx) <= |data|)
    && sha(data[offset..offset + ChunkSizeAt(m.size, idx)]) == list[idx]
    && ((m.hash, idx) in st.chunks || idx !in full)
  }

  lemma TakeInStep(sha: Sha, m: Manifest, list: seq<Bytes>, full: set<nat>,
                   held: set<nat>, st: Store, data: Bytes, offset: nat, idx: nat, stored: nat)
    requires |list| == ChunkCount(m.size) && offset <= |data|
    ensures Takes(sha, m, list, full, st, data, offset, idx) ==>
              var next := offset + ChunkSizeAt(m.size, idx);
              && offset < next <= |data| && idx < |list|
              && TakeIn(sha, m, list, full, held, st, data, offset, idx, stored)
                 == TakeIn(sha, m, list, full, held + {idx}, st.Put(m.hash, idx, data[offset..next]), data, next, idx + 1, stored + 1)
    ensures !Takes(sha, m, list, full, st, data, offset, idx) ==>
              var t := TakeIn(sha, m, list, full, held, st, data, offset, idx, stored);
              t.held == held && t.store == st && t.stored == stored
  {
    if idx < |list| {
      ChunkBounds(m.size, idx);
    }
  }

  /** Checks the whole file, then holds it; on a mismatch the chunks are dropped,
      everyone who served one is suspect, and the download starts again. */
  function CompleteFile(sha: Sha, around: Around, dl: Dl, st: Store, served: bool): Turn {
    var h, n := dl.Hash(), dl.Count();
    var now := if served && dl.holder.Some? then around.(last := dl.holder) else around;
    if |st.Range(h, 0, n)| == n && sha(st.Content(h, n)) == h
    then Turn(dl.Finish(Done, None), st.MarkComplete(h), served, GivenUpIfActive)
    else
      var d := dl.ResetWindow().(suspect := dl.suspect + dl.contributors, contributors := {}, held := {},
                                 chunkList := None, admitted := false);
      if ToSet(Candidates(now, dl.senders)) <= d.suspect
      then Turn(d.Finish(Failed, Some(Corrupt)), st.Delete(h), served, GivenUpIfActive)
      else Turn(d.(admitted := true, phase := Queued, reason := None),
                st.Delete(h).Begin(h, dl.manifest.size, false), served, GivenUp)
  }

  predicate ListFits(dl: Dl) {
    dl.chunkList.Some? ==> |dl.chunkList.value| == dl.Count()
  }

  /** What a reply that has been taken in means for the holder, the window and the file. */
  function AfterIntake(sha: Sha, around: Around, dl: Dl, t: Intake): Turn {
    var taken := dl.(held := t.held);
    if t.stop == DiskFull then Turn(taken.Finish(Failed, Some(NoRoom)), t.store, false, GivenUpIfActive)
    else
      var checked := if t.stop == BadChunk then taken.ResetWindow().(suspect := With(dl.suspect, dl.holder)) else taken;
      var isSuspect := dl.holder.Some? && dl.holder.value in checked.suspect;
      if t.stored == 0 then
        Turn(if isSuspect then checked else checked.ShrinkWindow().(skipped := With(checked.skipped, dl.holder)),
             t.store, false, Kept)
      else
        var next := Credited(checked, isSuspect);
        if |next.held| >= next.Count()
        then CompleteFile(sha, around, next, t.store, !isSuspect)
        else Turn(next, t.store, !isSuspect, Kept)
  }

  function Credited(dl: Dl, isSuspect: bool): (d: Dl)
    ensures d.held == dl.held && d.manifest == dl.manifest && d.holder == dl.holder
  {
    var credited := dl.(contributors := With(dl.contributors, dl.holder));
    if isSuspect then credited else RoundReset(credited.GrowWindow())
  }

  function OnChunks(sha: Sha, around: Around, full: set<nat>, dl: Dl, st: Store, data: Bytes): Turn
    requires ListFits(dl)
  {
    var first := dl.NextIndex();
    if first.None? || dl.chunkList.None? then Turn(dl, st, false, Kept)
    else AfterIntake(sha, around, dl,
                     TakeIn(sha, dl.manifest, dl.chunkList.value, full, dl.held, st, data, 0, first.value, 0))
  }

  /** What the transport reports about the outstanding request. */
  datatype Answer = Failure(refusal: bool) | Reply(payload: Bytes)

  function OnAnswer(sha: Sha, around: Around, full: set<nat>, dl: Dl, st: Store, answer: Answer): Turn
    requires ListFits(dl)
  {
    var d := dl.(fetch := None);
    match answer
    case Failure(refusal) => Turn(OnFailedRequest(d, refusal), st, false, Kept)
    case Reply(payload) =>
      if dl.wantsList then OnChunkList(sha, d, st, payload) else OnChunks(sha, around, full, d, st, payload)
  }

  /** The in-flight slot is kept by a download still fetching, given up by one
      that settled, and given up in any case by one that starts again. */
  predicate SlotFits(t: Turn) {
    if t.dl.phase == Fetching then t.slot == Kept
    else if t.dl.phase == Queued then t.slot == GivenUp
    else t.slot == GivenUpIfActive
  }

  /** What an answer never changes about the download it was for. */
  predicate SameDownload(d: Dl, dl: Dl) {
    d.manifest == dl.manifest && d.senders == dl.senders && d.fetch == dl.fetch
  }

  lemma CompletionKeeps(sha: Sha, around: Around, dl: Dl, st: Store, served: bool)
    ensures var u := CompleteFile(sha, around, dl, st, served);
            && SameDownload(u.dl, dl) && SlotFits(u)
            && (u.dl.chunkList == dl.chunkList || u.dl.chunkList.None?)
            && (dl.admitted ==> u.dl.admitted || (u.dl.held == {} && u.dl.phase == Failed))
  {
    hide Candidates, ToSet;
  }

  lemma IntakeKeeps(sha: Sha, around: Around, dl: Dl, t: Intake)
    ensures var u := AfterIntake(sha, around, dl, t);
            && SameDownload(u.dl, dl)
            && (u.dl.chunkList == dl.chunkList || u.dl.chunkList.None?)
            && (dl.phase == Fetching && dl.admitted ==> SlotFits(u) && (u.dl.admitted || (u.dl.held == {} && u.dl.phase == Failed)))
  {
    hide CompleteFile;
    var taken := dl.(held := t.held);
    var checked := if t.stop == BadChunk then taken.ResetWindow().(suspect := With(dl.suspect, dl.holder)) else taken;
    var isSuspect := dl.holder.Some? && dl.holder.value in checked.suspect;
    CompletionKeeps(sha, around, Credited(checked, isSuspect), t.store, !isSuspect);
  }

  lemma ListKeeps(sha: Sha, dl: Dl, st: Store, payload: Bytes)
    requires ListFits(dl)
    ensures var u := OnChunkList(sha, dl, st, payload);
            && SameDownload(u.dl, dl) && ListFits(u.dl) && u.dl.phase == dl.phase && u.dl.admitted == dl.admitted && u.slot == Kept
  {
    SplitLosesNothing(payload);
  }

  lemma AnswerKeeps(sha: Sha, around: Around, full: set<nat>, dl: Dl, st: Store, answer: Answer)
    requires ListFits(dl)
    ensures var u := OnAnswer(sha, around, full, dl, st, answer);
            && SameDownload(u.dl, dl.(fetch := None)) && ListFits(u.dl)
            && (dl.phase == Fetching && dl.admitted ==> SlotFits(u) && (u.dl.admitted || (u.dl.held == {} && u.dl.phase == Failed)))
  {
    hide AfterIntake, OnChunkList, TakeIn;
    var d := dl.(fetch := None);
    if answer.Reply? {
      if dl.wantsList {
        ListKeeps(sha, d, st, answer.payload);
      } else if d.NextIndex().Some? && d.chunkList.Some? {
        IntakeKeeps(sha, around, d, TakeIn(sha, d.manifest, d.chunkList.value, full, d.held, st, answer.payload, 0, d.NextIndex().value, 0));
      }
    }
  }
}
