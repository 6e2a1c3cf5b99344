/** The download manager as the source has it: records updated in place, against
    the state machine of Engine (trenchchat/core/files.py). */
module FileManager {
  import opened Prelude
  import opened Chunks
  import opened FileStore
  import opened Download
  import opened Engine
  import opened EngineRuns
  import opened EngineScheduler

  class Record {
    const manifest: Manifest
    var phase: Phase
    var reason: Option<Reason>
    var holder: Option<Peer>
    var senders: seq<Peer>
    var held: set<nat>
    var chunkList: Option<seq<Bytes>>
    var window: nat
    var wins: nat
    var attempts: nat
    var skipped: set<Peer>
    var suspect: set<Peer>
    var refused: set<Peer>
    var contributors: set<Peer>
    var admitted: bool
    var fetch: Option<FetchId>
    var wantsList: bool

    function View(): (d: Dl)
      reads this
      ensures d.manifest == manifest && d.senders == senders && d.phase == phase && d.reason == reason && d.holder == holder
      ensures d.held == held && d.chunkList == chunkList && d.suspect == suspect
      ensures d.admitted == admitted && d.fetch == fetch && d.wantsList == wantsList
    {
      Dl(manifest, phase, reason, holder, senders, held, chunkList, window, wins, attempts,
         skipped, suspect, refused, contributors, admitted, fetch, wantsList)
    }

    constructor (m: Manifest)
      ensures View() == Fresh(m)
    {
      manifest := m;
      phase, reason, holder, senders, held, chunkList := Queued, None, None, [], {}, None;
      window, wins, attempts := 1, 0, 0;
      skipped, suspect, refused, contributors := {}, {}, {}, {};
      admitted, fetch, wantsList := false, None, false;
    }

    method GrowWindow()
      modifies this`wins, this`window
      ensures View() == old(View()).GrowWindow()
      ensures 1 <= old(window) <= FILE_REQUEST_MAX_CHUNKS ==> old(window) <= window <= FILE_REQUEST_MAX_CHUNKS
      ensures window != old(window) ==> old(wins) >= WINDOW_GROWTH_STREAK - 1 && wins == 0
    {
      wins := wins + 1;
      if wins >= WINDOW_GROWTH_STREAK {
        wins := 0;
        window := if window * 2 < FILE_REQUEST_MAX_CHUNKS then window * 2 else FILE_REQUEST_MAX_CHUNKS;
      }
    }

    method ShrinkWindow()
      modifies this`wins, this`window
      ensures View() == old(View()).ShrinkWindow()
      ensures 1 <= old(window) <= FILE_REQUEST_MAX_CHUNKS ==> 1 <= window <= old(window) <= FILE_REQUEST_MAX_CHUNKS
      ensures old(window) > 1 ==> window < old(window)
    {
      wins := 0;
      window := if window / 2 > 1 then window / 2 else 1;
    }

    method ResetWindow()
      modifies this`wins, this`window
      ensures View() == old(View()).ResetWindow()
    {
      wins, window := 0, 1;
    }

    /** The first chunk not held. */
    method FindNextIndex() returns (idx: Option<nat>)
      ensures idx == View().NextIndex()
    {
      var count := ChunkCount(manifest.size);
      for i := 0 to count
        invariant FirstMissing(held, i, count) == FirstMissing(held, 0, count)
      {
        if i !in held {
          return Some(i);
        }
      }
      return None;
    }

    /** What to ask a holder for next. */
    method NextRequest(id: FetchId, peer: Peer) returns (request: Request)
      ensures request == RequestFor(View(), id, peer)
    {
      if chunkList.None? {
        return WantList(id, peer, manifest.hash);
      }
      var first := FindNextIndex();
      if first.None? {
        return WantNothing(id, peer, manifest.hash);
      }
      var count := 1;
      while count < window && first.value + count < ChunkCount(manifest.size) && first.value + count !in held
        invariant 1 <= count && RunLength(View(), first.value, count) == RunLength(View(), first.value, 1)
      {
        count := count + 1;
      }
      return WantChunks(id, peer, manifest.hash, first.value, count);
    }

    method Finish(to: Phase, why: Option<Reason>)
      modifies this`phase, this`reason, this`holder
      ensures View() == old(View()).Finish(to, why)
    {
      phase, reason, holder := to, why, None;
    }

    method TakeRoom(indices: set<nat>)
      modifies this`admitted, this`held, this`reason
      ensures View() == old(View()).(admitted := true, held := indices, reason := if old(View()).reason == Some(NoRoom) then None else old(View()).reason)
    {
      admitted, held := true, indices;
      if reason == Some(NoRoom) {
        reason := None;
      }
    }

    method WaitForRoom()
      modifies this`phase, this`reason
      ensures View() == old(View()).(phase := Queued, reason := Some(NoRoom))
    {
      if phase != Queued || reason != Some(NoRoom) {
        phase, reason := Queued, Some(NoRoom);
      }
    }

    method Aim(id: FetchId, peer: Peer)
      modifies this`fetch, this`holder, this`attempts, this`wantsList
      ensures View() == old(View()).(fetch := Some(id), holder := Some(peer), attempts := old(View()).attempts + 1,
                                     wantsList := old(View()).chunkList.None?)
    {
      fetch, holder := Some(id), Some(peer);
      attempts := attempts + 1;
      wantsList := chunkList.None?;
    }

    method EnterPhase(to: Phase)
      modifies this`phase, this`reason
      ensures View() == old(View()).(phase := to, reason := None)
    {
      phase, reason := to, None;
    }

    method Ask(id: FetchId, peer: Peer)
      modifies this`fetch, this`holder, this`attempts, this`wantsList, this`phase, this`reason
      ensures View() == Asking(old(View()), id, peer)
    {
      hide View;
      Aim(id, peer);
      if phase != Fetching {
        EnterPhase(Fetching);
      }
    }

    /** A new round, with nobody passed over. */
    method StartRound()
      modifies this`skipped, this`attempts
      ensures View() == old(View()).(skipped := {}, attempts := 0)
    {
      skipped, attempts := {}, 0;
    }

    method Wake()
      modifies this`phase, this`reason, this`skipped, this`attempts
      ensures View() == Woken(old(View()))
    {
      hide View;
      if phase == Unavailable || phase == Failed {
        EnterPhase(Queued);
        StartRound();
      }
    }

    method Reconsider(peer: Peer)
      modifies this`skipped, this`refused, this`attempts
      ensures View() == old(View()).(skipped := old(View()).skipped - {peer}, refused := old(View()).refused - {peer}, attempts := 0)
    {
      skipped, refused, attempts := skipped - {peer}, refused - {peer}, 0;
    }

    method Nudge(peer: Peer)
      modifies this`phase, this`reason, this`skipped, this`refused, this`attempts
      ensures View() == Nudged(old(View()), peer)
    {
      hide View;
      Reconsider(peer);
      if phase == Unavailable {
        EnterPhase(Queued);
      }
    }

    method HoldAll()
      modifies this`held, this`phase, this`reason
      ensures View() == AlreadyHeld(old(View()))
    {
      held := View().AllIndices();
      if phase != Done {
        EnterPhase(Done);
      }
    }

    /** What a previous run left: parked, with the chunks that are stored. */
    method Resume(from: seq<Peer>, indices: set<nat>)
      modifies this`senders, this`held, this`admitted, this`phase, this`reason
      ensures View() == old(View()).(senders := from, held := indices, admitted := true, phase := Unavailable, reason := Some(NoHolder))
    {
      senders, held := from, indices;
      admitted, phase, reason := true, Unavailable, Some(NoHolder);
    }

    method NoteSender(peer: Peer)
      modifies this`senders
      ensures View() == old(View()).(senders := old(View()).senders + [peer])
    {
      senders := senders + [peer];
    }

    /** One request failed, the download did not: its holder alone is passed
        over for the rest of the round, and known to refuse if it did. */
    method FailRequest(refusal: bool)
      modifies this`wins, this`window, this`skipped, this`refused
      ensures View() == OnFailedRequest(old(View()), refusal)
      ensures 1 <= old(window) <= FILE_REQUEST_MAX_CHUNKS ==> 1 <= window <= old(window)
      ensures forall p: Peer :: Eligible(View(), p) <==> Eligible(old(View()), p) && Some(p) != holder
      ensures forall p: Peer :: p in refused <==> p in old(refused) || (refusal && Some(p) == holder)
    {
      ShrinkWindow();
      if holder.Some? {
        skipped := skipped + {holder.value};
        if refusal {
          refused := refused + {holder.value};
        }
      }
    }

    /** The holder served bad bytes: it is never asked again. */
    method Distrust()
      modifies this`wins, this`window, this`suspect
      ensures View() == old(View()).ResetWindow().(suspect := With(old(View()).suspect, old(View()).holder))
    {
      if holder.Some? {
        suspect := suspect + {holder.value};
      }
      ResetWindow();
    }

    method TakeList(hashes: seq<Bytes>)
      modifies this`chunkList
      ensures View() == old(View()).(chunkList := Some(hashes))
    {
      chunkList := Some(hashes);
    }

    method Forget()
      modifies this`fetch
      ensures View() == old(View()).(fetch := None)
    {
      fetch := None;
    }

    method Hold(idx: nat)
      modifies this`held
      ensures View() == old(View()).(held := old(View()).held + {idx})
    {
      held := held + {idx};
    }

    /** Nothing usable came: the holder is passed over for the rest of the round. */
    method Skip()
      modifies this`wins, this`window, this`skipped
      ensures View() == old(View()).ShrinkWindow().(skipped := With(old(View()).skipped, old(View()).holder))
    {
      if holder.Some? {
        skipped := skipped + {holder.value};
      }
      ShrinkWindow();
    }

    method Credit()
      modifies this`contributors
      ensures View() == old(View()).(contributors := With(old(View()).contributors, old(View()).holder))
    {
      if holder.Some? {
        contributors := contributors + {holder.value};
      }
    }

    method BlameContributors()
      modifies this`suspect, this`contributors
      ensures View() == old(View()).(suspect := old(View()).suspect + old(View()).contributors, contributors := {})
    {
      suspect := suspect + contributors;
      contributors := {};
    }

    method Drop()
      modifies this`held, this`chunkList, this`admitted
      ensures View() == old(View()).(held := {}, chunkList := None, admitted := false)
    {
      held, chunkList, admitted := {}, None, false;
    }

    /** The whole file did not match: what was held is dropped and its servers are suspect. */
    method Discard()
      modifies this`wins, this`window, this`suspect, this`contributors, this`held, this`chunkList, this`admitted
      ensures View() == old(View()).ResetWindow().(suspect := old(View()).suspect + old(View()).contributors, contributors := {},
                                                   held := {}, chunkList := None, admitted := false)
    {
      hide View;
      BlameContributors();
      Drop();
      ResetWindow();
    }

    method Requeue()
      modifies this`admitted, this`phase, this`reason
      ensures View() == old(View()).(admitted := true, phase := Queued, reason := None)
    {
      admitted, phase, reason := true, Queued, None;
    }

    /** A holder answered, so the round starts over: everyone but the suspects
        may be asked again, and this holder no longer counts as one that refuses. */
    method ResetRound()
      modifies this`attempts, this`skipped, this`refused
      ensures View() == RoundReset(old(View()))
      ensures attempts < MAX_HOLDER_ATTEMPTS && forall p: Peer :: Eligible(View(), p) <==> p !in suspect
      ensures forall p: Peer :: p in refused <==> p in old(refused) && Some(p) != holder
    {
      attempts, skipped := 0, {};
      if holder.Some? {
        refused := refused - {holder.value};
      }
    }
  }

  /** Other files may have been deleted, whole; those not evicted are untouched,
      and so is what is stored of this one. */
  ghost predicate RoomMade(a: Admission, h: Hash, before: Store, after: Store) {
    && OnlyLoses(before, after)
    && after.Indices(h) == before.Indices(h) && (a.room ==> h in after.rows)
    && (forall g | g in before.rows && g != h :: g in after.rows <==> g !in a.evicted)
    && (forall k | k in before.chunks :: k in after.chunks <==> k.0 == h || k.0 !in a.evicted)
  }

  lemma RoomIsMade(a: Admission, h: Hash, st: Store, size: nat)
    ensures var cleared := st.DeleteAll(a.evicted - {h});
            RoomMade(a, h, st, if a.room then cleared.Begin(h, size, false) else cleared)
  {
  }

  /** What admission means for the download it is for. */
  predicate RoomTaken(a: Admission, dl: Dl, d: Dl, indices: set<nat>) {
    if a.room then d.admitted && d.held == indices && d.phase == dl.phase
    else d.phase == Queued && d.admitted == dl.admitted && d.held == dl.held
  }

  lemma AdmissionMeans(w: World, s: State, h: Hash)
    requires h in s.downloads
    ensures var t := Engine.Admit(w, s, h);
            && RoomMade(w.Admits(h), h, s.store, t.store) && RoomTaken(w.Admits(h), s.downloads[h], t.downloads[h], t.store.Indices(h))
            && (Ready(s) && s.active != Some(h) && !s.downloads[h].admitted && s.downloads[h].phase == Queued ==> Ready(t))
  {
    hide Ready, RoomMade, Store.DeleteAll, Store.Begin, Store.Indices, World.Admits;
    RoomIsMade(w.Admits(h), h, s.store, s.downloads[h].manifest.size);
    if Ready(s) && s.active != Some(h) && !s.downloads[h].admitted && s.downloads[h].phase == Queued {
      AdmitIsReady(w, s, h);
    }
  }

  class Manager {
    const sha: Sha
    var downloads: map<Hash, Record>
    var order: seq<Hash>
    var active: Option<Hash>
    var byFetch: map<FetchId, Hash>
    var lastHolder: map<Hash, Peer>
    var store: Store

    /** Each record is filed under the hash it is for, so no two entries share one. */
    ghost predicate Valid()
      reads this`downloads, this`order
    {
      && (forall h | h in downloads :: downloads[h].manifest.hash == h)
      && NoDuplicates(order)
      && (forall h | h in order :: h in downloads)
    }

    function View(): (s: State)
      reads this, downloads.Values
      ensures s.downloads.Keys == downloads.Keys
      ensures forall h | h in downloads :: s.downloads[h] == downloads[h].View()
      ensures s == State(s.downloads, order, active, byFetch, lastHolder, store)
    {
      State(map h | h in downloads :: downloads[h].View(), order, active, byFetch, lastHolder, store)
    }

    /** A manager takes up the listed files that a stored message names, and starts in order unless one of them lacks nothing. */
    constructor (sha: Sha, st: Store, listed: seq<Hash>, told: map<Hash, Told>)
      requires NoDuplicates(listed) && Telling(told)
      ensures View() == Restored(st, listed, told) && Valid() && this.sha == sha
      ensures Orderly(View()) <==> forall h | h in listed && h in told :: !HasAll(st, h, 0, ChunkCount(told[h].manifest.size))
    {
      this.sha := sha;
      downloads, order, active := map[], [], None;
      byFetch, lastHolder, store := map[], map[], st;
      new;
      hide View, Record.View, Orderly, HasAll, Resumed, Restored, Valid;
      NothingRestored(st, told);
      for i := 0 to |listed|
        invariant Valid() && View() == Restored(st, listed[..i], told)
      {
        var h := listed[i];
        assert h !in listed[..i] && listed[..i + 1] == listed[..i] + [h];
        RestoredGrows(st, listed[..i], h, told);
        if h in told {
          TakeUp(told[h]);
        }
      }
      assert listed[..|listed|] == listed;
      RestoredIsOrderly(st, listed, told);
    }

    /** Nothing is tracked yet. */
    lemma NothingRestored(st: Store, told: map<Hash, Told>)
      requires downloads == map[] && order == [] && active.None? && byFetch == map[] && lastHolder == map[] && store == st
      ensures Valid() && View() == Restored(st, [], told)
    {
      assert View().downloads == map[];
    }

    lemma ResumedIs(t: Told, indices: set<nat>)
      requires indices == store.Indices(t.manifest.hash)
      ensures Resumed(t, store) == Fresh(t.manifest).(senders := t.senders, held := indices, admitted := true, phase := Unavailable, reason := Some(NoHolder))
    {
    }

    method TakeUp(t: Told)
      requires Valid() && t.manifest.hash !in downloads
      modifies this`downloads, this`order
      ensures Valid() && View() == old(View()).(downloads := old(View()).downloads[t.manifest.hash := Resumed(t, old(View()).store)],
                                                order := old(View()).order + [t.manifest.hash])
    {
      hide View, Record.View, Store.Indices, Valid, Resumed;
      ResumedIs(t, store.Indices(t.manifest.hash));
      var dl := new Record(t.manifest);
      dl.Resume(t.senders, store.Indices(t.manifest.hash));
      Adopt(dl);
    }

    /** Every peer that might hold the file, each once, in the order they are considered. */
    method ListCandidates(a: Around, senders: seq<Peer>) returns (ordered: seq<Peer>)
      ensures ordered == Candidates(a, senders)
    {
      ordered := [];
      if a.last.Some? {
        ordered := AddEach(a.me, ordered, [a.last.value]);
      }
      ordered := AddEach(a.me, ordered, senders);
      ordered := AddEach(a.me, ordered, a.members);
    }

    /** One pass over the candidates, stopping early at the best tier. */
    method FindHolder(w: World, dl: Record, peers: seq<Peer>) returns (holder: Option<Peer>)
      ensures holder == NextHolder(w, dl.View(), peers)
    {
      if dl.attempts >= MAX_HOLDER_ATTEMPTS {
        return None;
      }
      var d := dl.View();
      var tiers: seq<Option<Peer>> := [None, None, None, None];
      for i := 0 to |peers|
        invariant |tiers| == 4 && tiers[0].None?
        invariant forall k | 0 <= k < 4 ::
                    FirstInTier(w, d, peers, k) == if tiers[k].Some? then tiers[k] else FirstInTier(w, d, peers[i..], k)
      {
        var p := peers[i];
        assert peers[i..][1..] == peers[i + 1..];
        if Eligible(d, p) {
          var tier := w.Tier(p);
          if tiers[tier].None? {
            tiers := tiers[tier := Some(p)];
            if tier == 0 {
              return Some(p);
            }
          }
        }
      }
      assert peers[|peers|..] == [];
      assert forall k | 0 <= k < 4 :: FirstInTier(w, d, peers, k) == tiers[k];
      for k := 0 to 4
        invariant forall j | 0 <= j < k :: tiers[j].None?
      {
        if tiers[k].Some? {
          return tiers[k];
        }
      }
      return None;
    }

    function At(h: Hash): Dl
      requires h in downloads
      reads this, downloads.Values
    {
      downloads[h].View()
    }

    function Near(w: World, h: Hash): Around
      reads this
    {
      Around(w.me, if h in lastHolder then Some(lastHolder[h]) else None, w.Members(h))
    }

    twostate lemma OneChanged(h: Hash)
      requires Valid() && h in downloads && downloads == old(downloads)
      requires forall g | g in downloads && g != h :: unchanged(downloads[g])
      ensures View() == State(old(View()).downloads[h := downloads[h].View()], order, active, byFetch, lastHolder, store)
    {
    }

    /** Gives the one in-flight slot to a download, or frees it. */
    method Occupy(slot: Option<Hash>)
      modifies this`active
      ensures View() == old(View()).(active := slot) && active == slot
    {
      active := slot;
    }

    method AskForRoom(w: World, h: Hash)
      requires Valid() && h in downloads
      modifies this`store, downloads[h]
      ensures View() == Engine.Admit(w, old(View()), h)
    {
      hide Store.DeleteAll, Store.Begin, Store.Indices, World.Admits, View, Record.View, NoDuplicates;
      var dl, a := downloads[h], w.Admits(h);
      store := store.DeleteAll(a.evicted - {h});
      if a.room {
        store := store.Begin(h, dl.manifest.size, false);
        dl.TakeRoom(store.Indices(h));
      } else {
        dl.WaitForRoom();
      }
      OneChanged(h);
    }

    /** Makes room for a download, or leaves it queued. */
    method Admit(w: World, h: Hash)
      requires Valid() && h in downloads
      modifies this`store, downloads[h]
      ensures View() == Engine.Admit(w, old(View()), h)
      ensures RoomMade(w.Admits(h), h, old(store), store)
      ensures RoomTaken(w.Admits(h), old(At(h)), At(h), store.Indices(h))
      ensures Ready(old(View())) && active != Some(h) && !old(At(h)).admitted && old(At(h)).phase == Queued ==> Ready(View())
    {
      hide Ready, RoomMade, RoomTaken, Engine.Admit, Record.View, NoDuplicates, Store.Indices, World.Admits;
      AdmissionMeans(w, View(), h);
      AskForRoom(w, h);
    }

    /** The first of these downloads is activated if it is queued and has room. */
    method TryToActivate(w: World, candidates: seq<Hash>) returns (chosen: bool)
      requires Valid() && candidates != [] && candidates[0] in downloads
      modifies this`store, this`active, downloads[candidates[0]]
      ensures chosen ==> View() == Engine.ActivateNext(w, old(View()), candidates)
      ensures !chosen ==> Engine.ActivateNext(w, View(), candidates[1..]) == Engine.ActivateNext(w, old(View()), candidates)
      ensures !chosen ==> active == old(active)
    {
      hide Engine.Admit, Engine.ActivateNext, View, Record.View, NoDuplicates;
      var h := candidates[0];
      ActivationStep(w, View(), candidates);
      if downloads[h].phase != Queued {
        return false;
      }
      if !downloads[h].admitted {
        Admit(w, h);
      }
      if downloads[h].admitted {
        Occupy(Some(h));
        return true;
      }
      return false;
    }

    lemma ListedAreFiled()
      requires Valid()
      ensures forall h | h in order :: h in downloads
    {
    }

    /** The next queued download that has room becomes the active one. */
    method ActivateNext(w: World)
      requires Valid()
      modifies this`store, this`active, downloads.Values
      ensures View() == Engine.ActivateNext(w, old(View()), order)
    {
      hide Engine.Admit, Engine.ActivateNext, View, Record.View, NoDuplicates, Valid;
      ListedAreFiled();
      ActivationForgetsActive(w, View(), order);
      ghost var outcome := Engine.ActivateNext(w, View(), order);
      Occupy(None);
      assert order[0..] == order;
      for i := 0 to |order|
        invariant active.None?
        invariant Engine.ActivateNext(w, View(), order[i..]) == outcome
      {
        assert order[i..][0] == order[i] && order[i..][1..] == order[i + 1..];
        var chosen := TryToActivate(w, order[i..]);
        if chosen {
          return;
        }
      }
      assert order[|order|..] == [];
      ActivationEnds(w, View());
    }

    /** Whether every known holder has said no. */
    method HaveAllRefused(w: World, h: Hash) returns (all: bool)
      requires Valid() && h in downloads
      ensures all == AllSaidNo(At(h), Candidates(Near(w, h), At(h).senders))
    {
      var dl := downloads[h];
      var peers := ListCandidates(Near(w, h), dl.senders);
      if peers == [] || dl.refused == {} {
        return false;
      }
      for i := 0 to |peers|
        invariant forall p | p in peers[..i] :: p in dl.refused || p in dl.suspect
      {
        if peers[i] !in dl.refused && peers[i] !in dl.suspect {
          return false;
        }
      }
      assert peers[..|peers|] == peers;
      return true;
    }

    /** Parks a download nobody reachable can answer. */
    method Stall(w: World, h: Hash)
      requires Valid() && h in downloads
      modifies this`active, downloads[h]
      ensures View() == Engine.Stall(w, old(View()), h)
    {
      var dl := downloads[h];
      var no := HaveAllRefused(w, h);
      assert no == AllSaidNo(dl.View().(holder := None), Candidates(Near(w, h), dl.View().senders));
      hide Candidates, AllSaidNo, View, Record.View, NoDuplicates;
      if no {
        dl.Finish(Failed, Some(AllRefused));
      } else {
        dl.Finish(Unavailable, Some(NoHolder));
      }
      active := None;
      OneChanged(h);
    }

    /** Asks one holder for the chunk list, or for the run of missing chunks the window allows. */
    method Issue(w: World, h: Hash, holder: Peer) returns (request: Request)
      requires Valid() && h in downloads
      modifies this`byFetch, downloads[h]
      ensures View() == IssueTo(w, old(View()), h, holder)
      ensures request == RequestFor(old(View()).downloads[h], w.nextFetch, holder)
    {
      var dl := downloads[h];
      request := dl.NextRequest(w.nextFetch, holder);
      hide View, Record.View, NoDuplicates;
      dl.Ask(w.nextFetch, holder);
      byFetch := byFetch[w.nextFetch := h];
      OneChanged(h);
    }

    /** The holder to ask next for a download, or none this round. */
    method ChooseHolder(w: World, h: Hash) returns (holder: Option<Peer>)
      requires Valid() && h in downloads
      ensures var dl := View().downloads[h];
              holder == NextHolder(w, dl, Candidates(AroundOf(w, View(), h), dl.senders))
    {
      hide NextHolder, Candidates, View, Record.View, NoDuplicates;
      var peers := ListCandidates(Near(w, h), downloads[h].senders);
      holder := FindHolder(w, downloads[h], peers);
    }

    /** The download holding the in-flight slot, once the next one has been given it if it was free. */
    method CurrentDownload(w: World) returns (current: Option<Hash>)
      requires Valid()
      modifies this`store, this`active, downloads.Values
      ensures View() == if HasActive(old(View())) then old(View()) else Engine.ActivateNext(w, old(View()), order)
      ensures HasActive(View()) <==> current.Some?
      ensures current.Some? ==> current == active && current.value in downloads
    {
      hide Engine.ActivateNext, View, Record.View, NoDuplicates;
      if active.None? || active.value !in downloads {
        ActivateNext(w);
      }
      return if active.Some? && active.value in downloads then active else None;
    }

    /** A request to the next holder, or the download parked. */
    method AskOrPark(w: World, h: Hash) returns (request: Option<Request>)
      requires Valid() && h in downloads
      modifies this`active, this`byFetch, downloads[h]
      ensures var t := old(View());
              var holder := NextHolder(w, t.downloads[h], Candidates(AroundOf(w, t, h), t.downloads[h].senders));
              if holder.Some?
              then View() == IssueTo(w, t, h, holder.value) && request == Some(RequestFor(t.downloads[h], w.nextFetch, holder.value))
              else View() == Engine.Stall(w, t, h) && request.None?
    {
      hide Engine.Stall, IssueTo, RequestFor, NextHolder, Candidates, View, Record.View, AroundOf, Valid;
      var holder := ChooseHolder(w, h);
      if holder.Some? {
        var issued := Issue(w, h, holder.value);
        return Some(issued);
      }
      Stall(w, h);
      return None;
    }

    /** One round of Prepare: a request or nothing to ask, or one more download parked. */
    method PrepareOnce(w: World) returns (settled: bool, request: Option<Request>)
      requires Valid()
      modifies this`store, this`active, this`byFetch, downloads.Values
      ensures settled ==> Prepared(View(), request) == Engine.Prepare(w, old(View()))
      ensures !settled ==> Engine.Prepare(w, View()) == Engine.Prepare(w, old(View())) && Shrunk(old(View()), View())
    {
      hide Engine.Prepare, Engine.ActivateNext, Engine.Stall, IssueTo, RequestFor, NextHolder, Candidates,
        OpenDownloads, View, Record.View, NoDuplicates, AroundOf, HasActive, Valid, Shrunk;
      ghost var s := View();
      PrepareStep(w, s);
      var current := CurrentDownload(w);
      if current.None? || downloads[current.value].fetch.Some? {
        return true, None;
      }
      PrepareShrinks(w, s, View());
      request := AskOrPark(w, current.value);
      settled := request.Some?;
    }

    /** The one request to issue now, or none. */
    method Prepare(w: World) returns (request: Option<Request>)
      requires Valid()
      modifies this`store, this`active, this`byFetch, downloads.Values
      ensures Prepared(View(), request) == Engine.Prepare(w, old(View()))
      ensures Orderly(old(View())) ==> Orderly(View())
      ensures Orderly(old(View())) && request.Some? ==>
                request.value.h in downloads && AsksForMissing(At(request.value.h), request.value)
    {
      hide Engine.Prepare, OpenDownloads, HasActive, View, Orderly, AsksForMissing;
      ghost var outcome := Engine.Prepare(w, View());
      if Orderly(View()) {
        OrderlyIsReady(View());
        PrepareIsOrderly(w, View());
      }
      var settled := false;
      request := None;
      while !settled
        invariant settled ==> Prepared(View(), request) == outcome
        invariant !settled ==> Engine.Prepare(w, View()) == outcome
        decreases !settled, |OpenDownloads(View())|, if HasActive(View()) then 1 else 0
      {
        settled, request := PrepareOnce(w);
      }
    }

    /* The transport answers. The steps below touch one record, the store, the
       slot and the memory of who served last; OnResult says what that makes of the whole. */

    /** Settles a download and frees the in-flight slot if it held it. */
    method Finish(h: Hash, to: Phase, why: Option<Reason>)
      requires Valid() && h in downloads
      modifies this`active, downloads[h]
      ensures At(h) == old(At(h)).Finish(to, why) && active == SlotAfter(old(active), h, GivenUpIfActive)
    {
      hide Record.View;
      downloads[h].Finish(to, why);
      if active == Some(h) {
        active := None;
      }
    }

    method ResetRound(h: Hash)
      requires Valid() && h in downloads
      modifies this`lastHolder, downloads[h]
      ensures At(h) == RoundReset(old(At(h)))
      ensures lastHolder == Remembered(old(lastHolder), h, true, old(At(h)).holder)
    {
      hide Record.View;
      downloads[h].ResetRound();
      if downloads[h].holder.Some? {
        lastHolder := lastHolder[h := downloads[h].holder.value];
      }
    }

    /** Checks a chunk list against the signed root. */
    method OnChunkList(h: Hash, payload: Bytes)
      requires Valid() && h in downloads
      modifies this`lastHolder, downloads[h]
      ensures var t := Download.OnChunkList(sha, old(At(h)), store, payload);
              At(h) == t.dl && lastHolder == Remembered(old(lastHolder), h, t.served, old(At(h)).holder)
      ensures At(h).held == old(At(h)).held && At(h).phase == old(At(h)).phase && (old(ListFits(At(h))) ==> ListFits(At(h)))
      ensures ListMatches(sha, old(At(h)), payload) ==>
                At(h).chunkList.Some? && Prelude.Join(At(h).chunkList.value) == payload && At(h).suspect == old(At(h)).suspect
      ensures !ListMatches(sha, old(At(h)), payload) ==>
                At(h).chunkList == old(At(h)).chunkList && At(h).suspect == With(old(At(h)).suspect, old(At(h)).holder)
    {
      SplitLosesNothing(payload);
      hide Record.View, SplitHashes, ChunkRoot;
      var dl := downloads[h];
      var hashes := SplitHashes(payload);
      if |payload| != ChunkCount(dl.manifest.size) * CHUNK_HASH_BYTES || ChunkRoot(sha, hashes) != dl.manifest.root {
        dl.Distrust();
      } else {
        dl.TakeList(hashes);
        ResetRound(h);
      }
    }

    /** Cuts a reply into chunks, storing each that matches the list, until one does not. */
    method StoreChunks(full: set<nat>, h: Hash, first: nat, data: Bytes) returns (stored: nat, stop: Stop)
      requires Valid() && h in downloads && ListFits(At(h)) && At(h).chunkList.Some?
      modifies this`store, downloads[h]
      ensures var dl := old(At(h));
              var t := TakeIn(sha, dl.manifest, dl.chunkList.value, full, dl.held, old(store), data, 0, first, 0);
              At(h) == dl.(held := t.held) && store == t.store && stored == t.stored && stop == t.stop
    {
      hide Record.View, Store.Put, ChunkSizeAt;
      var dl := downloads[h];
      ghost var was := dl.View();
      var list := dl.chunkList.value;
      ghost var t := TakeIn(sha, dl.manifest, list, full, dl.held, store, data, 0, first, 0);
      var offset: nat, idx: nat := 0, first;
      stored, stop := 0, Consumed;
      while offset < |data| && idx < ChunkCount(dl.manifest.size)
        invariant offset <= |data| && stop == Consumed
        invariant dl.View() == was.(held := dl.held)
        invariant TakeIn(sha, dl.manifest, list, full, dl.held, store, data, offset, idx, stored) == t
      {
        ChunkBounds(dl.manifest.size, idx);
        var length := ChunkSizeAt(dl.manifest.size, idx);
        if offset + length > |data| {
          stop := Short;
          break;
        }
        var chunk := data[offset..offset + length];
        if sha(chunk) != list[idx] {
          stop := BadChunk;
          break;
        }
        if (h, idx) !in store.chunks && idx in full {
          stop := DiskFull;
          break;
        }
        store := store.Put(h, idx, chunk);
        dl.Hold(idx);
        stored, offset, idx := stored + 1, offset + length, idx + 1;
      }
    }

    /** Whether some candidate has not been caught serving bad bytes. */
    method AnyoneLeft(w: World, h: Hash) returns (left: bool)
      requires Valid() && h in downloads
      ensures left <==> !(ToSet(Candidates(Near(w, h), At(h).senders)) <= At(h).suspect)
    {
      var peers := ListCandidates(Near(w, h), downloads[h].senders);
      for i := 0 to |peers|
        invariant forall p | p in peers[..i] :: p in downloads[h].suspect
      {
        if peers[i] !in downloads[h].suspect {
          assert peers[i] in ToSet(peers);
          return true;
        }
      }
      assert peers[..|peers|] == peers;
      return false;
    }

    /** Checks the whole file, then holds it; on a mismatch drops it and starts again while anyone is left to ask. */
    method Complete(w: World, h: Hash)
      requires Valid() && h in downloads
      modifies this`store, this`active, downloads[h]
      ensures var t := CompleteFile(sha, old(Near(w, h)), old(At(h)), old(store), false);
              At(h) == t.dl && store == t.store && active == SlotAfter(old(active), h, t.slot)
    {
      hide Record.View, NoDuplicates, Candidates, ToSet, Store.Range, Store.Content, Store.MarkComplete, Store.Delete, Store.Begin;
      var dl := downloads[h];
      var n := ChunkCount(dl.manifest.size);
      if |store.Range(h, 0, n)| == n && sha(store.Content(h, n)) == h {
        store := store.MarkComplete(h);
        Finish(h, Done, None);
        return;
      }
      store := store.Delete(h);
      dl.Discard();
      var left := AnyoneLeft(w, h);
      if !left {
        Finish(h, Failed, Some(Corrupt));
        return;
      }
      store := store.Begin(h, dl.manifest.size, false);
      dl.Requeue();
      active := None;
    }

    /** The holder served chunks that will count against it if the whole file does not match. */
    method CreditHolder(h: Hash, isSuspect: bool)
      requires Valid() && h in downloads
      modifies this`lastHolder, downloads[h]
      ensures At(h) == Credited(old(At(h)), isSuspect)
      ensures lastHolder == Remembered(old(lastHolder), h, !isSuspect, old(At(h)).holder)
    {
      hide Record.View, NoDuplicates;
      var dl := downloads[h];
      dl.Credit();
      if !isSuspect {
        dl.GrowWindow();
        ResetRound(h);
      }
    }

    /** Chunks were stored: the holder is credited, and the file checked once none is missing. */
    method CreditOrComplete(w: World, h: Hash, isSuspect: bool)
      requires Valid() && h in downloads
      modifies this`store, this`active, this`lastHolder, downloads[h]
      ensures var next := Credited(old(At(h)), isSuspect);
              var t := if |next.held| >= next.Count() then CompleteFile(sha, old(Near(w, h)), next, old(store), !isSuspect)
                       else Turn(next, old(store), !isSuspect, Kept);
              && At(h) == t.dl && store == t.store && active == SlotAfter(old(active), h, t.slot)
              && lastHolder == Remembered(old(lastHolder), h, t.served, old(At(h)).holder)
    {
      hide Record.View, NoDuplicates, Valid, CompleteFile, Credited;
      CreditHolder(h, isSuspect);
      if |downloads[h].held| >= ChunkCount(downloads[h].manifest.size) {
        CompletionRemembers(sha, old(Near(w, h)), downloads[h].View(), store, !isSuspect);
        Complete(w, h);
      }
    }

    /** What a reply that has been taken in means for the holder, the window and the file. */
    method Reckon(w: World, h: Hash, stored: nat, stop: Stop)
      requires Valid() && h in downloads
      modifies this`store, this`active, this`lastHolder, downloads[h]
      ensures var t := AfterIntake(sha, old(Near(w, h)), old(At(h)), Intake(old(At(h)).held, old(store), stored, 0, stop));
              && At(h) == t.dl && store == t.store && active == SlotAfter(old(active), h, t.slot)
              && lastHolder == Remembered(old(lastHolder), h, t.served, old(At(h)).holder)
    {
      hide Record.View, NoDuplicates, Valid, CompleteFile, Credited, Dl.ResetWindow, Dl.ShrinkWindow, Dl.Finish;
      var dl := downloads[h];
      if stop == DiskFull {
        Finish(h, Failed, Some(NoRoom));
        return;
      }
      if stop == BadChunk {
        dl.Distrust();
      }
      var isSuspect := dl.holder.Some? && dl.holder.value in dl.suspect;
      if stored == 0 {
        if !isSuspect {
          dl.Skip();
        }
        return;
      }
      CreditOrComplete(w, h, isSuspect);
    }

    /** Verifies and stores what a holder just served. */
    method OnChunks(w: World, full: set<nat>, h: Hash, data: Bytes)
      requires Valid() && h in downloads && ListFits(At(h))
      modifies this`store, this`active, this`lastHolder, downloads[h]
      ensures var t := Download.OnChunks(sha, old(Near(w, h)), full, old(At(h)), old(store), data);
              && At(h) == t.dl && store == t.store && active == SlotAfter(old(active), h, t.slot)
              && lastHolder == Remembered(old(lastHolder), h, t.served, old(At(h)).holder)
    {
      hide Record.View, NoDuplicates, TakeIn, AfterIntake;
      var dl := downloads[h];
      var first := dl.FindNextIndex();
      if first.Some? && dl.chunkList.Some? {
        ghost var was, st := dl.View(), store;
        var stored, stop := StoreChunks(full, h, first.value, data);
        ReckoningIgnores(sha, Near(w, h), was, TakeIn(sha, was.manifest, was.chunkList.value, full, was.held, st, data, 0, first.value, 0));
        Reckon(w, h, stored, stop);
      }
    }

    /** What one answer does to the download it was for. */
    method Handle(w: World, full: set<nat>, h: Hash, answer: Answer)
      requires Valid() && h in downloads && ListFits(At(h))
      modifies this`store, this`active, this`lastHolder, downloads[h]
      ensures var t := OnAnswer(sha, old(Near(w, h)), full, old(At(h)), old(store), answer);
              && At(h) == t.dl && store == t.store && active == SlotAfter(old(active), h, t.slot)
              && lastHolder == Remembered(old(lastHolder), h, t.served, old(At(h)).holder)
    {
      hide Record.View, NoDuplicates, Download.OnChunks, Download.OnChunkList, Download.OnFailedRequest;
      var dl := downloads[h];
      dl.Forget();
      match answer
      case Failure(refusal) =>
        dl.FailRequest(refusal);
      case Reply(payload) =>
        if dl.wantsList {
          ListAnswerKeepsSlot(sha, dl.View(), store, payload);
          OnChunkList(h, payload);
        } else {
          OnChunks(w, full, h, payload);
        }
    }

    /** The download a request was for, if it is still waiting for that request. */
    method Pop(id: FetchId) returns (h: Option<Hash>)
      requires Valid()
      modifies this`byFetch
      ensures View() == old(View()).(byFetch := old(byFetch) - {id})
      ensures h == if Expects(old(View()), id) then Some(old(byFetch)[id]) else None
    {
      h := if id in byFetch && byFetch[id] in downloads && downloads[byFetch[id]].fetch == Some(id) then Some(byFetch[id]) else None;
      byFetch := byFetch - {id};
    }

    method HandleFor(w: World, full: set<nat>, h: Hash, answer: Answer)
      requires Valid() && h in downloads && ListFits(View().downloads[h])
      modifies this`store, this`active, this`lastHolder, downloads[h]
      ensures var s := old(View());
              View() == Settle(w, s, h, OnAnswer(sha, AroundOf(w, s, h), full, s.downloads[h], s.store, answer), s.downloads[h].holder)
    {
      hide View, Record.View, NoDuplicates, OnAnswer, ListFits, Remembered, SlotAfter;
      ghost var s := View();
      Handle(w, full, h, answer);
      OneChanged(h);
    }

    /** The transport reports on a request. */
    method OnResult(w: World, full: set<nat>, id: FetchId, answer: Answer)
      requires Valid() && Fits(View())
      modifies this`byFetch, this`store, this`active, this`lastHolder, downloads.Values
      ensures View() == Engine.OnResult(sha, w, full, old(View()), id, answer)
      ensures Orderly(old(View())) ==> Orderly(View())
    {
      hide View, Record.View, NoDuplicates, OnAnswer, Settle, ListFits, Orderly;
      ghost var s := View();
      if Orderly(s) {
        ResultIsOrderly(sha, w, full, s, id, answer);
      }
      var h := Pop(id);
      if h.Some? {
        assert AroundOf(w, View(), h.value) == AroundOf(w, s, h.value);
        HandleFor(w, full, h.value, answer);
      }
    }

    /* Local requests and outside events. */

    method NudgeIfWaiting(h: Hash, peer: Peer, mayHold: set<Hash>)
      requires Valid() && h in downloads
      modifies downloads[h]
      ensures At(h) == if h in mayHold && (old(At(h)).phase == Unavailable || old(At(h)).phase == Queued)
                       then Nudged(old(At(h)), peer) else old(At(h))
    {
      if h in mayHold && (downloads[h].phase == Unavailable || downloads[h].phase == Queued) {
        downloads[h].Nudge(peer);
      }
    }

    method WakeIfDue(h: Hash, due: set<Hash>)
      requires Valid() && h in downloads
      modifies downloads[h]
      ensures At(h) == if h in due && old(At(h)).phase == Unavailable then Woken(old(At(h))) else old(At(h))
    {
      if h in due && downloads[h].phase == Unavailable {
        downloads[h].Wake();
      }
    }

    method NudgeWaiting(peer: Peer, mayHold: set<Hash>)
      requires Valid()
      modifies downloads.Values
      ensures forall h | h in downloads :: At(h) ==
                if h in order && h in mayHold && (old(At(h)).phase == Unavailable || old(At(h)).phase == Queued)
                then Nudged(old(At(h)), peer) else old(At(h))
    {
      hide Record.View, Nudged;
      for i := 0 to |order|
        invariant forall h | h in downloads :: At(h) ==
                    if h in order[..i] && h in mayHold && (old(At(h)).phase == Unavailable || old(At(h)).phase == Queued)
                    then Nudged(old(At(h)), peer) else old(At(h))
      {
        var h := order[i];
        assert h !in order[..i] && order[..i + 1] == order[..i] + [h];
        NudgeIfWaiting(h, peer, mayHold);
      }
      assert order[..|order|] == order;
    }

    method WakeDue(due: set<Hash>)
      requires Valid()
      modifies downloads.Values
      ensures forall h | h in downloads :: At(h) ==
                if h in order && h in due && old(At(h)).phase == Unavailable then Woken(old(At(h))) else old(At(h))
    {
      hide Record.View, Woken;
      for i := 0 to |order|
        invariant forall h | h in downloads :: At(h) ==
                    if h in order[..i] && h in due && old(At(h)).phase == Unavailable then Woken(old(At(h))) else old(At(h))
      {
        var h := order[i];
        assert h !in order[..i] && order[..i + 1] == order[..i] + [h];
        WakeIfDue(h, due);
      }
      assert order[..|order|] == order;
    }

    method PeerAppeared(me: Peer, peer: Peer, mayHold: set<Hash>)
      requires Valid()
      modifies downloads.Values
      ensures View() == Engine.PeerAppeared(me, old(View()), peer, mayHold)
      ensures Orderly(old(View())) ==> Orderly(View())
    {
      hide Record.View, View, Nudged, Orderly;
      AppearanceRequeues(me, View(), peer, mayHold);
      if Orderly(View()) {
        RequeuingIsOrderly(View(), Engine.PeerAppeared(me, View(), peer, mayHold));
      }
      if peer != me {
        ghost var t := Engine.PeerAppeared(me, View(), peer, mayHold);
        NudgeWaiting(peer, mayHold);
        ShowsAll(t);
      }
    }

    /** Re-queues the parked downloads whose wait is up. */
    method RetryParked(due: set<Hash>)
      requires Valid()
      modifies downloads.Values
      ensures View() == Engine.RetryParked(old(View()), due)
      ensures Orderly(old(View())) ==> Orderly(View())
    {
      hide Record.View, View, Woken, Orderly;
      RetryRequeues(View(), due);
      if Orderly(View()) {
        RequeuingIsOrderly(View(), Engine.RetryParked(View(), due));
      }
      ghost var t := Engine.RetryParked(View(), due);
      WakeDue(due);
      ShowsAll(t);
    }

    lemma ShowsAll(t: State)
      requires t == State(t.downloads, order, active, byFetch, lastHolder, store) && t.downloads.Keys == downloads.Keys
      requires forall h | h in downloads :: At(h) == t.downloads[h]
      ensures View() == t
    {
      assert View().downloads == t.downloads;
    }

    /** Starts or joins the download of the file that a message from this sender names. */
    method RequestDownload(w: World, m: Manifest, sender: Option<Peer>)
      requires Valid()
      modifies this`downloads, this`order, this`store, downloads.Values
      ensures Valid() && View() == Engine.RequestDownload(w, old(View()), m, sender)
      ensures Orderly(old(View())) && m.size >= 1 ==> (Orderly(View()) <==> HarmlessRequest(w, old(View()), m))
    {
      hide *;
      if Orderly(View()) && m.size >= 1 {
        RequestIsOrderly(w, View(), m, sender);
      }
      StartOrJoin(w, m, sender);
    }

    method StartOrJoin(w: World, m: Manifest, sender: Option<Peer>)
      requires Valid()
      modifies this`downloads, this`order, this`store, downloads.Values
      ensures Valid() && View() == Engine.RequestDownload(w, old(View()), m, sender)
    {
      hide Record.View, View, NoDuplicates, Change, AlreadyHeld, Rejoined, Joined, Store.Complete, Valid;
      var complete := store.Complete(m.hash);
      Join(w, m, sender);
      if complete {
        HoldAll(m.hash);
      } else {
        Rejoin(w, m.hash);
      }
    }

    method Join(w: World, m: Manifest, sender: Option<Peer>)
      requires Valid()
      modifies this`downloads, this`order, downloads.Values
      ensures Valid() && m.hash in downloads && View() == Joined(w, old(View()), m, sender) && store == old(store)
      ensures if m.hash in old(downloads) then downloads[m.hash] == old(downloads[m.hash]) else fresh(downloads[m.hash])
    {
      hide Record.View, View, Tracked, SenderNoted, NoDuplicates, Valid;
      Track(m);
      NoteSender(w, m.hash, sender);
    }

    method Track(m: Manifest)
      requires Valid()
      modifies this`downloads, this`order
      ensures Valid() && m.hash in downloads && View() == Tracked(old(View()), m)
      ensures if m.hash in old(downloads) then downloads[m.hash] == old(downloads[m.hash]) else fresh(downloads[m.hash])
    {
      hide Record.View, View, Fresh, Valid, NoDuplicates;
      if m.hash !in downloads {
        var dl := new Record(m);
        FreshIsFor(m);
        Adopt(dl);
      }
    }

    method Adopt(dl: Record)
      requires Valid() && dl.manifest.hash !in downloads
      modifies this`downloads, this`order
      ensures Valid() && downloads == old(downloads)[dl.manifest.hash := dl]
      ensures View() == State(old(View()).downloads[dl.manifest.hash := dl.View()], old(order) + [dl.manifest.hash],
                              active, byFetch, lastHolder, store)
    {
      hide Record.View;
      ghost var s := View();
      downloads := downloads[dl.manifest.hash := dl];
      order := order + [dl.manifest.hash];
      assert View().downloads == s.downloads[dl.manifest.hash := dl.View()];
    }

    method NoteSender(w: World, h: Hash, sender: Option<Peer>)
      requires Valid() && h in downloads
      modifies downloads[h]
      ensures View() == SenderNoted(w, old(View()), h, sender)
    {
      hide Record.View, View;
      if sender.Some? && sender.value != w.me && sender.value !in downloads[h].senders {
        downloads[h].NoteSender(sender.value);
        OneChanged(h);
      }
    }

    method HoldAll(h: Hash)
      requires Valid() && h in downloads
      modifies downloads[h]
      ensures View() == Change(old(View()), h, AlreadyHeld(old(View()).downloads[h]))
    {
      hide Record.View, View, AlreadyHeld;
      downloads[h].HoldAll();
      OneChanged(h);
    }

    method Wake(h: Hash)
      requires Valid() && h in downloads
      modifies downloads[h]
      ensures View() == Change(old(View()), h, Woken(old(View()).downloads[h]))
    {
      hide Record.View, View, Woken;
      downloads[h].Wake();
      OneChanged(h);
    }

    method Rejoin(w: World, h: Hash)
      requires Valid() && h in downloads
      modifies this`store, downloads[h]
      ensures View() == Rejoined(w, old(View()), h)
    {
      hide Record.View, View, Engine.Admit, Woken;
      Wake(h);
      if !downloads[h].admitted {
        Admit(w, h);
      }
    }

    /** Stores a file as our own. */
    method Share(data: Bytes, room: bool, full: set<nat>)
      modifies this`store
      ensures View() == Engine.Share(sha, old(View()), data, room, full)
      ensures Orderly(old(View())) ==> (Orderly(View()) <==> HarmlessShare(sha, old(View()), data, room, full))
    {
      ghost var s := View();
      StoreShared(data, room, full);
      SameRecords();
      hide View, Record.View, Orderly, HarmlessShare;
      ShareStaysInStore(sha, s, data, room, full);
      if Orderly(s) {
        ShareIsOrderly(sha, s, data, room, full);
      }
    }

    method StoreShared(data: Bytes, room: bool, full: set<nat>)
      modifies this`store
      ensures store == Engine.Share(sha, old(View()), data, room, full).store
    {
      if data == [] {
        return;
      }
      var h := sha(data);
      if store.Complete(h) {
        store := store.Begin(h, |data|, true).MarkComplete(h);
        return;
      }
      if !room {
        return;
      }
      ghost var before := store;
      store := store.Begin(h, |data|, true);
      ghost var outcome := PutAll(store, h, data, 0, full);
      for idx := 0 to ChunkCount(|data|)
        invariant PutAll(store, h, data, idx, full) == outcome
        invariant store.Delete(h) == before.Delete(h)
      {
        if (h, idx) !in store.chunks && idx in full {
          store := store.Delete(h);
          return;
        }
        store := store.Put(h, idx, Chunk(data, idx));
      }
      store := store.MarkComplete(h);
    }

    method Delist(h: Hash)
      requires Valid()
      modifies this`order
      ensures Valid() && h !in order
      ensures View() == old(View()).(order := WithoutAll(old(order), {h}))
    {
      DroppingOne(order, h);
      if h in order {
        order := RemoveFirst(order, h);
      }
    }

    method Unfile(h: Hash)
      requires Valid() && h !in order
      modifies this`downloads
      ensures Valid() && downloads == old(downloads) - {h}
      ensures View() == old(View()).(downloads := old(View()).downloads - {h})
    {
      hide Record.View, NoDuplicates;
      ghost var s := View();
      downloads := downloads - {h};
      assert View().downloads == s.downloads - {h};
    }

    method Forget(h: Hash)
      requires Valid()
      modifies this`downloads, this`order, this`active
      ensures Valid() && View() == Without(old(View()), {h}) && downloads == old(downloads) - {h}
    {
      hide Record.View, View, Valid, WithoutAll;
      Delist(h);
      Unfile(h);
      if active == Some(h) {
        Occupy(None);
      }
    }

    method ForgetIfGone(h: Hash)
      requires Valid()
      modifies this`downloads, this`order, this`active
      ensures Valid() && View() == DropIfGone(old(View()), h) && downloads.Values <= old(downloads.Values)
    {
      hide Record.View, View, Valid, Without;
      if h in downloads && downloads[h].admitted && h !in store.rows {
        Forget(h);
      }
    }

    /** Drops what the store no longer covers, and forgets its downloads. */
    method Prune(deleted: set<Hash>)
      requires Valid()
      modifies this`downloads, this`order, this`active, this`store
      ensures Valid() && View() == Engine.Prune(old(View()), deleted)
      ensures Orderly(old(View())) ==> Orderly(View())
    {
      hide Record.View, View, NoDuplicates, Valid, Store.DeleteAll, GoneAmong, Without, DropIfGone, Orderly;
      if Orderly(View()) {
        PruneIsOrderly(View(), deleted);
      }
      ghost var s := old(View()).(store := store.DeleteAll(deleted));
      store := store.DeleteAll(deleted);
      SameRecords();
      DroppingNone(s);
      var listed := order;
      for i := 0 to |listed|
        invariant Valid()
        invariant View() == Without(s, GoneAmong(s, listed[..i]))
      {
        DroppingMore(s, listed, i);
        ForgetIfGone(listed[i]);
      }
      assert listed[..|listed|] == listed;
    }

    twostate lemma SameRecords()
      requires downloads == old(downloads) && forall h | h in downloads :: unchanged(downloads[h])
      ensures View() == State(old(View()).downloads, order, active, byFetch, lastHolder, store)
    {
    }
  }

  lemma FreshIsFor(m: Manifest)
    ensures Fresh(m).manifest == m
  {
  }

  lemma {:induction false} DroppingOne(order: seq<Hash>, h: Hash)
    requires NoDuplicates(order)
    ensures RemoveFirst(order, h) == WithoutAll(order, {h}) && NoDuplicates(RemoveFirst(order, h))
    ensures h !in order ==> WithoutAll(order, {h}) == order
  {
    RemoveFirstRemoves(order, h);
    if order != [] {
      assert order == [order[0]] + order[1..];
      assert order[0] !in order[1..];
      DroppingOne(order[1..], h);
    }
  }

  lemma {:induction false} DroppingTwice(order: seq<Hash>, gone: set<Hash>, h: Hash)
    ensures WithoutAll(WithoutAll(order, gone), {h}) == WithoutAll(order, gone + {h})
  {
    if order != [] {
      DroppingTwice(order[1..], gone, h);
      var rest := WithoutAll(order[1..], gone);
      assert ([order[0]] + rest)[1..] == rest;
      assert [] + rest == rest;
    }
  }

  lemma {:induction false} DroppingNobody(order: seq<Hash>)
    ensures WithoutAll(order, {}) == order
  {
    if order != [] {
      DroppingNobody(order[1..]);
    }
  }

  lemma DroppingNone(s: State)
    ensures Without(s, GoneAmong(s, [])) == s
  {
    assert GoneAmong(s, []) == {};
    DroppingNobody(s.order);
    assert s.downloads - {} == s.downloads;
  }

  function DropIfGone(s: State, h: Hash): State {
    if h in s.downloads && s.downloads[h].admitted && h !in s.store.rows then Without(s, {h}) else s
  }

  lemma DroppingMore(s: State, listed: seq<Hash>, i: nat)
    requires i < |listed|
    ensures DropIfGone(Without(s, GoneAmong(s, listed[..i])), listed[i]) == Without(s, GoneAmong(s, listed[..i + 1]))
  {
    var h, gone := listed[i], GoneAmong(s, listed[..i]);
    assert listed[..i + 1] == listed[..i] + [h];
    if h in s.downloads && h !in gone && s.downloads[h].admitted && h !in s.store.rows {
      assert GoneAmong(s, listed[..i + 1]) == gone + {h};
      DroppingTwice(s.order, gone, h);
      assert s.downloads - gone - {h} == s.downloads - (gone + {h});
    } else {
      assert GoneAmong(s, listed[..i + 1]) == gone;
    }
  }

  /** Remembering who served last before the whole-file check, as the source does, comes to the same. */
  lemma CompletionRemembers(sha: Sha, around: Around, dl: Dl, st: Store, served: bool)
    ensures var now := if served && dl.holder.Some? then around.(last := dl.holder) else around;
            CompleteFile(sha, around, dl, st, served) == CompleteFile(sha, now, dl, st, false).(served := served)
  {
  }

  /** Taking in a reply leaves only the stored chunks, their number and the stop to act on. */
  lemma ReckoningIgnores(sha: Sha, around: Around, dl: Dl, t: Intake)
    ensures AfterIntake(sha, around, dl, t) == AfterIntake(sha, around, dl.(held := t.held), t.(used := 0))
  {
    hide CompleteFile;
  }

  lemma ListAnswerKeepsSlot(sha: Sha, dl: Dl, st: Store, payload: Bytes)
    ensures var t := Download.OnChunkList(sha, dl, st, payload); t.store == st && t.slot == Kept
  {
  }

  /** How a download manager has less left to park than before. */
  predicate Shrunk(s: State, u: State) {
    || |OpenDownloads(u)| < |OpenDownloads(s)|
    || (|OpenDownloads(u)| == |OpenDownloads(s)| && HasActive(s) && !HasActive(u))
  }

  lemma PrepareShrinks(w: World, s: State, t: State)
    requires t == if HasActive(s) then s else Engine.ActivateNext(w, s, s.order)
    requires HasActive(t)
    ensures Shrunk(s, Engine.Stall(w, t, t.active.value))
  {
    hide Engine.ActivateNext;
    ActivationKeepsOpen(w, s, s.order);
    StallCloses(w, t, t.active.value);
  }

  lemma PrepareStep(w: World, s: State)
    ensures var t := if HasActive(s) then s else Engine.ActivateNext(w, s, s.order);
            Engine.Prepare(w, s) ==
              if !HasActive(t) || t.downloads[t.active.value].fetch.Some? then Prepared(t, None)
              else
                var h := t.active.value;
                var holder := NextHolder(w, t.downloads[h], Candidates(AroundOf(w, t, h), t.downloads[h].senders));
                if holder.Some? then Prepared(IssueTo(w, t, h, holder.value), Some(RequestFor(t.downloads[h], w.nextFetch, holder.value)))
                else Engine.Prepare(w, Engine.Stall(w, t, h))
  {
  }

  /** Which download was active before makes no difference to which is activated next. */
  lemma {:induction false} ActivationForgetsActive(w: World, s: State, candidates: seq<Hash>)
    ensures Engine.ActivateNext(w, s.(active := None), candidates) == Engine.ActivateNext(w, s, candidates)
    decreases |candidates|
  {
    if candidates != [] {
      var h, rest := candidates[0], candidates[1..];
      if h !in s.downloads || s.downloads[h].phase != Queued {
        ActivationForgetsActive(w, s, rest);
      } else {
        var t := if s.downloads[h].admitted then s else Engine.Admit(w, s, h);
        assert t.(active := None) == if s.downloads[h].admitted then s.(active := None) else Engine.Admit(w, s.(active := None), h);
        ActivationForgetsActive(w, t, rest);
      }
    }
  }

  lemma ActivationStep(w: World, s: State, candidates: seq<Hash>)
    requires candidates != [] && candidates[0] in s.downloads
    ensures var h, rest := candidates[0], candidates[1..];
            var t := if s.downloads[h].admitted then s else Engine.Admit(w, s, h);
            Engine.ActivateNext(w, s, candidates)
            == if s.downloads[h].phase != Queued then Engine.ActivateNext(w, s, rest)
               else if t.downloads[h].admitted then t.(active := Some(h)) else Engine.ActivateNext(w, t, rest)
  {
  }

  lemma ActivationEnds(w: World, s: State)
    ensures Engine.ActivateNext(w, s, []) == s.(active := None)
  {
  }

  lemma RestoredGrows(st: Store, listed: seq<Hash>, h: Hash, told: map<Hash, Told>)
    requires h !in listed && (h in told ==> told[h].manifest.hash == h)
    ensures var s := Restored(st, listed, told);
            && h !in s.downloads && s.store == st
            && Restored(st, listed + [h], told)
               == if h in told then s.(downloads := s.downloads[h := Resumed(told[h], st)], order := s.order + [h]) else s
  {
    hide Resumed, Named;
    NamedGrows(listed, h, told);
    var s, t := Restored(st, listed, told), Restored(st, listed + [h], told);
    assert t.downloads.Keys == s.downloads.Keys + if h in told then {h} else {};
    assert t.downloads == if h in told then s.downloads[h := Resumed(told[h], st)] else s.downloads;
  }

  method AddEach(me: Peer, start: seq<Peer>, peers: seq<Peer>) returns (ordered: seq<Peer>)
    ensures ordered == AddPeers(me, start, peers)
  {
    ordered := start;
    for i := 0 to |peers|
      invariant AddPeers(me, ordered, peers[i..]) == AddPeers(me, start, peers)
    {
      assert peers[i..][1..] == peers[i + 1..];
      if peers[i] != me && peers[i] !in ordered {
        ordered := ordered + [peers[i]];
      }
    }
  }
}
