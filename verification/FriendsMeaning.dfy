/** What the operations on contacts write down, send and throw away. */
module FriendsMeaning {
  import opened Prelude
  import opened Friends

  /* Contacts. */

  /** Every other contact is as it was. */
  ghost predicate OtherContacts(n: Node, t: Node, id: Id) {
    forall i | i != id :: (i in t.contacts <==> i in n.contacts) && (i in n.contacts ==> t.contacts[i] == n.contacts[i])
  }

  /** The words held from others are as they were, and those from this identity too, unless they go. */
  ghost predicate WordsGo(n: Node, t: Node, id: Id, go: bool) {
    forall h :: h in t.held <==> h in n.held && !(go && h.sender == id)
  }

  /** All that this peer let us hear is words from a client that cannot shake hands. */
  predicate OnlyWords(n: Node, id: Id) {
    (exists h | h in n.held :: h.sender == id) && forall h | h in n.held && h.sender == id :: !h.fromTrenchchat
  }

  lemma AskedUnlessOnlyWords(n: Node, id: Id)
    ensures n.AskedUs(id) <==> !OnlyWords(n, id)
  {
  }

  /** Adding writes the given names over whatever was there and keeps an earlier
      date; a filer takes the words held; and only a peer whose request was
      pending, and who sent more than words, is told. */
  lemma AddingWrites(n: Node, id: Id, nickname: string, note: string, now: int)
    requires id != n.me
    ensures var e := AddFriend(n, id, nickname, note, now);
            && id in e.node.contacts && OtherContacts(n, e.node, id)
            && e.node.contacts[id] == Contact(Accepted, if id in n.contacts then n.contacts[id].addedAt else now, nickname, note)
            && WordsGo(n, e.node, id, n.filing) && e.node.resolving == n.resolving
            && e.out == if id in n.contacts && n.contacts[id].standing == PendingIn && !OnlyWords(n, id) then [Out(id, Accept)] else []
  {
    AskedUnlessOnlyWords(n, id);
  }

  /** Accepting keeps the date and the note, and the nickname unless one is given. */
  lemma AcceptingWrites(n: Node, id: Id, nickname: string)
    requires n.StandingOf(id) == Some(PendingIn)
    ensures var e, c := AcceptFriendRequest(n, id, nickname), n.contacts[id];
            && id in e.node.contacts && OtherContacts(n, e.node, id)
            && e.node.contacts[id] == Contact(Accepted, c.addedAt, if nickname != "" then nickname else c.nickname, c.note)
            && WordsGo(n, e.node, id, n.filing)
            && e.out == if !OnlyWords(n, id) then [Out(id, Accept)] else []
  {
    AskedUnlessOnlyWords(n, id);
  }

  /** An update writes exactly the fields given, and only of a contact there is. */
  lemma UpdatingWrites(n: Node, id: Id, nickname: Option<string>, note: Option<string>)
    ensures var t := UpdateFriend(n, id, nickname, note);
            && t == n.(contacts := t.contacts) && OtherContacts(n, t, id) && (id in t.contacts <==> id in n.contacts)
            && (id in n.contacts ==>
                  && t.contacts[id].standing == n.contacts[id].standing && t.contacts[id].addedAt == n.contacts[id].addedAt
                  && (nickname.Some? ==> t.contacts[id].nickname == nickname.value)
                  && (nickname.None? ==> t.contacts[id].nickname == n.contacts[id].nickname)
                  && (note.Some? ==> t.contacts[id].note == note.value)
                  && (note.None? ==> t.contacts[id].note == n.contacts[id].note))
  {
  }

  /** Asking a stranger, or somebody asked before: the note is kept whole here and
      sent cut to its first 140 characters; nobody else is asked anything. */
  lemma AskingWrites(n: Node, id: Id, note: string, nickname: string, now: int)
    requires id != n.me
    ensures var e := SendFriendRequest(n, id, note, nickname, now);
            && (id in n.contacts && n.contacts[id].standing == Accepted ==> e == Effect(n, []))
            && (id in n.contacts && n.contacts[id].standing == PendingIn ==> e == AcceptFriendRequest(n, id, nickname))
            && (id !in n.contacts || n.contacts[id].standing == PendingOut ==>
                  && id in e.node.contacts && OtherContacts(n, e.node, id)
                  && e.node.contacts[id] == Contact(PendingOut, if id in n.contacts then n.contacts[id].addedAt else now, nickname, note)
                  && |e.out| == 1 && e.out[0].to == id && e.out[0].msg.Request?
                  && e.out[0].msg.note == note[..if |note| < 140 then |note| else 140])
  {
  }

  /** Removing, declining and cancelling take away exactly that contact, and with
      the first two its words; only a declined peer that sent more than words is told. */
  lemma LeavingTakes(n: Node, id: Id)
    ensures var t := RemoveFriend(n, id);
            && id !in t.contacts && OtherContacts(n, t, id) && WordsGo(n, t, id, id in n.contacts) && t.resolving == n.resolving
    ensures var e, declines := DeclineFriendRequest(n, id), id in n.contacts && n.contacts[id].standing == PendingIn;
            && OtherContacts(n, e.node, id) && (id in e.node.contacts <==> id in n.contacts && !declines)
            && WordsGo(n, e.node, id, declines)
            && e.out == if declines && !OnlyWords(n, id) then [Out(id, Decline)] else []
    ensures var t, cancels := CancelFriendRequest(n, id), id in n.contacts && n.contacts[id].standing == PendingOut;
            && OtherContacts(n, t, id) && (id in t.contacts <==> id in n.contacts && !cancels) && t.held == n.held
  {
    AskedUnlessOnlyWords(n, id);
  }

  /** A stranger's request is written down with its note cut and no nickname. */
  lemma HearingWrites(n: Node, from: Id, note: string, now: int)
    requires from !in n.contacts && from != n.me
    ensures var e := Receive(n, from, Request(note), now);
            && e.out == [] && from in e.node.contacts
            && e.node.contacts[from] == Contact(PendingIn, now, "", note[..if |note| < 140 then |note| else 140])
            && forall i | i != from && i in e.node.contacts :: i in n.contacts && e.node.contacts[i] == n.contacts[i]
  {
    hide EvictOldestPending;
  }

  /** A request that comes after words from a client that cannot shake hands is
      forgotten at once: accepting its sender then tells it nothing, although it asked. */
  lemma RequestAfterWordsIsNotAnswered(n: Node, from: Id, note: string, now: int, nickname: string)
    requires n.StandingOf(from) == Some(PendingIn) && OnlyWords(n, from) && from != n.me
    ensures Receive(n, from, Request(note), now) == Effect(n, [])
    ensures var t := Receive(n, from, Request(note), now).node;
            AcceptFriendRequest(t, from, nickname).out == [] && AcceptFriendRequest(t, from, nickname).node.StandingOf(from) == Some(Accepted)
  {
    AskedUnlessOnlyWords(n, from);
  }

  /* A full queue. */

  /** Room is made for one more by dropping exactly as many as needed, the oldest
      first, with their words and nobody else's. */
  lemma {:induction false} EvictionIsMinimal(n: Node)
    ensures var t := EvictOldestPending(n);
            var pending, left := n.InState(PendingIn), t.InState(PendingIn);
            && (|pending| < 64 ==> t == n) && (|pending| >= 64 ==> |left| == 63) && left <= pending
            && (forall gone, kept | gone in pending - left && kept in left :: n.contacts[gone].addedAt <= n.contacts[kept].addedAt)
            && (forall i | i in n.contacts && i !in pending - left :: i in t.contacts && t.contacts[i] == n.contacts[i])
            && (forall h :: h in t.held <==> h in n.held && h.sender !in pending - left)
    decreases |n.InState(PendingIn)|
  {
    var pending := n.InState(PendingIn);
    if |pending| >= 64 {
      var oldest := OldestPending(n);
      var next := n.Forget(oldest).ClearHeld(oldest);
      assert next.InState(PendingIn) == pending - {oldest};
      EvictionIsMinimal(next);
      var t := EvictOldestPending(next);
      hide EvictOldestPending, OldestPending;
      var left := t.InState(PendingIn);
      forall gone, kept | gone in pending - left && kept in left ensures n.contacts[gone].addedAt <= n.contacts[kept].addedAt {
        if gone != oldest {
          assert gone in next.InState(PendingIn) - left;
        }
      }
      assert pending - left == next.InState(PendingIn) - left + {oldest};
    }
  }

  /* Held words. */

  /** The words of one sender, in order. */
  function Of(held: seq<Held>, id: Id): seq<Held> {
    if held == [] then [] else (if held[0].sender == id then [held[0]] else []) + Of(held[1..], id)
  }

  function LastOf(held: seq<Held>, k: nat): seq<Held> {
    if |held| <= k then held else held[|held| - k..]
  }

  lemma OneMoreInFront(h: Held, rest: seq<Held>, id: Id)
    ensures Of([h] + rest, id) == if h.sender == id then [h] + Of(rest, id) else Of(rest, id)
    ensures NotFrom([h] + rest, id) == if h.sender == id then NotFrom(rest, id) else [h] + NotFrom(rest, id)
  {
    assert ([h] + rest)[1..] == rest && ([h] + rest)[0] == h;
  }

  lemma OnlyOne(h: Held, id: Id)
    ensures Of([h], id) == if h.sender == id then [h] else []
    ensures NotFrom([h], id) == if h.sender == id then [] else [h]
  {
    assert [h][1..] == [];
  }

  lemma {:induction false} OfAppends(held: seq<Held>, h: Held, id: Id)
    ensures Of(held + [h], id) == if h.sender == id then Of(held, id) + [h] else Of(held, id)
    ensures NotFrom(held + [h], id) == if h.sender == id then NotFrom(held, id) else NotFrom(held, id) + [h]
    decreases |held|
  {
    if held == [] {
      assert [] + [h] == [h];
      OnlyOne(h, id);
    } else {
      hide Of, NotFrom;
      var front, rest := held[0], held[1..];
      assert held == [front] + rest && held + [h] == [front] + (rest + [h]);
      OneMoreInFront(front, rest, id);
      OneMoreInFront(front, rest + [h], id);
      OfAppends(rest, h, id);
      Grouped(front, Of(rest, id), h);
      Grouped(front, NotFrom(rest, id), h);
    }
  }

  lemma Grouped(front: Held, middle: seq<Held>, h: Held)
    ensures [front] + (middle + [h]) == [front] + middle + [h]
  {
  }

  lemma NewestStep(before: seq<Held>, last: Held, id: Id, k: nat)
    ensures NewestOf(before + [last], id, k)
            == if last.sender != id then NewestOf(before, id, k) + [last]
               else if k == 0 then NewestOf(before, id, 0)
               else NewestOf(before, id, k - 1) + [last]
  {
    var held := before + [last];
    assert held[..|held| - 1] == before && held[|held| - 1] == last;
  }

  lemma LastOfAppends(held: seq<Held>, h: Held, k: nat)
    ensures LastOf(held + [h], k) == if k == 0 then [] else LastOf(held, k - 1) + [h]
  {
  }

  lemma {:induction false} NewestAreLast(held: seq<Held>, id: Id, k: nat)
    ensures Of(NewestOf(held, id, k), id) == LastOf(Of(held, id), k)
    ensures NotFrom(NewestOf(held, id, k), id) == NotFrom(held, id)
    decreases |held|
  {
    if held != [] {
      hide NewestOf, Of, NotFrom, LastOf;
      var before, last := held[..|held| - 1], held[|held| - 1];
      assert held == before + [last];
      NewestStep(before, last, id, k);
      OfAppends(before, last, id);
      if last.sender != id {
        NewestAreLast(before, id, k);
        OfAppends(NewestOf(before, id, k), last, id);
      } else if k == 0 {
        NewestAreLast(before, id, 0);
        NothingLast(Of(held, id), Of(before, id));
      } else {
        NewestAreLast(before, id, k - 1);
        OfAppends(NewestOf(before, id, k - 1), last, id);
        LastOfAppends(Of(before, id), last, k);
      }
    }
  }

  lemma NothingLast(a: seq<Held>, b: seq<Held>)
    ensures LastOf(a, 0) == LastOf(b, 0) == []
  {
  }

  /** Holding one more message: of its sender the last three are kept, of the
      others all; and if that is more than 128, the last 128. */
  lemma HoldingKeepsTheLast(held: seq<Held>, h: Held) returns (capped: seq<Held>)
    ensures Of(capped, h.sender) == LastOf(Of(held, h.sender) + [h], 3) && NotFrom(capped, h.sender) == NotFrom(held, h.sender)
    ensures AddHeld(held, h) == LastOf(capped, 128)
  {
    capped := NewestOf(held + [h], h.sender, MAX_HELD_PER_SENDER);
    NewestAreLast(held + [h], h.sender, 3);
    OfAppends(held, h, h.sender);
  }

  lemma {:induction false} OfHas(held: seq<Held>, id: Id)
    ensures forall h :: h in Of(held, id) <==> h in held && h.sender == id
  {
    if held != [] {
      assert held == [held[0]] + held[1..];
      OfHas(held[1..], id);
    }
  }

  lemma {:induction false} FilteredIsShorter(held: seq<Held>, id: Id, time: int)
    ensures |NotFrom(held, id)| <= |held| && |NotBefore(held, time)| <= |held|
  {
    if held != [] {
      FilteredIsShorter(held[1..], id, time);
    }
  }

  lemma {:induction false} EvictionKeepsFewer(n: Node)
    ensures |EvictOldestPending(n).held| <= |n.held|
    decreases |n.InState(PendingIn)|
  {
    if |n.InState(PendingIn)| >= MAX_PENDING_FRIEND_REQUESTS {
      var oldest := OldestPending(n);
      var next := n.Forget(oldest).ClearHeld(oldest);
      assert next.InState(PendingIn) == n.InState(PendingIn) - {oldest};
      FilteredIsShorter(n.held, oldest, 0);
      EvictionKeepsFewer(next);
    }
  }

  lemma {:induction false} NewestIsShorter(held: seq<Held>, id: Id, k: nat)
    ensures |NewestOf(held, id, k)| <= |held|
  {
  }

  /** Holding words from somebody not accepted. Nothing older than thirty days is
      held any more; and below the limit on all words nobody else loses any that
      are younger, unless their own request was dropped for this one. */
  lemma HoldingLosesOnly(n: Node, id: Id, fromTrenchchat: bool, now: int)
    requires id != n.me && n.StandingOf(id) != Some(Accepted)
    ensures var t := HoldMessageRequest(n, id, fromTrenchchat, now);
            && (forall h | h in t.held :: h.receivedAt >= now - 2_592_000)
            && (|n.held| < 128 ==>
                  forall h | h in n.held && h.receivedAt >= now - 2_592_000 && h.sender != id
                             && (h.sender in n.InState(PendingIn) ==> h.sender in t.contacts) :: h in t.held)
            && t.resolving == n.resolving && t.friends == n.friends
            && (id !in n.contacts ==> id in t.contacts && t.contacts[id] == Contact(PendingIn, now, "", ""))
            && (id in n.contacts ==> t.contacts == n.contacts)
  {
    hide EvictOldestPending, NewestOf, NotBefore, AddHeld, Node.InState;
    var pruned := n.(held := NotBefore(n.held, now - MESSAGE_REQUEST_TTL_SECS));
    RoomForStranger(n, pruned, id, now);
    var t := if n.StandingOf(id).None? then EvictOldestPending(pruned).Upsert(id, "", "", PendingIn, now) else pruned;
    FilteredIsShorter(n.held, id, now - MESSAGE_REQUEST_TTL_SECS);
    AddingKeepsOthers(t.held, Held(id, now, fromTrenchchat));
  }

  /** The node once old words are dropped and, for a stranger, room is made. */
  lemma RoomForStranger(n: Node, pruned: Node, id: Id, now: int)
    requires pruned == n.(held := pruned.held)
    ensures var t := if n.StandingOf(id).None? then EvictOldestPending(pruned).Upsert(id, "", "", PendingIn, now) else pruned;
            && |t.held| <= |pruned.held| && t.resolving == n.resolving && t.friends == n.friends
            && (forall h | h in t.held :: h in pruned.held)
            && (forall h | h in pruned.held && h.sender != id && (h.sender in n.InState(PendingIn) ==> h.sender in t.contacts) :: h in t.held)
            && (id !in n.contacts ==> id in t.contacts && t.contacts[id] == Contact(PendingIn, now, "", ""))
            && (id in n.contacts ==> t == pruned)
  {
    hide EvictOldestPending;
    EvictionIsMinimal(pruned);
    EvictionKeepsFewer(pruned);
    assert pruned.InState(PendingIn) == n.InState(PendingIn);
  }

  lemma AddingKeepsOthers(held: seq<Held>, h: Held)
    ensures forall g | g in AddHeld(held, h) :: g in held || g == h
    ensures |held| < 128 ==> forall g | g in held && g.sender != h.sender :: g in AddHeld(held, h)
  {
    var capped := NewestOf(held + [h], h.sender, MAX_HELD_PER_SENDER);
    assert |capped| <= |held| + 1;
  }

  /* Addresses waiting for an identity. */

  lemma {:induction false} UnnotedHas(resolving: seq<Lookup>, a: Address)
    ensures forall l :: l in Unnoted(resolving, a) <==> l in resolving && l.address != a
  {
    if resolving != [] {
      assert resolving == [resolving[0]] + resolving[1..];
      UnnotedHas(resolving[1..], a);
    }
  }

  /** Every address whose identity is known by now is finished: it waits no more,
      and its identity, unless it is this node's own, is a friend. All others wait on. */
  lemma {:induction false} ResolvingFinishes(n: Node, pending: seq<Lookup>, recalls: map<Address, Id>, now: int)
    ensures var t := Resolve(n, pending, recalls, now).node;
            && t.me == n.me
            && (forall l :: l in t.resolving <==> l in n.resolving && !(l.address in recalls && exists p | p in pending :: p.address == l.address))
            && (forall i | n.StandingOf(i) == Some(Accepted) :: t.StandingOf(i) == Some(Accepted))
            && (forall p | p in pending && p.address in recalls && recalls[p.address] != n.me ::
                  t.StandingOf(recalls[p.address]) == Some(Accepted))
    decreases |pending|
  {
    if pending != [] {
      var p, rest := pending[0], pending[1..];
      assert pending == [p] + rest;
      if p.address !in recalls {
        ResolvingFinishes(n, rest, recalls, now);
        assert forall l: Lookup | l.address in recalls ::
            (exists q | q in pending :: q.address == l.address) <==> exists q | q in rest :: q.address == l.address;
      } else {
        var popped := n.(resolving := Unnoted(n.resolving, p.address));
        UnnotedHas(n.resolving, p.address);
        var one := AddFriend(popped, recalls[p.address], p.nickname, p.note, now);
        AddedStands(popped, recalls[p.address], p.nickname, p.note, now);
        hide AddFriend, Unnoted;
        ResolvingFinishes(one.node, rest, recalls, now);
        assert p in pending;
        assert forall q | q in rest :: q in pending;
      }
    }
  }

  lemma AddedStands(n: Node, id: Id, nickname: string, note: string, now: int)
    ensures var t := AddFriend(n, id, nickname, note, now).node;
            && t.me == n.me && t.resolving == n.resolving
            && (id != n.me ==> t.StandingOf(id) == Some(Accepted))
            && forall i | n.StandingOf(i) == Some(Accepted) :: t.StandingOf(i) == Some(Accepted)
  {
  }
}
