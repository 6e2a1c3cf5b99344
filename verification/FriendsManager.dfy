/** The contact manager as the source has it, updated in place, against the rules of Friends. */
module FriendsManager {
  import opened Prelude
  import opened Friends
  import opened FriendsConsent

  class Manager {
    const me: Id
    const filing: bool
    var contacts: map<Id, Contact>
    var friends: set<Id>
    var resolving: seq<Lookup>
    var held: seq<Held>
    var sent: seq<Out>            // what was handed to the router

    function View(): Node
      reads this
    {
      Node(me, filing, contacts, friends, resolving, held)
    }

    /** The gate is the stored accepted contacts, and what strangers fill is bounded. */
    ghost predicate Valid()
      reads this
    {
      Sound(View())
    }

    /** The in-memory gate starts as what the storage holds as accepted. */
    constructor (me: Id, filing: bool, contacts: map<Id, Contact>, held: seq<Held>)
      ensures View() == Node(me, filing, contacts, View().InState(Accepted), [], held) && sent == []
      ensures Valid() <==> me !in contacts && WithinCaps(held) && |View().InState(PendingIn)| <= MAX_PENDING_FRIEND_REQUESTS
    {
      this.me, this.filing, this.contacts, this.held := me, filing, contacts, held;
      friends := Node(me, filing, contacts, {}, [], held).InState(Accepted);
      resolving, sent := [], [];
    }

    predicate IsFriend(id: Id)
      reads this
    {
      id in friends
    }

    method Upsert(id: Id, nickname: string, note: string, standing: Standing, now: int)
      modifies this`contacts
      ensures View() == old(View()).Upsert(id, nickname, note, standing, now)
    {
      var addedAt := if id in contacts then contacts[id].addedAt else now;
      contacts := contacts[id := Contact(standing, addedAt, nickname, note)];
    }

    method Send(id: Id, msg: Wire)
      modifies this`sent
      ensures View() == old(View()) && sent == old(sent) + [Out(id, msg)]
    {
      sent := sent + [Out(id, msg)];
    }

    method FileHeldMessages(id: Id)
      modifies this`held
      ensures View() == Filed(old(View()), id)
    {
      if filing {
        held := NotFrom(held, id);
      }
    }

    /** Drops the oldest unanswered requests until there is room for one more. */
    method EvictOldestPending()
      modifies this`contacts, this`held
      ensures View() == Friends.EvictOldestPending(old(View()))
    {
      ghost var outcome := Friends.EvictOldestPending(View());
      while |View().InState(PendingIn)| >= MAX_PENDING_FRIEND_REQUESTS
        invariant Friends.EvictOldestPending(View()) == outcome
        decreases |View().InState(PendingIn)|
      {
        ghost var before := View();
        var oldest := OldestPending(View());
        contacts := contacts - {oldest};
        held := NotFrom(held, oldest);
        assert View() == before.Forget(oldest).ClearHeld(oldest);
        assert View().InState(PendingIn) == before.InState(PendingIn) - {oldest};
      }
    }

    method AddFriend(id: Id, nickname: string, note: string, now: int) returns (ok: bool)
      modifies this
      ensures ok <==> id != me
      ensures Effect(View(), sent) == Sending(old(sent), Friends.AddFriend(old(View()), id, nickname, note, now))
      ensures old(Valid()) ==> Valid()
      ensures ok ==> Holds(View(), id, Accepted) && OthersStand(old(View()), View(), id)
      ensures ok ==> sent == old(sent) + if old(View()).StandingOf(id) == Some(PendingIn) && old(View()).AskedUs(id) then [Out(id, Accept)] else []
      ensures !ok ==> View() == old(View()) && sent == old(sent)
    {
      AddingMeans(View(), id, nickname, note, now);
      if id == me {
        return false;
      }
      var wasPendingIn := View().StandingOf(id) == Some(PendingIn);
      Upsert(id, nickname, note, Accepted, now);
      friends := friends + {id};
      if wasPendingIn && View().AskedUs(id) {
        Send(id, Accept);
      }
      FileHeldMessages(id);
      return true;
    }

    method UpdateFriend(id: Id, nickname: Option<string>, note: Option<string>) returns (ok: bool)
      modifies this`contacts
      ensures ok <==> id in old(contacts)
      ensures View() == Friends.UpdateFriend(old(View()), id, nickname, note)
      ensures old(Valid()) ==> Valid()
      ensures friends == old(friends) && contacts.Keys == old(contacts).Keys
      ensures forall i | i in contacts :: contacts[i].standing == old(contacts)[i].standing && contacts[i].addedAt == old(contacts)[i].addedAt
    {
      UpdatingMeans(View(), id, nickname, note);
      if id !in contacts {
        return false;
      }
      var c := contacts[id];
      Upsert(id, nickname.GetOr(c.nickname), note.GetOr(c.note), c.standing, c.addedAt);
      return true;
    }

    method RemoveFriend(id: Id) returns (ok: bool)
      modifies this`contacts, this`held, this`friends
      ensures ok <==> id in old(contacts)
      ensures View() == Friends.RemoveFriend(old(View()), id)
      ensures old(Valid()) ==> Valid() && !IsFriend(id)
      ensures id !in contacts && OthersStand(old(View()), View(), id)
      ensures ok ==> forall h | h in held :: h.sender != id
    {
      RemovingMeans(View(), id);
      if id !in contacts {
        return false;
      }
      contacts := contacts - {id};
      held := NotFrom(held, id);
      friends := friends - {id};
      return true;
    }

    method AddLxmfAddress(l: Lookup, recalled: Option<Id>, now: int)
      modifies this
      ensures Effect(View(), sent) == Sending(old(sent), AddAddress(old(View()), l, recalled, now))
      ensures old(Valid()) ==> Valid()
      ensures recalled.Some? && recalled != Some(me) ==> Holds(View(), recalled.value, Accepted) && OthersStand(old(View()), View(), recalled.value)
      ensures recalled.None? || recalled == Some(me) ==> contacts == old(contacts) && friends == old(friends) && sent == old(sent)
      ensures recalled.None? ==> l in resolving && forall g | g in old(resolving) && g.address != l.address :: g in resolving
    {
      NotingMeans(resolving, l);
      if recalled == Some(me) {
      } else if recalled.None? {
        resolving := Noted(resolving, l);
      } else {
        var _ := AddFriend(recalled.value, l.nickname, l.note, now);
      }
    }

    /** Finishes every address whose identity has since been recalled. */
    method Tick(recalls: map<Address, Id>, now: int)
      modifies this
      ensures Effect(View(), sent) == Sending(old(sent), Resolve(old(View()), old(resolving), recalls, now))
      ensures old(Valid()) ==> Valid()
    {
      if Sound(View()) {
        ResolvingIsSound(View(), resolving, recalls, now);
      }
      var pending := resolving;
      ghost var outcome := Sending(sent, Resolve(View(), pending, recalls, now));
      for i := 0 to |pending|
        invariant Sending(sent, Resolve(View(), pending[i..], recalls, now)) == outcome
      {
        var l := pending[i];
        assert pending[i..][0] == l && pending[i..][1..] == pending[i + 1..];
        if l.address in recalls {
          ghost var popped := View().(resolving := Unnoted(resolving, l.address));
          ghost var one := Friends.AddFriend(popped, recalls[l.address], l.nickname, l.note, now);
          ghost var rest := Resolve(one.node, pending[i + 1..], recalls, now);
          assert sent + (one.out + rest.out) == (sent + one.out) + rest.out;
          resolving := Unnoted(resolving, l.address);
          var _ := AddFriend(recalls[l.address], l.nickname, l.note, now);
        }
      }
      assert pending[|pending|..] == [];
    }

    method SendFriendRequest(id: Id, note: string, nickname: string, now: int) returns (ok: bool)
      modifies this
      ensures ok <==> id != me
      ensures Effect(View(), sent) == Sending(old(sent), Friends.SendFriendRequest(old(View()), id, note, nickname, now))
      ensures old(Valid()) ==> Valid()
      ensures ok ==> View().Wanted(id) && OthersStand(old(View()), View(), id)
      ensures ok ==> (View().StandingOf(id) == Some(PendingOut) <==> old(View()).StandingOf(id) in {None, Some(PendingOut)})
      ensures |sent| <= |old(sent)| + 1 && (View().StandingOf(id) == Some(PendingOut) && ok ==> Asks(sent, id))
    {
      RequestingMeans(View(), id, note, nickname, now);
      if id == me {
        return false;
      }
      var standing := View().StandingOf(id);
      if standing == Some(Accepted) {
        return true;
      }
      if standing == Some(PendingIn) {
        ok := AcceptFriendRequest(id, nickname);
        return ok;
      }
      Upsert(id, nickname, note, PendingOut, now);
      Send(id, Request(Cut(note, MAX_FRIEND_NOTE_CHARS)));
      return true;
    }

    method AcceptFriendRequest(id: Id, nickname: string) returns (ok: bool)
      modifies this
      ensures ok <==> old(View()).StandingOf(id) == Some(PendingIn)
      ensures Effect(View(), sent) == Sending(old(sent), Friends.AcceptFriendRequest(old(View()), id, nickname))
      ensures old(Valid()) ==> Valid()
      ensures ok ==> Holds(View(), id, Accepted) && OthersStand(old(View()), View(), id)
      ensures ok ==> contacts[id].addedAt == old(contacts)[id].addedAt
      ensures !ok ==> View() == old(View()) && sent == old(sent)
    {
      AcceptingMeans(View(), id, nickname);
      if View().StandingOf(id) != Some(PendingIn) {
        return false;
      }
      var c := contacts[id];
      Upsert(id, if nickname != "" then nickname else c.nickname, c.note, Accepted, 0);
      friends := friends + {id};
      if View().AskedUs(id) {
        Send(id, Accept);
      }
      FileHeldMessages(id);
      return true;
    }

    /** Holds words from someone not accepted, for the user to judge. */
    method HoldMessageRequest(id: Id, fromTrenchchat: bool, now: int) returns (ok: bool)
      modifies this`contacts, this`held
      ensures ok <==> id != me && old(View()).StandingOf(id) != Some(Accepted)
      ensures View() == Friends.HoldMessageRequest(old(View()), id, fromTrenchchat, now)
      ensures old(Valid()) ==> Valid()
      ensures friends == old(friends) && SameWanted(old(View()), View())
      ensures ok ==> |held| <= MAX_HELD_MESSAGES && Held(id, now, fromTrenchchat) in held && id in contacts
      ensures forall h | h in held :: h in old(held) || h == Held(id, now, fromTrenchchat)
    {
      HoldingMeans(View(), id, fromTrenchchat, now);
      var standing := View().StandingOf(id);
      if id == me || standing == Some(Accepted) {
        return false;
      }
      held := NotBefore(held, now - MESSAGE_REQUEST_TTL_SECS);
      if standing.None? {
        EvictOldestPending();
        Upsert(id, "", "", PendingIn, now);
      }
      held := AddHeld(held, Held(id, now, fromTrenchchat));
      return true;
    }

    method TakeMessageRequests(id: Id)
      modifies this`held
      ensures View() == old(View()).ClearHeld(id)
    {
      held := NotFrom(held, id);
    }

    method DeclineFriendRequest(id: Id) returns (ok: bool)
      modifies this`contacts, this`held, this`sent
      ensures ok <==> old(View()).StandingOf(id) == Some(PendingIn)
      ensures Effect(View(), sent) == Sending(old(sent), Friends.DeclineFriendRequest(old(View()), id))
      ensures old(Valid()) ==> Valid()
      ensures friends == old(friends) && SameWanted(old(View()), View()) && OthersStand(old(View()), View(), id)
      ensures ok ==> id !in contacts && forall h | h in held :: h.sender != id
      ensures sent == old(sent) + if ok && old(View()).AskedUs(id) then [Out(id, Decline)] else []
    {
      DroppingMeans(View(), id);
      if View().StandingOf(id) != Some(PendingIn) {
        return false;
      }
      var asked := View().AskedUs(id);
      contacts := contacts - {id};
      held := NotFrom(held, id);
      if asked {
        Send(id, Decline);
      }
      return true;
    }

    method CancelFriendRequest(id: Id) returns (ok: bool)
      modifies this`contacts
      ensures ok <==> old(View()).StandingOf(id) == Some(PendingOut)
      ensures View() == Friends.CancelFriendRequest(old(View()), id)
      ensures old(Valid()) ==> Valid()
      ensures ok ==> id !in contacts
      ensures friends == old(friends) && OthersStand(old(View()), View(), id)
    {
      DroppingMeans(View(), id);
      if View().StandingOf(id) != Some(PendingOut) {
        return false;
      }
      contacts := contacts - {id};
      return true;
    }

    /* What a peer sends. */

    method OnMessage(from: Id, msg: Wire, now: int)
      modifies this
      ensures Effect(View(), sent) == Sending(old(sent), Receive(old(View()), from, msg, now))
      ensures old(Valid()) ==> Valid()
      ensures forall i :: View().Wanted(i) ==> old(View()).Wanted(i)
      ensures friends == old(friends) + if from != me && !msg.Decline? && old(View()).StandingOf(from) == Some(PendingOut) then {from} else {}
      ensures |sent| <= |old(sent)| + 1 && (sent != old(sent) ==> msg.Request? && sent == old(sent) + [Out(from, Accept)] && View().StandingOf(from) == Some(Accepted))
    {
      HearingMeans(View(), from, msg, now);
      if from == me {
        return;
      }
      match msg
      case Request(note) => HandleRequest(from, note, now);
      case Accept => HandleAccept(from);
      case Decline => HandleDecline(from);
    }

    method HandleRequest(from: Id, note: string, now: int)
      modifies this
      ensures Effect(View(), sent) == Sending(old(sent), Friends.HandleRequest(old(View()), from, note, now))
      ensures from != me && old(Valid()) ==> Valid()
      ensures SameWanted(old(View()), View())
      ensures friends == old(friends) + if old(View()).StandingOf(from) == Some(PendingOut) then {from} else {}
      ensures sent == old(sent) + if old(View()).Wanted(from) then [Out(from, Accept)] else []
      ensures old(View()).Wanted(from) ==> Holds(View(), from, Accepted) || old(View()).StandingOf(from) == Some(Accepted)
      ensures from in contacts && (old(View()).StandingOf(from).None? ==> View().StandingOf(from) == Some(PendingIn))
    {
      hide Sound, SameWanted, Cut;
      RequestMeans(View(), from, note, now);
      var standing := View().StandingOf(from);
      if standing == Some(Accepted) {
        Send(from, Accept);
      } else if standing == Some(PendingOut) {
        contacts := contacts[from := contacts[from].(standing := Accepted)];
        friends := friends + {from};
        Send(from, Accept);
      } else if standing == Some(PendingIn) {
      } else {
        assert standing.None? by { OneOf(standing); }
        EvictOldestPending();
        Upsert(from, "", Cut(note, MAX_FRIEND_NOTE_CHARS), PendingIn, now);
      }
    }

    method HandleAccept(from: Id)
      modifies this`contacts, this`friends
      ensures View() == Friends.HandleAccept(old(View()), from)
      ensures from != me && old(Valid()) ==> Valid()
      ensures SameWanted(old(View()), View()) && OthersStand(old(View()), View(), from)
      ensures friends == old(friends) + if old(View()).StandingOf(from) == Some(PendingOut) then {from} else {}
    {
      AnswerMeans(View(), from);
      if View().StandingOf(from) == Some(PendingOut) {
        contacts := contacts[from := contacts[from].(standing := Accepted)];
        friends := friends + {from};
      }
    }

    method HandleDecline(from: Id)
      modifies this`contacts
      ensures View() == Friends.HandleDecline(old(View()), from)
      ensures from != me && old(Valid()) ==> Valid()
      ensures friends == old(friends) && OthersStand(old(View()), View(), from)
      ensures from in contacts <==> from in old(contacts) && old(View()).StandingOf(from) != Some(PendingOut)
    {
      AnswerMeans(View(), from);
      if View().StandingOf(from) == Some(PendingOut) {
        contacts := contacts - {from};
      }
    }
  }

  /* What the operations mean for a caller. */

  /** Stands so in the contacts, and passes the gate if accepted. */
  predicate Holds(n: Node, id: Id, standing: Standing) {
    n.StandingOf(id) == Some(standing) && (standing == Accepted ==> id in n.friends)
  }

  /** Everyone but this identity stands as before, in the contacts and at the gate. */
  ghost predicate OthersStand(n: Node, t: Node, id: Id) {
    forall i | i != id :: t.StandingOf(i) == n.StandingOf(i) && (i in t.friends <==> i in n.friends)
  }

  /** Nobody became accepted or asked who was neither, and nobody stopped being one of them. */
  ghost predicate SameWanted(n: Node, t: Node) {
    forall i :: t.Wanted(i) <==> n.Wanted(i)
  }

  predicate Asks(sent: seq<Out>, id: Id) {
    sent != [] && sent[|sent| - 1].to == id && sent[|sent| - 1].msg.Request?
  }

  lemma AddingMeans(n: Node, id: Id, nickname: string, note: string, now: int)
    ensures var t := AddFriend(n, id, nickname, note, now).node;
            && (Sound(n) ==> Sound(t))
            && (id != n.me ==> Holds(t, id, Accepted) && OthersStand(n, t, id))
  {
    if Sound(n) {
      AddingIsSound(n, id, nickname, note, now);
    }
    hide Sound;
  }

  lemma UpdatingMeans(n: Node, id: Id, nickname: Option<string>, note: Option<string>)
    ensures Sound(n) ==> Sound(UpdateFriend(n, id, nickname, note))
  {
    if Sound(n) {
      UpdatingIsSound(n, id, nickname, note);
    }
  }

  lemma RemovingMeans(n: Node, id: Id)
    ensures var t := RemoveFriend(n, id);
            && (Sound(n) ==> Sound(t) && id !in t.friends)
            && id !in t.contacts && OthersStand(n, t, id)
            && (id in n.contacts ==> forall h | h in t.held :: h.sender != id)
  {
    if Sound(n) {
      ForgettingIsSound(n, id);
    }
  }

  lemma {:induction false} NotingMeans(resolving: seq<Lookup>, l: Lookup)
    ensures l in Noted(resolving, l)
    ensures forall g | g in resolving && g.address != l.address :: g in Noted(resolving, l)
  {
    if resolving != [] {
      assert resolving == [resolving[0]] + resolving[1..];
      NotingMeans(resolving[1..], l);
    }
  }

  lemma AcceptingMeans(n: Node, id: Id, nickname: string)
    ensures var t := AcceptFriendRequest(n, id, nickname).node;
            && (Sound(n) ==> Sound(t))
            && (n.StandingOf(id) == Some(PendingIn) ==>
                  Holds(t, id, Accepted) && OthersStand(n, t, id) && t.contacts[id].addedAt == n.contacts[id].addedAt)
  {
    if Sound(n) {
      AcceptingIsSound(n, id, nickname);
    }
    hide Sound;
  }

  lemma RequestingMeans(n: Node, id: Id, note: string, nickname: string, now: int)
    ensures var t := SendFriendRequest(n, id, note, nickname, now);
            && (Sound(n) ==> Sound(t.node))
            && OthersStand(n, t.node, id) && |t.out| <= 1
            && (id != n.me ==>
                  && t.node.Wanted(id)
                  && (t.node.StandingOf(id) == Some(PendingOut) <==> n.StandingOf(id) in {None, Some(PendingOut)})
                  && (t.node.StandingOf(id) == Some(PendingOut) ==> |t.out| == 1 && t.out[0].to == id && t.out[0].msg.Request?))
  {
    if Sound(n) {
      AskingIsSound(n, id, note, nickname, now);
    }
    hide Sound;
    AcceptingMeans(n, id, nickname);
    OneOf(n.StandingOf(id));
  }

  /** Room made for a stranger, or the contact as it is: nobody is wanted more or less. */
  lemma WaitingKeepsWanted(n: Node, id: Id, note: string, now: int)
    requires n.StandingOf(id) != Some(Accepted)
    ensures var t := if n.StandingOf(id).None? then EvictOldestPending(n).Upsert(id, "", note, PendingIn, now) else n;
            && t == n.(contacts := t.contacts, held := t.held) && SameWanted(n, t) && id in t.contacts
            && forall h :: h in t.held ==> h in n.held
  {
    var u := EvictOldestPending(n);
    forall i | i in n.contacts && i !in u.contacts ensures !n.Wanted(i) {}
    hide EvictOldestPending;
  }

  lemma HoldingMeans(n: Node, id: Id, fromTrenchchat: bool, now: int)
    ensures var t, h := HoldMessageRequest(n, id, fromTrenchchat, now), Held(id, now, fromTrenchchat);
            && (Sound(n) ==> Sound(t))
            && t.friends == n.friends && SameWanted(n, t)
            && (id != n.me && n.StandingOf(id) != Some(Accepted) ==> |t.held| <= MAX_HELD_MESSAGES && h in t.held && id in t.contacts)
            && forall g | g in t.held :: g in n.held || g == h
  {
    hide Sound, AddHeld, EvictOldestPending, NotBefore;
    if Sound(n) {
      HoldingIsSound(n, id, fromTrenchchat, now);
    }
    if id != n.me && n.StandingOf(id) != Some(Accepted) {
      var pruned := n.(held := NotBefore(n.held, now - MESSAGE_REQUEST_TTL_SECS));
      WaitingKeepsWanted(pruned, id, "", now);
      var t := if n.StandingOf(id).None? then EvictOldestPending(pruned).Upsert(id, "", "", PendingIn, now) else pruned;
      LatestIsHeld(t.held, Held(id, now, fromTrenchchat));
    }
  }

  /** The newest words are kept, whatever the caps drop. */
  lemma LatestIsHeld(held: seq<Held>, h: Held)
    ensures h in AddHeld(held, h)
  {
    var all := held + [h];
    assert all[..|all| - 1] == held && all[|all| - 1] == h;
    var kept := NewestOf(all, h.sender, MAX_HELD_PER_SENDER);
    assert kept == NewestOf(held, h.sender, MAX_HELD_PER_SENDER - 1) + [h];
    assert kept[|kept| - 1] == h;
    if |kept| > MAX_HELD_MESSAGES {
      var cut := kept[|kept| - MAX_HELD_MESSAGES..];
      assert cut[|cut| - 1] == h;
    }
  }

  lemma DroppingMeans(n: Node, id: Id)
    ensures Sound(n) ==> Sound(DeclineFriendRequest(n, id).node) && Sound(CancelFriendRequest(n, id))
    ensures OthersStand(n, DeclineFriendRequest(n, id).node, id) && OthersStand(n, CancelFriendRequest(n, id), id)
    ensures SameWanted(n, DeclineFriendRequest(n, id).node)
  {
    if Sound(n) {
      DroppingIsSound(n, id);
    }
  }

  lemma RequestMeans(n: Node, from: Id, note: string, now: int)
    ensures var t := HandleRequest(n, from, note, now);
            && (from != n.me && Sound(n) ==> Sound(t.node))
            && SameWanted(n, t.node) && from in t.node.contacts
            && t.node.friends == n.friends + (if n.StandingOf(from) == Some(PendingOut) then {from} else {})
            && t.out == (if n.Wanted(from) then [Out(from, Accept)] else [])
  {
    hide Sound, EvictOldestPending, Cut;
    if from != n.me && Sound(n) {
      HearingIsSound(n, from, Request(note), now);
    }
    OneOf(n.StandingOf(from));
    if n.StandingOf(from).None? {
      WaitingKeepsWanted(n, from, Cut(note, MAX_FRIEND_NOTE_CHARS), now);
    }
  }

  lemma AnswerMeans(n: Node, from: Id)
    ensures from != n.me && Sound(n) ==> Sound(HandleAccept(n, from)) && Sound(HandleDecline(n, from))
    ensures SameWanted(n, HandleAccept(n, from)) && OthersStand(n, HandleAccept(n, from), from) && OthersStand(n, HandleDecline(n, from), from)
  {
    if from != n.me && Sound(n) {
      HearingIsSound(n, from, Accept, 0);
      HearingIsSound(n, from, Decline, 0);
    }
    hide Sound;
    OneOf(n.StandingOf(from));
  }

  lemma HearingMeans(n: Node, from: Id, msg: Wire, now: int)
    ensures var t := Receive(n, from, msg, now);
            && (Sound(n) ==> Sound(t.node))
            && (forall i :: t.node.Wanted(i) ==> n.Wanted(i))
            && t.node.friends == n.friends + (if from != n.me && !msg.Decline? && n.StandingOf(from) == Some(PendingOut) then {from} else {})
            && (t.out == [] || (msg.Request? && t.out == [Out(from, Accept)] && t.node.StandingOf(from) == Some(Accepted)))
  {
    if Sound(n) {
      HearingIsSound(n, from, msg, now);
    }
    hide Sound, EvictOldestPending;
    if from != n.me {
      OneOf(n.StandingOf(from));
      if msg.Request? {
        RequestMeans(n, from, msg.note, now);
      }
    }
  }

  /** What was sent before, followed by what one operation sends. */
  function Sending(sent: seq<Out>, one: Effect): Effect {
    one.(out := sent + one.out)
  }

  lemma OneOf(s: Option<Standing>)
    ensures s.None? || s == Some(Accepted) || s == Some(PendingOut) || s == Some(PendingIn)
  {
    if s.Some? {
      assert s.value.Accepted? || s.value.PendingOut? || s.value.PendingIn?;
    }
  }
}
