/** Whatever peers send, only the local user makes a friend. */
module FriendsConsent {
  import opened Prelude
  import opened Friends

  /** The in-memory gate is the stored one, and what strangers can fill is bounded. */
  ghost predicate Sound(n: Node) {
    && n.friends == n.InState(Accepted)
    && |n.InState(PendingIn)| <= MAX_PENDING_FRIEND_REQUESTS
    && WithinCaps(n.held)
    && n.me !in n.contacts
  }

  /** A stranger gets to say a little, and all strangers together not much. */
  ghost predicate WithinCaps(held: seq<Held>) {
    |held| <= MAX_HELD_MESSAGES && forall id :: CountFrom(held, id) <= MAX_HELD_PER_SENDER
  }

  lemma {:induction false} CountAdds(a: seq<Held>, b: seq<Held>, id: Id)
    ensures CountFrom(a + b, id) == CountFrom(a, id) + CountFrom(b, id)
  {
    if a == [] {
      assert a + b == b;
    } else {
      assert (a + b)[1..] == a[1..] + b;
      CountAdds(a[1..], b, id);
    }
  }

  lemma {:induction false} NewestCounts(held: seq<Held>, id: Id, k: nat, other: Id)
    ensures CountFrom(NewestOf(held, id, k), id) <= k
    ensures other != id ==> CountFrom(NewestOf(held, id, k), other) == CountFrom(held, other)
  {
    if held != [] {
      var before, last := held[..|held| - 1], held[|held| - 1];
      assert held == before + [last];
      NewestCounts(before, id, if last.sender == id && k > 0 then k - 1 else k, other);
      var kept := NewestOf(before, id, if last.sender == id && k > 0 then k - 1 else k);
      CountAdds(kept, [last], id);
      CountAdds(kept, [last], other);
      CountAdds(before, [last], other);
      assert [last][1..] == [];
    }
  }

  /** Holding one more message keeps every sender and the whole within their limits, by dropping the oldest. */
  lemma AddingKeepsCaps(held: seq<Held>, h: Held)
    requires WithinCaps(held)
    ensures WithinCaps(AddHeld(held, h))
  {
    var capped := NewestOf(held + [h], h.sender, MAX_HELD_PER_SENDER);
    forall id ensures CountFrom(AddHeld(held, h), id) <= MAX_HELD_PER_SENDER {
      NewestCounts(held + [h], h.sender, MAX_HELD_PER_SENDER, id);
      CountAdds(held, [h], id);
      assert [h][1..] == [];
      if |capped| > MAX_HELD_MESSAGES {
        var cut := |capped| - MAX_HELD_MESSAGES;
        assert capped == capped[..cut] + capped[cut..];
        CountAdds(capped[..cut], capped[cut..], id);
      }
    }
  }

  lemma {:induction false} FilteringCounts(held: seq<Held>, who: Id, time: int, id: Id)
    ensures CountFrom(NotFrom(held, who), id) <= CountFrom(held, id)
    ensures CountFrom(NotBefore(held, time), id) <= CountFrom(held, id)
  {
    if held != [] {
      FilteringCounts(held[1..], who, time, id);
      var kept := if held[0].sender == who then [] else [held[0]];
      var late := if held[0].receivedAt < time then [] else [held[0]];
      CountAdds(kept, NotFrom(held[1..], who), id);
      CountAdds(late, NotBefore(held[1..], time), id);
      assert [held[0]][1..] == [];
    }
  }

  lemma FilteringKeepsCaps(held: seq<Held>, who: Id, time: int)
    requires WithinCaps(held)
    ensures WithinCaps(NotFrom(held, who)) && WithinCaps(NotBefore(held, time))
  {
    FilteringShortens(held, who, time);
    forall id ensures CountFrom(NotFrom(held, who), id) <= MAX_HELD_PER_SENDER && CountFrom(NotBefore(held, time), id) <= MAX_HELD_PER_SENDER {
      FilteringCounts(held, who, time, id);
    }
  }

  /** Any change that keeps the gate equal and adds no pending request keeps a node sound. */
  lemma StaysSound(n: Node, t: Node)
    requires Sound(n) && t.me == n.me && t.me !in t.contacts
    requires t.friends == t.InState(Accepted)
    requires t.InState(PendingIn) <= n.InState(PendingIn) && WithinCaps(t.held)
    ensures Sound(t)
  {
    CardinalityOfSubset(t.InState(PendingIn), n.InState(PendingIn));
  }

  lemma {:induction false} FilteringShortens(held: seq<Held>, id: Id, time: int)
    ensures |NotFrom(held, id)| <= |held| && |NotBefore(held, time)| <= |held|
  {
    if held != [] {
      FilteringShortens(held[1..], id, time);
    }
  }

  lemma ForgettingIsSound(n: Node, id: Id)
    requires Sound(n)
    ensures id !in n.friends ==> Sound(n.Forget(id)) && Sound(n.Forget(id).ClearHeld(id))
    ensures Sound(n.ClearHeld(id))
    ensures Sound(RemoveFriend(n, id))
  {
    FilteringKeepsCaps(n.held, id, 0);
    if id !in n.friends {
      StaysSound(n, n.Forget(id));
      StaysSound(n, n.Forget(id).ClearHeld(id));
    }
    StaysSound(n, n.ClearHeld(id));
    if id in n.contacts {
      StaysSound(n, RemoveFriend(n, id));
    }
  }

  lemma {:induction false} EvictionIsSound(n: Node)
    requires Sound(n)
    ensures Sound(EvictOldestPending(n))
    decreases |n.InState(PendingIn)|
  {
    if |n.InState(PendingIn)| >= MAX_PENDING_FRIEND_REQUESTS {
      var oldest := OldestPending(n);
      ForgettingIsSound(n, oldest);
      var next := n.Forget(oldest).ClearHeld(oldest);
      assert next.InState(PendingIn) == n.InState(PendingIn) - {oldest};
      EvictionIsSound(next);
    }
  }

  lemma BefriendingIsSound(n: Node, t: Node, id: Id)
    requires Sound(n) && id != n.me
    requires id in t.contacts && t.contacts[id].standing == Accepted
    requires t == n.(contacts := n.contacts[id := t.contacts[id]], friends := n.friends + {id})
    ensures Sound(t) && Sound(Filed(t, id))
  {
    assert t.InState(Accepted) == n.InState(Accepted) + {id};
    StaysSound(n, t);
    ForgettingIsSound(t, id);
  }

  lemma WaitingIsSound(n: Node, id: Id, c: Contact)
    requires Sound(n) && id != n.me && id !in n.friends
    requires c.standing == PendingOut || (c.standing == PendingIn && |n.InState(PendingIn)| < MAX_PENDING_FRIEND_REQUESTS)
    ensures Sound(n.(contacts := n.contacts[id := c]))
  {
    var t := n.(contacts := n.contacts[id := c]);
    assert t.InState(Accepted) == n.InState(Accepted);
    if c.standing == PendingOut {
      StaysSound(n, t);
    } else {
      CardinalityOfSubset(t.InState(PendingIn), n.InState(PendingIn) + {id});
    }
  }

  lemma {:induction false} ResolvingIsSound(n: Node, pending: seq<Lookup>, recalls: map<Address, Id>, now: int)
    requires Sound(n)
    ensures Sound(Resolve(n, pending, recalls, now).node)
    decreases |pending|
  {
    if pending != [] {
      if pending[0].address !in recalls {
        ResolvingIsSound(n, pending[1..], recalls, now);
      } else {
        var popped := n.(resolving := Unnoted(n.resolving, pending[0].address));
        assert Sound(popped);
        AddingIsSound(popped, recalls[pending[0].address], pending[0].nickname, pending[0].note, now);
        ResolvingIsSound(AddFriend(popped, recalls[pending[0].address], pending[0].nickname, pending[0].note, now).node,
                         pending[1..], recalls, now);
      }
    }
  }

  lemma AddingIsSound(n: Node, id: Id, nickname: string, note: string, now: int)
    requires Sound(n)
    ensures Sound(AddFriend(n, id, nickname, note, now).node)
  {
    if id != n.me {
      BefriendingIsSound(n, Befriend(n.Upsert(id, nickname, note, Accepted, now), id), id);
    }
  }

  lemma AcceptingIsSound(n: Node, id: Id, nickname: string)
    requires Sound(n)
    ensures Sound(AcceptFriendRequest(n, id, nickname).node)
  {
    if n.StandingOf(id) == Some(PendingIn) {
      var c := n.contacts[id];
      BefriendingIsSound(n, Befriend(n.Upsert(id, if nickname != "" then nickname else c.nickname, c.note, Accepted, 0), id), id);
    }
  }

  lemma HoldingIsSound(n: Node, id: Id, fromTrenchchat: bool, now: int)
    requires Sound(n)
    ensures Sound(HoldMessageRequest(n, id, fromTrenchchat, now))
  {
    if id != n.me && n.StandingOf(id) != Some(Accepted) {
      FilteringKeepsCaps(n.held, id, now - MESSAGE_REQUEST_TTL_SECS);
      var pruned := n.(held := NotBefore(n.held, now - MESSAGE_REQUEST_TTL_SECS));
      StaysSound(n, pruned);
      if n.StandingOf(id).None? {
        EvictionIsSound(pruned);
        WaitingIsSound(EvictOldestPending(pruned), id, Contact(PendingIn, now, "", ""));
      }
      var t := if n.StandingOf(id).None? then EvictOldestPending(pruned).Upsert(id, "", "", PendingIn, now) else pruned;
      AddingKeepsCaps(t.held, Held(id, now, fromTrenchchat));
      StaysSound(t, t.(held := AddHeld(t.held, Held(id, now, fromTrenchchat))));
    }
  }

  lemma HearingIsSound(n: Node, from: Id, msg: Wire, now: int)
    requires Sound(n)
    ensures Sound(Receive(n, from, msg, now).node)
  {
    if from != n.me {
      match msg {
        case Request(note) =>
          if n.StandingOf(from) == Some(PendingOut) {
            BefriendingIsSound(n, Befriend(n.SetStanding(from, Accepted), from), from);
          } else if n.StandingOf(from).None? {
            EvictionIsSound(n);
            WaitingIsSound(EvictOldestPending(n), from, Contact(PendingIn, now, "", Cut(note, MAX_FRIEND_NOTE_CHARS)));
          }
        case Accept =>
          if n.StandingOf(from) == Some(PendingOut) {
            BefriendingIsSound(n, Befriend(n.SetStanding(from, Accepted), from), from);
          }
        case Decline =>
          ForgettingIsSound(n, from);
      }
    }
  }

  /** Every operation, local or heard from a peer, keeps a node sound. */
  lemma StepIsSound(n: Node, e: Event)
    requires Sound(n)
    ensures Sound(Step(n, e).node)
  {
    hide Sound, Resolve, AddFriend, AcceptFriendRequest, HoldMessageRequest, Receive;
    match e {
      case Add(id, nickname, note, now) => AddingIsSound(n, id, nickname, note, now);
      case Update(id, nickname, note) => UpdatingIsSound(n, id, nickname, note);
      case Remove(id) => ForgettingIsSound(n, id);
      case AddLxmf(l, recalled, now) =>
        ResolvingLaterIsSound(n, l);
        if recalled.Some? {
          AddingIsSound(n, recalled.value, l.nickname, l.note, now);
        }
      case Tick(recalls, now) => ResolvingIsSound(n, n.resolving, recalls, now);
      case Ask(id, note, nickname, now) => AskingIsSound(n, id, note, nickname, now);
      case AcceptAsked(id, nickname) => AcceptingIsSound(n, id, nickname);
      case Refuse(id) => DroppingIsSound(n, id);
      case Cancel(id) => DroppingIsSound(n, id);
      case Hold(id, fromTrenchchat, now) => HoldingIsSound(n, id, fromTrenchchat, now);
      case TakeHeld(id) => ForgettingIsSound(n, id);
      case Heard(id, msg, now) => HearingIsSound(n, id, msg, now);
    }
  }

  lemma UpdatingIsSound(n: Node, id: Id, nickname: Option<string>, note: Option<string>)
    requires Sound(n)
    ensures Sound(UpdateFriend(n, id, nickname, note))
  {
    var t := UpdateFriend(n, id, nickname, note);
    assert t.InState(Accepted) == n.InState(Accepted) && t.InState(PendingIn) == n.InState(PendingIn);
  }

  lemma ResolvingLaterIsSound(n: Node, l: Lookup)
    requires Sound(n)
    ensures Sound(n.(resolving := Noted(n.resolving, l)))
  {
  }

  lemma DroppingIsSound(n: Node, id: Id)
    requires Sound(n)
    ensures Sound(DeclineFriendRequest(n, id).node) && Sound(CancelFriendRequest(n, id))
  {
    ForgettingIsSound(n, id);
  }

  lemma AskingIsSound(n: Node, id: Id, note: string, nickname: string, now: int)
    requires Sound(n)
    ensures Sound(SendFriendRequest(n, id, note, nickname, now).node)
  {
    AcceptingIsSound(n, id, nickname);
    if id != n.me && (n.StandingOf(id).None? || n.StandingOf(id) == Some(PendingOut)) {
      WaitingIsSound(n, id, n.Upsert(id, nickname, note, PendingOut, now).contacts[id]);
    }
  }

  /** In every reachable state the gate that direct messages pass is exactly the
      stored accepted contacts, and strangers hold a bounded share of the storage. */
  lemma {:induction false} RunIsSound(n: Node, es: seq<Event>)
    requires Sound(n)
    ensures Sound(Run(n, es))
    decreases |es|
  {
    if es != [] {
      RunIsSound(n, es[..|es| - 1]);
      StepIsSound(Run(n, es[..|es| - 1]), es[|es| - 1]);
    }
  }

  /* Consent. */

  /** The local user's own doing that this identity is wanted: adding it, asking
      it, accepting its request, or an address they saved that now resolves to it. */
  predicate Names(n: Node, e: Event, id: Id) {
    match e
    case Add(i, _, _, _) => i == id
    case Ask(i, _, _, _) => i == id
    case AcceptAsked(i, _) => i == id
    case AddLxmf(_, recalled, _) => recalled == Some(id)
    case Tick(recalls, _) => exists l | l in n.resolving :: l.address in recalls && recalls[l.address] == id
    case _ => false
  }

  lemma {:induction false} ResolvingNeedsConsent(n: Node, pending: seq<Lookup>, recalls: map<Address, Id>, now: int, id: Id)
    requires Resolve(n, pending, recalls, now).node.Wanted(id)
    ensures n.Wanted(id) || exists l | l in pending :: l.address in recalls && recalls[l.address] == id
    decreases |pending|
  {
    if pending != [] {
      var l := pending[0];
      if l.address !in recalls {
        ResolvingNeedsConsent(n, pending[1..], recalls, now, id);
      } else {
        var popped := n.(resolving := Unnoted(n.resolving, l.address));
        ResolvingNeedsConsent(AddFriend(popped, recalls[l.address], l.nickname, l.note, now).node, pending[1..], recalls, now, id);
        assert l in pending;
      }
    }
  }

  /** One step makes an identity wanted only by the local user naming it. */
  lemma WantingNeedsConsent(n: Node, e: Event, id: Id)
    requires Step(n, e).node.Wanted(id)
    ensures n.Wanted(id) || Names(n, e, id)
  {
    if e.Tick? {
      ResolvingNeedsConsent(n, n.resolving, e.recalls, e.now, id);
    }
  }

  /** Consent given at one step of a run, with the contact never deleted since. */
  ghost predicate ConsentStands(n: Node, es: seq<Event>, id: Id, k: nat) {
    && k < |es| && Names(Run(n, es[..k]), es[k], id)
    && forall j | k < j <= |es| :: id in Run(n, es[..j]).contacts
  }

  /** Starting with no contacts, whoever a node holds as accepted, or has asked,
      was named by its own user after that contact was last deleted, whatever peers sent. */
  lemma {:induction false} AcceptanceNeedsConsent(n: Node, es: seq<Event>, id: Id)
    requires n.contacts == map[]
    requires Run(n, es).Wanted(id)
    ensures exists k :: ConsentStands(n, es, id, k)
    decreases |es|
  {
    if es != [] {
      var before := es[..|es| - 1];
      var s := Run(n, before);
      assert es[..|es|] == es;
      WantingNeedsConsent(s, es[|es| - 1], id);
      if Names(s, es[|es| - 1], id) {
        assert ConsentStands(n, es, id, |es| - 1);
      } else {
        AcceptanceNeedsConsent(n, before, id);
        var k :| ConsentStands(n, before, id, k);
        assert forall j | 0 <= j <= |before| :: before[..j] == es[..j];
        assert ConsentStands(n, es, id, k);
      }
    }
  }

  /** Only the local user's removal ends an accepted friendship: no peer, no
      full queue and no other local operation does. */
  lemma OnlyRemovalEndsIt(n: Node, e: Event, id: Id)
    requires n.StandingOf(id) == Some(Accepted)
    ensures Step(n, e).node.StandingOf(id) != Some(Accepted) <==> e == Remove(id)
  {
    if e.Tick? {
      ResolvingKeepsFriends(n, n.resolving, e.recalls, e.now, id);
    }
  }

  lemma {:induction false} ResolvingKeepsFriends(n: Node, pending: seq<Lookup>, recalls: map<Address, Id>, now: int, id: Id)
    requires n.StandingOf(id) == Some(Accepted)
    ensures Resolve(n, pending, recalls, now).node.StandingOf(id) == Some(Accepted)
    decreases |pending|
  {
    if pending != [] {
      var l := pending[0];
      if l.address !in recalls {
        ResolvingKeepsFriends(n, pending[1..], recalls, now, id);
      } else {
        var popped := n.(resolving := Unnoted(n.resolving, l.address));
        ResolvingKeepsFriends(AddFriend(popped, recalls[l.address], l.nickname, l.note, now).node, pending[1..], recalls, now, id);
      }
    }
  }
}
