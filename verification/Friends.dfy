/** Contacts and the handshake that makes one mutual (trenchchat/core/friends.py). */
module Friends {
  import opened Prelude

  const MAX_PENDING_FRIEND_REQUESTS: nat := 64
  const MAX_HELD_PER_SENDER: nat := 3
  const MAX_HELD_MESSAGES: nat := 128
  const MESSAGE_REQUEST_TTL_SECS: int := 30 * 24 * 3600
  const MAX_FRIEND_NOTE_CHARS: nat := 140

  type Id = int
  type Address = int

  datatype Standing = Accepted | PendingOut | PendingIn

  datatype Contact = Contact(standing: Standing, addedAt: int, nickname: string, note: string)

  /** Words held from someone not accepted; arrival order is list order. */
  datatype Held = Held(sender: Id, receivedAt: int, fromTrenchchat: bool)

  /** A contact to save once an address resolves. */
  datatype Lookup = Lookup(address: Address, nickname: string, note: string)

  datatype Node = Node(
    me: Id,
    filing: bool,                 // a filer takes the held words of a newly accepted peer
    contacts: map<Id, Contact>,
    friends: set<Id>,             // the in-memory gate
    resolving: seq<Lookup>,
    held: seq<Held>)
  {
    function StandingOf(id: Id): Option<Standing> {
      if id in contacts then Some(contacts[id].standing) else None
    }

    predicate Wanted(id: Id) { StandingOf(id) == Some(Accepted) || StandingOf(id) == Some(PendingOut) }

    function InState(standing: Standing): set<Id> {
      set id | id in contacts && contacts[id].standing == standing
    }

    function Upsert(id: Id, nickname: string, note: string, standing: Standing, now: int): Node {
      this.(contacts := contacts[id := Contact(standing, if id in contacts then contacts[id].addedAt else now, nickname, note)])
    }

    function SetStanding(id: Id, standing: Standing): Node {
      if id in contacts then this.(contacts := contacts[id := contacts[id].(standing := standing)]) else this
    }

    function Forget(id: Id): Node { this.(contacts := contacts - {id}) }

    function ClearHeld(id: Id): Node { this.(held := NotFrom(held, id)) }

    /** Whether this peer sent a handshake rather than only words. */
    predicate AskedUs(id: Id) {
      (forall h | h in held :: h.sender != id) || (exists h | h in held :: h.sender == id && h.fromTrenchchat)
    }
  }

  datatype Wire = Request(note: string) | Accept | Decline

  datatype Out = Out(to: Id, msg: Wire)

  datatype Effect = Effect(node: Node, out: seq<Out>)

  function NotFrom(held: seq<Held>, id: Id): (r: seq<Held>)
    ensures forall h :: h in r <==> h in held && h.sender != id
  {
    if held == [] then []
    else
      assert held == [held[0]] + held[1..];
      (if held[0].sender == id then [] else [held[0]]) + NotFrom(held[1..], id)
  }

  /** The last k entries of one sender, and every entry of the others. */
  function NewestOf(held: seq<Held>, id: Id, k: nat): (r: seq<Held>)
    ensures forall h :: h in r ==> h in held
    ensures forall h :: h in held && h.sender != id ==> h in r
    ensures |r| <= |held|
  {
    if held == [] then []
    else
      var last := held[|held| - 1];
      assert held == held[..|held| - 1] + [last];
      if last.sender != id then NewestOf(held[..|held| - 1], id, k) + [last]
      else if k == 0 then NewestOf(held[..|held| - 1], id, 0)
      else NewestOf(held[..|held| - 1], id, k - 1) + [last]
  }

  function CountFrom(held: seq<Held>, id: Id): nat {
    if held == [] then 0 else (if held[0].sender == id then 1 else 0) + CountFrom(held[1..], id)
  }

  function NotBefore(held: seq<Held>, time: int): (r: seq<Held>)
    ensures forall h :: h in r <==> h in held && h.receivedAt >= time
  {
    if held == [] then []
    else
      assert held == [held[0]] + held[1..];
      (if held[0].receivedAt < time then [] else [held[0]]) + NotBefore(held[1..], time)
  }

  function AddHeld(held: seq<Held>, h: Held): (r: seq<Held>)
    ensures |r| <= MAX_HELD_MESSAGES
    ensures forall g :: g in r ==> g in held || g == h
  {
    var capped := NewestOf(held + [h], h.sender, MAX_HELD_PER_SENDER);
    if |capped| <= MAX_HELD_MESSAGES then capped else capped[|capped| - MAX_HELD_MESSAGES..]
  }

  function Cut(text: string, limit: nat): string {
    if |text| <= limit then text else text[..limit]
  }

  /* A full queue of unanswered requests drops its oldest. */

  function PendingSince(n: Node, time: int): set<Id> {
    set id | id in n.InState(PendingIn) && n.contacts[id].addedAt == time
  }

  /** The pending request added first; of several added at once, one fixed choice. */
  function OldestPending(n: Node): (id: Id)
    requires n.InState(PendingIn) != {}
    ensures id in n.InState(PendingIn)
    ensures forall other | other in n.InState(PendingIn) :: n.contacts[id].addedAt <= n.contacts[other].addedAt
  {
    var times := set p | p in n.InState(PendingIn) :: n.contacts[p].addedAt;
    assert n.contacts[Least(n.InState(PendingIn))].addedAt in times;
    var first := Least(times);
    assert PendingSince(n, first) != {} by {
      var p :| p in n.InState(PendingIn) && n.contacts[p].addedAt == first;
      assert p in PendingSince(n, first);
    }
    assert forall p | p in n.InState(PendingIn) :: n.contacts[p].addedAt in times;
    Least(PendingSince(n, first))
  }

  function EvictOldestPending(n: Node): (t: Node)
    ensures |t.InState(PendingIn)| < MAX_PENDING_FRIEND_REQUESTS
    ensures t == n.(contacts := t.contacts, held := t.held)
    ensures forall id :: id in t.contacts ==> id in n.contacts && t.contacts[id] == n.contacts[id]
    ensures forall id :: id in n.contacts && id !in t.contacts ==> n.contacts[id].standing == PendingIn
    ensures forall h :: h in t.held ==> h in n.held
    decreases |n.InState(PendingIn)|
  {
    if |n.InState(PendingIn)| < MAX_PENDING_FRIEND_REQUESTS then n
    else
      var oldest := OldestPending(n);
      var next := n.Forget(oldest).ClearHeld(oldest);
      assert next.InState(PendingIn) == n.InState(PendingIn) - {oldest};
      EvictOldestPending(next)
  }

  /* Local operations. */

  function Filed(n: Node, id: Id): Node {
    if n.filing then n.ClearHeld(id) else n
  }

  function Befriend(n: Node, id: Id): Node { n.(friends := n.friends + {id}) }

  function AddFriend(n: Node, id: Id, nickname: string, note: string, now: int): Effect {
    if id == n.me then Effect(n, [])
    else
      var t := Befriend(n.Upsert(id, nickname, note, Accepted, now), id);
      Effect(Filed(t, id), if n.StandingOf(id) == Some(PendingIn) && n.AskedUs(id) then [Out(id, Accept)] else [])
  }

  function UpdateFriend(n: Node, id: Id, nickname: Option<string>, note: Option<string>): Node {
    if id !in n.contacts then n
    else
      var c := n.contacts[id];
      n.(contacts := n.contacts[id := c.(nickname := nickname.GetOr(c.nickname), note := note.GetOr(c.note))])
  }

  function RemoveFriend(n: Node, id: Id): Node {
    if id !in n.contacts then n
    else
      var t := n.Forget(id).ClearHeld(id);
      t.(friends := t.friends - {id})
  }

  function Noted(resolving: seq<Lookup>, l: Lookup): seq<Lookup> {
    if resolving == [] then [l]
    else if resolving[0].address == l.address then [l] + resolving[1..]
    else [resolving[0]] + Noted(resolving[1..], l)
  }

  function Unnoted(resolving: seq<Lookup>, a: Address): seq<Lookup> {
    if resolving == [] then []
    else (if resolving[0].address == a then [] else [resolving[0]]) + Unnoted(resolving[1..], a)
  }

  /** recalled: the identity behind the address, if its announce has been heard. */
  function AddAddress(n: Node, l: Lookup, recalled: Option<Id>, now: int): Effect {
    if recalled == Some(n.me) then Effect(n, [])
    else if recalled.None? then Effect(n.(resolving := Noted(n.resolving, l)), [])
    else AddFriend(n, recalled.value, l.nickname, l.note, now)
  }

  /** Finishes every address whose identity has since been recalled. */
  function Resolve(n: Node, pending: seq<Lookup>, recalls: map<Address, Id>, now: int): Effect
    decreases |pending|
  {
    if pending == [] then Effect(n, [])
    else if pending[0].address !in recalls then Resolve(n, pending[1..], recalls, now)
    else
      var l, id := pending[0], recalls[pending[0].address];
      var popped := n.(resolving := Unnoted(n.resolving, l.address));
      var one := AddFriend(popped, id, l.nickname, l.note, now);
      var rest := Resolve(one.node, pending[1..], recalls, now);
      Effect(rest.node, one.out + rest.out)
  }

  function AcceptFriendRequest(n: Node, id: Id, nickname: string): Effect {
    if n.StandingOf(id) != Some(PendingIn) then Effect(n, [])
    else
      var c := n.contacts[id];
      var t := Befriend(n.Upsert(id, if nickname != "" then nickname else c.nickname, c.note, Accepted, 0), id);
      Effect(Filed(t, id), if n.AskedUs(id) then [Out(id, Accept)] else [])
  }

  function SendFriendRequest(n: Node, id: Id, note: string, nickname: string, now: int): Effect {
    if id == n.me || n.StandingOf(id) == Some(Accepted) then Effect(n, [])
    else if n.StandingOf(id) == Some(PendingIn) then AcceptFriendRequest(n, id, nickname)
    else Effect(n.Upsert(id, nickname, note, PendingOut, now), [Out(id, Request(Cut(note, MAX_FRIEND_NOTE_CHARS)))])
  }

  function HoldMessageRequest(n: Node, id: Id, fromTrenchchat: bool, now: int): Node {
    if id == n.me || n.StandingOf(id) == Some(Accepted) then n
    else
      var pruned := n.(held := NotBefore(n.held, now - MESSAGE_REQUEST_TTL_SECS));
      var t := if n.StandingOf(id).None? then EvictOldestPending(pruned).Upsert(id, "", "", PendingIn, now) else pruned;
      t.(held := AddHeld(t.held, Held(id, now, fromTrenchchat)))
  }

  function DeclineFriendRequest(n: Node, id: Id): Effect {
    if n.StandingOf(id) != Some(PendingIn) then Effect(n, [])
    else Effect(n.Forget(id).ClearHeld(id), if n.AskedUs(id) then [Out(id, Decline)] else [])
  }

  function CancelFriendRequest(n: Node, id: Id): Node {
    if n.StandingOf(id) != Some(PendingOut) then n else n.Forget(id)
  }

  /* What a peer sends. */

  function HandleRequest(n: Node, from: Id, note: string, now: int): Effect {
    match n.StandingOf(from)
    case Some(Accepted) => Effect(n, [Out(from, Accept)])
    case Some(PendingOut) => Effect(Befriend(n.SetStanding(from, Accepted), from), [Out(from, Accept)])
    case Some(PendingIn) => Effect(n, [])
    case None => Effect(EvictOldestPending(n).Upsert(from, "", Cut(note, MAX_FRIEND_NOTE_CHARS), PendingIn, now), [])
  }

  function HandleAccept(n: Node, from: Id): Node {
    if n.StandingOf(from) != Some(PendingOut) then n else Befriend(n.SetStanding(from, Accepted), from)
  }

  function HandleDecline(n: Node, from: Id): Node {
    if n.StandingOf(from) != Some(PendingOut) then n else n.Forget(from)
  }

  function Receive(n: Node, from: Id, msg: Wire, now: int): Effect {
    if from == n.me then Effect(n, [])
    else
      match msg
      case Request(note) => HandleRequest(n, from, note, now)
      case Accept => Effect(HandleAccept(n, from), [])
      case Decline => Effect(HandleDecline(n, from), [])
  }

  /* Runs. */

  datatype Event =
    | Add(id: Id, nickname: string, note: string, now: int)
    | Update(id: Id, newNickname: Option<string>, newNote: Option<string>)
    | Remove(id: Id)
    | AddLxmf(lookup: Lookup, recalled: Option<Id>, now: int)
    | Tick(recalls: map<Address, Id>, now: int)
    | Ask(id: Id, note: string, nickname: string, now: int)
    | AcceptAsked(id: Id, nickname: string)
    | Refuse(id: Id)
    | Cancel(id: Id)
    | Hold(id: Id, fromTrenchchat: bool, now: int)
    | TakeHeld(id: Id)
    | Heard(id: Id, msg: Wire, now: int)

  function Step(n: Node, e: Event): Effect {
    match e
    case Add(id, nickname, note, now) => AddFriend(n, id, nickname, note, now)
    case Update(id, nickname, note) => Effect(UpdateFriend(n, id, nickname, note), [])
    case Remove(id) => Effect(RemoveFriend(n, id), [])
    case AddLxmf(lookup, recalled, now) => AddAddress(n, lookup, recalled, now)
    case Tick(recalls, now) => Resolve(n, n.resolving, recalls, now)
    case Ask(id, note, nickname, now) => SendFriendRequest(n, id, note, nickname, now)
    case AcceptAsked(id, nickname) => AcceptFriendRequest(n, id, nickname)
    case Refuse(id) => DeclineFriendRequest(n, id)
    case Cancel(id) => Effect(CancelFriendRequest(n, id), [])
    case Hold(id, fromTrenchchat, now) => Effect(HoldMessageRequest(n, id, fromTrenchchat, now), [])
    case TakeHeld(id) => Effect(n.ClearHeld(id), [])
    case Heard(id, msg, now) => Receive(n, id, msg, now)
  }

  function Run(n: Node, es: seq<Event>): Node
  {
    if es == [] then n else Step(Run(n, es[..|es| - 1]), es[|es| - 1]).node
  }
}
