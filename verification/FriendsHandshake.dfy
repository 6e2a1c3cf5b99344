/** Two nodes shaking hands over a network that may reorder but delivers. */
module FriendsHandshake {
  import opened Prelude
  import opened Friends

  /** A message between the two, and whether it is on its way to the first of them. */
  datatype Packet = Packet(toFirst: bool, msg: Wire)

  /** wire: the messages in flight, in no meaningful order. */
  datatype Pair = Pair(first: Node, second: Node, wire: seq<Packet>)
  {
    function At(side: bool): Node { if side then first else second }

    function With(side: bool, n: Node): Pair {
      if side then this.(first := n) else this.(second := n)
    }

    /** How one of them stands with the other. */
    function Towards(side: bool): Option<Standing> { At(side).StandingOf(At(!side).me) }
  }

  /** What one node sends joins the network when it is for the other; the rest leaves the picture. */
  function Posted(wire: seq<Packet>, out: seq<Out>, peer: Id, toFirst: bool): seq<Packet>
    decreases |out|
  {
    if out == [] then wire
    else Posted(if out[0].to == peer then wire + [Packet(toFirst, out[0].msg)] else wire, out[1..], peer, toFirst)
  }

  function Act(p: Pair, side: bool, e: Event): Pair {
    var one := Step(p.At(side), e);
    p.With(side, one.node).(wire := Posted(p.wire, one.out, p.At(!side).me, !side))
  }

  /** Either node does something of its own, or some message in flight arrives. */
  datatype Move = Local(side: bool, event: Event) | Deliver(index: nat, now: int)

  function Next(p: Pair, m: Move): Pair {
    match m
    case Local(side, e) => Act(p, side, e)
    case Deliver(i, now) =>
      if i >= |p.wire| then p
      else Act(p.(wire := p.wire[..i] + p.wire[i + 1..]), p.wire[i].toFirst, Heard(p.At(!p.wire[i].toFirst).me, p.wire[i].msg, now))
  }

  function Run(p: Pair, ms: seq<Move>): Pair
    decreases |ms|
  {
    if ms == [] then p else Run(Next(p, ms[0]), ms[1..])
  }

  /** Anything about other identities, and towards the peer only requests,
      acceptances and local edits of its nickname and note. */
  predicate Fair(peer: Id, e: Event) {
    match e
    case Ask(_, _, _, _) => true
    case AcceptAsked(_, _) => true
    case Update(_, _, _) => true
    case TakeHeld(_) => true
    case Add(id, _, _, _) => id != peer
    case Remove(id) => id != peer
    case AddLxmf(_, recalled, _) => recalled != Some(peer)
    case Tick(recalls, _) => peer !in recalls.Values
    case Refuse(id) => id != peer
    case Cancel(id) => id != peer
    case Hold(id, _, _) => id != peer
    case Heard(id, _, _) => id != peer
  }

  predicate FairMove(p: Pair, m: Move) {
    m.Local? ==> Fair(p.At(!m.side).me, m.event)
  }

  predicate FairRun(p: Pair, ms: seq<Move>)
    decreases |ms|
  {
    ms == [] || (FairMove(p, ms[0]) && FairRun(Next(p, ms[0]), ms[1..]))
  }

  /* The invariant. */

  /** What the standing at one end and the messages from it say about the other. */
  predicate Half(p: Pair, side: bool) {
    var mine, theirs := p.Towards(side), p.Towards(!side);
    && (forall q | q in p.wire && q.toFirst == !side ::
          && !q.msg.Decline?
          && (q.msg.Accept? ==> mine == Some(Accepted))
          && (q.msg.Request? ==> mine == Some(Accepted) || mine == Some(PendingOut)))
    && (mine == Some(Accepted) && theirs != Some(Accepted) ==> theirs == Some(PendingOut) && Packet(!side, Accept) in p.wire)
    && (mine == Some(PendingIn) ==> theirs == Some(PendingOut))
    && NoWordsFrom(p.At(side), p.At(!side).me)
  }

  predicate NoWordsFrom(n: Node, peer: Id) {
    forall h | h in n.held :: h.sender != peer
  }

  predicate Asked(wire: seq<Packet>) {
    exists q | q in wire :: q.msg.Request?
  }

  predicate Shaking(p: Pair) {
    && p.first.me != p.second.me
    && Half(p, true) && Half(p, false)
    && (p.Towards(true) == Some(PendingOut) && p.Towards(false) == Some(PendingOut) ==> Asked(p.wire))
  }

  /* One step of one node, as its peer sees it. */

  predicate NothingFor(peer: Id, out: seq<Out>) {
    forall o | o in out :: o.to != peer
  }

  lemma {:induction false} NothingPosted(wire: seq<Packet>, out: seq<Out>, peer: Id, toFirst: bool)
    requires NothingFor(peer, out)
    ensures Posted(wire, out, peer, toFirst) == wire
    decreases |out|
  {
    if out != [] {
      assert out[0] in out;
      assert forall o | o in out[1..] :: o in out;
      NothingPosted(wire, out[1..], peer, toFirst);
    }
  }

  lemma {:induction false} ResolvingOthers(n: Node, pending: seq<Lookup>, recalls: map<Address, Id>, now: int, peer: Id)
    requires peer !in recalls.Values && NoWordsFrom(n, peer)
    ensures var one := Resolve(n, pending, recalls, now);
            && one.node.me == n.me && one.node.StandingOf(peer) == n.StandingOf(peer)
            && NothingFor(peer, one.out) && NoWordsFrom(one.node, peer)
    decreases |pending|
  {
    if pending != [] {
      var l := pending[0];
      if l.address !in recalls {
        ResolvingOthers(n, pending[1..], recalls, now, peer);
      } else {
        assert recalls[l.address] in recalls.Values;
        var popped := n.(resolving := Unnoted(n.resolving, l.address));
        ResolvingOthers(AddFriend(popped, recalls[l.address], l.nickname, l.note, now).node, pending[1..], recalls, now, peer);
      }
    }
  }

  /** A fair step leaves the peer as it stood, drops its unanswered request for
      a newer stranger's, asks it, or accepts its request and says so. */
  predicate FairTo(peer: Id, n: Node, one: Effect) {
    var was, next := n.StandingOf(peer), one.node.StandingOf(peer);
    && one.node.me == n.me && NoWordsFrom(one.node, peer)
    && (|| (next == was && NothingFor(peer, one.out))
        || (was == Some(PendingIn) && next.None? && NothingFor(peer, one.out))
        || ((was.None? || was == Some(PendingOut)) && next == Some(PendingOut)
            && |one.out| == 1 && one.out[0].to == peer && one.out[0].msg.Request?)
        || (was == Some(PendingIn) && next == Some(Accepted) && one.out == [Out(peer, Accept)]))
  }

  lemma AskingStep(n: Node, id: Id, note: string, nickname: string, now: int, peer: Id)
    requires NoWordsFrom(n, peer) && peer != n.me
    ensures FairTo(peer, n, SendFriendRequest(n, id, note, nickname, now))
  {
    if id == peer && n.StandingOf(id) == Some(PendingIn) {
      assert n.AskedUs(peer);
    } else if id == peer && n.StandingOf(id) != Some(Accepted) {
      assert n.StandingOf(id).None? || n.StandingOf(id).value.PendingOut?;
      assert SendFriendRequest(n, id, note, nickname, now).out[0].msg.Request?;
    }
  }

  lemma HoldingStep(n: Node, id: Id, fromTrenchchat: bool, now: int, peer: Id)
    requires NoWordsFrom(n, peer) && peer != id
    ensures FairTo(peer, n, Effect(HoldMessageRequest(n, id, fromTrenchchat, now), []))
  {
  }

  lemma FairStep(n: Node, e: Event, peer: Id)
    requires Fair(peer, e) && NoWordsFrom(n, peer) && peer != n.me
    ensures FairTo(peer, n, Step(n, e))
  {
    hide Resolve, SendFriendRequest, HoldMessageRequest;
    match e {
      case Tick(recalls, now) => ResolvingOthers(n, n.resolving, recalls, now, peer);
      case Ask(id, note, nickname, now) => AskingStep(n, id, note, nickname, now, peer);
      case Hold(id, fromTrenchchat, now) => HoldingStep(n, id, fromTrenchchat, now, peer);
      case _ =>
    }
  }

  /** What hearing from the peer does. */
  lemma HearingStep(n: Node, peer: Id, msg: Wire, now: int)
    requires peer != n.me && NoWordsFrom(n, peer) && !msg.Decline?
    ensures var one := Step(n, Heard(peer, msg, now));
            var was, next := n.StandingOf(peer), one.node.StandingOf(peer);
            && one.node.me == n.me && NoWordsFrom(one.node, peer)
            && (msg.Accept? ==> one.out == [] && next == if was == Some(PendingOut) then Some(Accepted) else was)
            && (msg.Request? ==>
                  if was == Some(Accepted) || was == Some(PendingOut) then next == Some(Accepted) && one.out == [Out(peer, Accept)]
                  else next == Some(PendingIn) && one.out == [])
  {
  }

  /* The invariant is kept. */

  lemma OnePosted(wire: seq<Packet>, out: seq<Out>, peer: Id, toFirst: bool)
    requires |out| == 1 && out[0].to == peer
    ensures Posted(wire, out, peer, toFirst) == wire + [Packet(toFirst, out[0].msg)]
  {
    assert out == [out[0]] && out[1..] == [];
  }

  lemma FairStepKeeps(p: Pair, side: bool, e: Event)
    requires Shaking(p) && Fair(p.At(!side).me, e)
    ensures Shaking(Act(p, side, e))
  {
    hide Step;
    var n, peer := p.At(side), p.At(!side).me;
    FairStep(n, e, peer);
    var one := Step(n, e);
    if NothingFor(peer, one.out) {
      NothingPosted(p.wire, one.out, peer, !side);
    } else {
      OnePosted(p.wire, one.out, peer, !side);
      assert Act(p, side, e).wire[|p.wire|] == Packet(!side, one.out[0].msg);
    }
    hide Posted;
    assert Half(p, side) && Half(p, !side);
    assert Half(Act(p, side, e), side) && Half(Act(p, side, e), !side);
  }

  lemma ArrivalKeeps(p: Pair, i: nat, now: int)
    requires Shaking(p) && i < |p.wire|
    ensures Shaking(Next(p, Deliver(i, now)))
  {
    var q := p.wire[i];
    var side := q.toFirst;
    var n, peer := p.At(side), p.At(!side).me;
    var rest := p.wire[..i] + p.wire[i + 1..];
    assert forall r | r in p.wire :: r == q || r in rest;
    assert forall r | r in rest :: r in p.wire;
    assert Half(p, side) && Half(p, !side);
    HearingStep(n, peer, q.msg, now);
    var one := Step(n, Heard(peer, q.msg, now));
    var t := Next(p, Deliver(i, now));
    if one.out != [] {
      OnePosted(rest, one.out, peer, !side);
      assert t.wire[|rest|] == Packet(!side, Accept);
    } else {
      NothingPosted(rest, one.out, peer, !side);
    }
    hide Step;
    assert Half(t, side) && Half(t, !side);
  }

  lemma {:induction false} RunKeepsShaking(p: Pair, ms: seq<Move>)
    requires Shaking(p) && FairRun(p, ms)
    ensures Shaking(Run(p, ms))
    decreases |ms|
  {
    if ms != [] {
      if ms[0].Local? {
        FairStepKeeps(p, ms[0].side, ms[0].event);
      } else if ms[0].index < |p.wire| {
        ArrivalKeeps(p, ms[0].index, ms[0].now);
      }
      RunKeepsShaking(Next(p, ms[0]), ms[1..]);
    }
  }

  /** Two nodes that have nothing to do with each other yet. */
  predicate Strangers(p: Pair) {
    && p.first.me != p.second.me && p.wire == []
    && p.Towards(true).None? && p.Towards(false).None?
    && NoWordsFrom(p.first, p.second.me) && NoWordsFrom(p.second, p.first.me)
  }

  /** Two strangers shake hands in any order, crossing requests, repeating them
      and losing unanswered ones to full queues: whenever nothing is in flight
      each holds the other as a friend or neither does, and they are not both
      still waiting for an answer. */
  lemma HandshakeIsMutual(p: Pair, ms: seq<Move>)
    requires Strangers(p) && FairRun(p, ms) && Run(p, ms).wire == []
    ensures var t := Run(p, ms);
            && (t.Towards(true) == Some(Accepted) <==> t.Towards(false) == Some(Accepted))
            && !(t.Towards(true) == Some(PendingOut) && t.Towards(false) == Some(PendingOut))
  {
    RunKeepsShaking(p, ms);
  }

  /** A friendship once accepted on one side is bound to become mutual: the
      acceptance is on its way, to a peer that is waiting for it. */
  lemma AcceptanceIsOnItsWay(p: Pair, ms: seq<Move>, side: bool)
    requires Strangers(p) && FairRun(p, ms)
    requires Run(p, ms).Towards(side) == Some(Accepted)
    ensures var t := Run(p, ms);
            t.Towards(!side) == Some(Accepted)
            || (t.Towards(!side) == Some(PendingOut) && Packet(!side, Accept) in t.wire)
  {
    RunKeepsShaking(p, ms);
    assert Half(Run(p, ms), side);
  }

  /* Answers to answers end. */

  function Load(wire: seq<Packet>): nat {
    if wire == [] then 0 else (if wire[0].msg.Request? then 2 else 1) + Load(wire[1..])
  }

  lemma {:induction false} LoadAdds(a: seq<Packet>, b: seq<Packet>)
    ensures Load(a + b) == Load(a) + Load(b)
  {
    if a == [] {
      assert a + b == b;
    } else {
      assert (a + b)[1..] == a[1..] + b;
      LoadAdds(a[1..], b);
    }
  }

  /** Each message delivered leaves less to deliver, whatever it stirs up. */
  lemma DeliveryLightens(p: Pair, i: nat, now: int)
    requires i < |p.wire| && p.first.me != p.second.me
    ensures Load(Next(p, Deliver(i, now)).wire) < Load(p.wire)
  {
    var q := p.wire[i];
    var side := q.toFirst;
    var rest := p.wire[..i] + p.wire[i + 1..];
    assert p.wire == p.wire[..i] + ([q] + p.wire[i + 1..]);
    LoadAdds(p.wire[..i], [q] + p.wire[i + 1..]);
    LoadAdds([q], p.wire[i + 1..]);
    LoadAdds(p.wire[..i], p.wire[i + 1..]);
    var one := Step(p.At(side), Heard(p.At(!side).me, q.msg, now));
    if one.out == [] {
      NothingPosted(rest, one.out, p.At(!side).me, !side);
    } else {
      OnePosted(rest, one.out, p.At(!side).me, !side);
      LoadAdds(rest, [Packet(!side, Accept)]);
    }
  }

  predicate AllArrive(p: Pair, ms: seq<Move>)
    decreases |ms|
  {
    ms == [] || (ms[0].Deliver? && ms[0].index < |p.wire| && AllArrive(Next(p, ms[0]), ms[1..]))
  }

  /** Left to itself the network falls silent: with no further local step, no
      more messages arrive than twice the requests and once the rest in flight. */
  lemma {:induction false} NetworkFallsSilent(p: Pair, ms: seq<Move>)
    requires p.first.me != p.second.me && AllArrive(p, ms)
    ensures |ms| <= Load(p.wire)
    decreases |ms|
  {
    if ms != [] {
      DeliveryLightens(p, ms[0].index, ms[0].now);
      NextKeepsNames(p, ms[0]);
      NetworkFallsSilent(Next(p, ms[0]), ms[1..]);
    }
  }

  lemma NextKeepsNames(p: Pair, m: Move)
    requires m.Deliver?
    ensures Next(p, m).first.me == p.first.me && Next(p, m).second.me == p.second.me
  {
  }
}
