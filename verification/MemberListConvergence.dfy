/** Replicas that hear the same owner-signed documents end up holding the same
    one, whatever the order and however often each is delivered. */
module MemberListConvergence {
  import opened Prelude
  import opened Permissions
  import opened MemberList
  import opened MemberListOrder

  /** A document by one owner of a scope whose owner set it leaves alone. */
  predicate ByOwner(env: Env, scope: Scope, owners: set<Id>, d: Doc) {
    && d.scope == scope
    && d.version.Version? && 0 <= d.version.v <= MAX_MEMBER_LIST_VERSION && d.publishedAt.At?
    && d.strays == 0 && NoDuplicates(d.members)
    && ToSet(d.Owners()) == owners <= ToSet(d.members)
    && SoleSigned(env, d) && Signer(d) in owners
  }

  /** What every replica keeps true along such a run. */
  predicate Settled(env: Env, s: Store, owners: set<Id>) {
    && s.doc.Some? && ByOwner(env, s.scope, owners, s.doc.value)
    && s.roles == RolesOf(s.doc.value)
    && (Carries(env, s.doc.value) && s.perms != NoRow ==> s.perms == Carried(env, s.doc.value))
  }

  predicate Carries(env: Env, d: Doc) {
    d.permissions != "" && env.unpack(d.permissions).Some?
  }

  function Carried(env: Env, d: Doc): StoredPerms
    requires Carries(env, d)
  {
    Stored(Sanitise(env.unpack(d.permissions).value))
  }

  /** Owners' documents on their way to one node, which can recall every owner's key. */
  predicate FromOwners(env: Env, s: Store, owners: set<Id>, xs: seq<Delivery>) {
    forall x | x in xs :: ByOwner(env, s.scope, owners, x.doc) && owners <= x.at.known + {s.me}
  }

  lemma OwnerMaySign(env: Env, s: Store, owners: set<Id>, x: Delivery)
    requires Settled(env, s, owners) && ByOwner(env, s.scope, owners, x.doc) && owners <= x.at.known + {s.me}
    ensures ValidatedSigner(env, s, x.at, x.doc) == Some(Signer(x.doc))
    ensures StoredSigner(env, s, x.at) == Signer(s.doc.value)
  {
    OwnerVouches(env, s, owners, x.at, x.doc);
    OwnerVouches(env, s, owners, x.at, s.doc.value);
  }

  lemma OwnerVouches(env: Env, s: Store, owners: set<Id>, a: Arrival, d: Doc)
    requires Settled(env, s, owners) && ByOwner(env, s.scope, owners, d) && owners <= a.known + {s.me}
    ensures ValidatedSigner(env, s, a, d) == Some(Signer(d))
  {
    hide SignedItems, RolesOf;
    assert Signer(d) in d.signatures.Keys && Signer(d) in s.doc.value.Authority();
    assert forall who | who in Vouchers(env, s, a, d) :: who in d.signatures.Keys;
    assert Vouchers(env, s, a, d) == {Signer(d)};
  }

  lemma OwnerMayApply(env: Env, s: Store, owners: set<Id>, d: Doc)
    requires Settled(env, s, owners) && ByOwner(env, s.scope, owners, d)
    ensures SignerMayApply(env, s, d, Signer(d))
  {
    assert s.roles[Signer(d)] == Owner;
    assert Signer(d) in d.Authority();
  }

  /** One delivery: the document is taken exactly when it is plausible and later, and the replica stays settled. */
  lemma OwnerDelivery(env: Env, s: Store, owners: set<Id>, x: Delivery)
    requires Settled(env, s, owners) && ByOwner(env, s.scope, owners, x.doc) && owners <= x.at.known + {s.me}
    ensures Settled(env, Deliver(env, s, x), owners)
    ensures Deliver(env, s, x).doc ==
            if Plausible(x.at, x.doc) && Later(SoleKey(x.doc), SoleKey(s.doc.value)) then Some(x.doc) else s.doc
    ensures (Deliver(env, s, x).perms == NoRow) == (s.perms == NoRow)
    ensures Deliver(env, s, x).me == s.me && Deliver(env, s, x).scope == s.scope
  {
    OwnerMaySign(env, s, owners, x);
    OwnerMayApply(env, s, owners, x.doc);
  }

  /** The documents a node has had a usable copy of: what it started with, and
      every delivery that was plausible by its own clock on arrival. */
  function Heard(xs: seq<Delivery>): set<Doc> {
    set x | x in xs && Plausible(x.at, x.doc) :: x.doc
  }

  predicate Newest(f: Doc, docs: set<Doc>) {
    f in docs && forall d | d in docs :: d == f || Later(SoleKey(f), SoleKey(d))
  }

  predicate DistinctKeys(docs: set<Doc>) {
    forall a, b | a in docs && b in docs && a != b :: SoleKey(a) != SoleKey(b)
  }

  lemma HeardFirst(xs: seq<Delivery>)
    requires xs != []
    ensures Heard(xs) == Heard(xs[1..]) + (if Plausible(xs[0].at, xs[0].doc) then {xs[0].doc} else {})
  {
    assert forall x | x in xs :: x == xs[0] || x in xs[1..];
    assert forall x | x in xs[1..] :: x in xs;
    assert xs[0] in xs;
  }

  /** Keeping the later of two documents is how the newest of a larger set is found. */
  lemma NewestByStages(f: Doc, held: Doc, x: Doc, rest: set<Doc>)
    requires DistinctKeys(rest + {held, x})
    requires Newest(f, rest + {if Later(SoleKey(x), SoleKey(held)) then x else held})
    ensures Newest(f, rest + {held, x})
  {
    var kept, dropped := if Later(SoleKey(x), SoleKey(held)) then x else held,
                         if Later(SoleKey(x), SoleKey(held)) then held else x;
    assert kept != dropped ==> SoleKey(kept) != SoleKey(dropped);
    assert kept != dropped ==> Later(SoleKey(kept), SoleKey(dropped));
    if f != kept && kept != dropped {
      LaterIsTransitive(SoleKey(f), SoleKey(kept), SoleKey(dropped));
    }
  }

  /** A run ends on the newest of the documents it started from or heard. */
  lemma {:induction false} RunFindsNewest(env: Env, s: Store, owners: set<Id>, xs: seq<Delivery>)
    requires Settled(env, s, owners) && FromOwners(env, s, owners, xs)
    requires DistinctKeys(Heard(xs) + {s.doc.value})
    ensures Settled(env, Run(env, s, xs), owners)
    ensures Newest(Run(env, s, xs).doc.value, Heard(xs) + {s.doc.value})
    ensures (Run(env, s, xs).perms == NoRow) == (s.perms == NoRow)
    decreases |xs|
  {
    hide Deliver, Settled, ByOwner, Plausible, Later, SoleKey;
    SettledHolds(env, s, owners);
    if xs == [] {
      assert Newest(s.doc.value, Heard(xs) + {s.doc.value});
    } else {
      var x, next, rest := xs[0], Deliver(env, s, xs[0]), Heard(xs[1..]);
      assert x in xs && forall y | y in xs[1..] :: y in xs;
      OwnerDelivery(env, s, owners, x);
      HeardFirst(xs);
      SettledHolds(env, next, owners);
      RunFindsNewest(env, next, owners, xs[1..]);
      SettledHolds(env, Run(env, s, xs), owners);
      if Plausible(x.at, x.doc) {
        assert Heard(xs) + {s.doc.value} == rest + {s.doc.value, x.doc};
        NewestByStages(Run(env, s, xs).doc.value, s.doc.value, x.doc, rest);
      }
    }
  }

  lemma SettledHolds(env: Env, s: Store, owners: set<Id>)
    requires Settled(env, s, owners)
    ensures s.doc.Some?
  {
  }

  lemma NewestIsUnique(f: Doc, g: Doc, docs: set<Doc>)
    requires Newest(f, docs) && Newest(g, docs)
    ensures f == g
  {
  }

  /** Two replicas that start from the same document and between them hear the
      same documents, in any order and with any repetition, end with the same
      document, the same member roles and, where that document carries
      permissions, the same permissions. */
  lemma ReplicasConverge(env: Env, s: Store, t: Store, owners: set<Id>, xs: seq<Delivery>, ys: seq<Delivery>)
    requires Settled(env, s, owners) && Settled(env, t, owners) && s.scope == t.scope && s.doc == t.doc
    requires FromOwners(env, s, owners, xs) && FromOwners(env, t, owners, ys)
    requires Heard(xs) == Heard(ys) && DistinctKeys(Heard(xs) + {s.doc.value})
    ensures var r, q := Run(env, s, xs), Run(env, t, ys);
            && r.doc == q.doc && r.doc.Some? && Newest(r.doc.value, Heard(xs) + {s.doc.value})
            && r.roles == q.roles == RolesOf(r.doc.value)
            && (Carries(env, r.doc.value) && s.perms != NoRow && t.perms != NoRow ==> r.perms == q.perms)
  {
    RunFindsNewest(env, s, owners, xs);
    RunFindsNewest(env, t, owners, ys);
    NewestIsUnique(Run(env, s, xs).doc.value, Run(env, t, ys).doc.value, Heard(xs) + {s.doc.value});
  }

  /* A whole network: documents in flight are delivered to one node at a time. */

  datatype Event = Event(node: nat, delivery: Delivery)

  function Network(env: Env, nodes: seq<Store>, events: seq<Event>): (r: seq<Store>)
    ensures |r| == |nodes|
    decreases |events|
  {
    if events == [] then nodes
    else
      var e := events[0];
      var next := if e.node < |nodes| then nodes[e.node := Deliver(env, nodes[e.node], e.delivery)] else nodes;
      Network(env, next, events[1..])
  }

  function AddressedTo(node: nat, events: seq<Event>): seq<Delivery> {
    if events == [] then []
    else (if events[0].node == node then [events[0].delivery] else []) + AddressedTo(node, events[1..])
  }

  /** What a node does in a network is its own run. */
  lemma {:induction false} NodeRunsAlone(env: Env, nodes: seq<Store>, events: seq<Event>, i: nat)
    requires i < |nodes|
    ensures Network(env, nodes, events)[i] == Run(env, nodes[i], AddressedTo(i, events))
    decreases |events|
  {
    hide Deliver;
    if events != [] {
      var e := events[0];
      var next := if e.node < |nodes| then nodes[e.node := Deliver(env, nodes[e.node], e.delivery)] else nodes;
      NodeRunsAlone(env, next, events[1..], i);
      var all, rest := AddressedTo(i, events), AddressedTo(i, events[1..]);
      if e.node == i {
        assert all == [e.delivery] + rest;
        assert all[0] == e.delivery && all[1..] == rest;
      } else {
        assert all == rest;
      }
    }
  }

  /** Any interleaving of deliveries over any number of nodes: nodes that started
      from one document and were each delivered the same set of documents agree. */
  lemma NetworkConverges(env: Env, nodes: seq<Store>, events: seq<Event>, owners: set<Id>, i: nat, j: nat)
    requires i < |nodes| && j < |nodes| && nodes[i].scope == nodes[j].scope && nodes[i].doc == nodes[j].doc
    requires Settled(env, nodes[i], owners) && Settled(env, nodes[j], owners)
    requires FromOwners(env, nodes[i], owners, AddressedTo(i, events))
    requires FromOwners(env, nodes[j], owners, AddressedTo(j, events))
    requires Heard(AddressedTo(i, events)) == Heard(AddressedTo(j, events))
    requires DistinctKeys(Heard(AddressedTo(i, events)) + {nodes[i].doc.value})
    ensures Network(env, nodes, events)[i].doc == Network(env, nodes, events)[j].doc
    ensures Network(env, nodes, events)[i].roles == Network(env, nodes, events)[j].roles
  {
    NodeRunsAlone(env, nodes, events, i);
    NodeRunsAlone(env, nodes, events, j);
    ReplicasConverge(env, nodes[i], nodes[j], owners, AddressedTo(i, events), AddressedTo(j, events));
  }
}
