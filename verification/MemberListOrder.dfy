/** Acceptance only moves forward: what a run of delivered documents can do to
    the one a node holds. */
module MemberListOrder {
  import opened Prelude
  import opened Permissions
  import opened MemberList

  datatype Delivery = Delivery(at: Arrival, doc: Doc)

  function Deliver(env: Env, s: Store, x: Delivery): Store {
    Accept(env, s, x.at, x.doc).store
  }

  function Run(env: Env, s: Store, xs: seq<Delivery>): Store
    decreases |xs|
  {
    if xs == [] then s else Run(env, Deliver(env, s, xs[0]), xs[1..])
  }

  predicate Replaces(env: Env, s: Store, x: Delivery) {
    Accept(env, s, x.at, x.doc).verdict != Refused
  }

  /** The documents that a run stores, in the order it stores them. */
  function Taken(env: Env, s: Store, xs: seq<Delivery>): seq<Doc>
    decreases |xs|
  {
    if xs == [] then []
    else (if Replaces(env, s, xs[0]) then [xs[0].doc] else []) + Taken(env, Deliver(env, s, xs[0]), xs[1..])
  }

  predicate NotBefore(a: Key, b: Key) {
    a.version > b.version || (a.version == b.version && a.time >= b.time)
  }

  /** Along every run, whoever signed what, (version, publishedAt) never goes back. */
  lemma {:induction false} RunNeverGoesBack(env: Env, s: Store, xs: seq<Delivery>)
    requires s.doc.Some?
    ensures Run(env, s, xs).doc.Some?
    ensures NotBefore(KeyOf(Run(env, s, xs).doc.value, 0), KeyOf(s.doc.value, 0))
    decreases |xs|
  {
    if xs != [] {
      DeliveryNeverGoesBack(env, s, xs[0]);
      RunNeverGoesBack(env, Deliver(env, s, xs[0]), xs[1..]);
    }
  }

  lemma DeliveryNeverGoesBack(env: Env, s: Store, x: Delivery)
    requires s.doc.Some?
    ensures Deliver(env, s, x).doc.Some?
    ensures NotBefore(KeyOf(Deliver(env, s, x).doc.value, 0), KeyOf(s.doc.value, 0))
  {
  }

  /** The stored document, delivered again, is always refused: it re-derives
      the very signer that it would have to beat. */
  lemma RedeliveryIsRefused(env: Env, s: Store, a: Arrival)
    requires s.doc.Some?
    ensures Accept(env, s, a, s.doc.value) == Outcome(s, Refused)
  {
  }

  /* Strict advance, for documents that keep their signer. */

  /** The lowest key of the signature map; meaningful for a document with one signature. */
  function Signer(d: Doc): Id {
    if d.signatures.Keys == {} then 0 else Least(d.signatures.Keys)
  }

  predicate SoleSigned(env: Env, d: Doc) {
    d.signatures.Keys == {Signer(d)} && env.valid(Signer(d), SignedItems(d), d.signatures[Signer(d)])
  }

  /** A stored document's signer re-derives exactly when the document left its
      own signer among the admins and owners. */
  lemma SignerRederivesIffKept(env: Env, s: Store, a: Arrival)
    requires s.doc.Some? && SoleSigned(env, s.doc.value)
    requires Signer(s.doc.value) == s.me || Signer(s.doc.value) in a.known
    ensures ValidatedSigner(env, s, a, s.doc.value) == Some(Signer(s.doc.value))
            <==> Signer(s.doc.value) in s.doc.value.Authority()
    ensures Signer(s.doc.value) !in s.doc.value.Authority() ==> StoredSigner(env, s, a) == SENTINEL
  {
    var d := s.doc.value;
    var who := Signer(d);
    assert forall x | x in d.signatures :: x in d.signatures.Keys;
    if who in d.Authority() {
      assert who in d.signatures.Keys;
      assert Vouchers(env, s, a, d) == {who};
    } else {
      assert Vouchers(env, s, a, d) == {};
    }
  }

  /** One signature, by someone the document itself leaves in authority and whose key is known. */
  predicate Kept(d: Doc, known: set<Id>) {
    d.signatures.Keys == {Signer(d)} && Signer(d) in d.Authority() && Signer(d) in known
  }

  function SoleKey(d: Doc): Key {
    KeyOf(d, Signer(d))
  }

  /** What a kept document was accepted on. */
  lemma AcceptedSigner(env: Env, s: Store, x: Delivery, known: set<Id>)
    requires Kept(x.doc, known) && Replaces(env, s, x)
    ensures ValidatedSigner(env, s, x.at, x.doc) == Some(Signer(x.doc)) && SoleSigned(env, x.doc)
  {
    var vouchers := Vouchers(env, s, x.at, x.doc);
    assert forall y | y in vouchers :: y in x.doc.signatures.Keys;
    assert Least(vouchers) in vouchers;
  }

  predicate KnownThroughout(me: Id, xs: seq<Delivery>, known: set<Id>) {
    forall x | x in xs :: known <= x.at.known + {me}
  }

  /** A replacement beats the kept document it replaces. */
  lemma ReplacementIsLater(env: Env, s: Store, x: Delivery, known: set<Id>)
    requires s.doc.Some? && Kept(s.doc.value, known) && SoleSigned(env, s.doc.value)
    requires known <= x.at.known + {s.me}
    requires Kept(x.doc, known) && Replaces(env, s, x)
    ensures Later(SoleKey(x.doc), SoleKey(s.doc.value))
  {
    SignerRederivesIffKept(env, s, x.at);
    AcceptedSigner(env, s, x, known);
  }

  lemma LaterIsTransitive(a: Key, b: Key, c: Key)
    requires Later(a, b) && Later(b, c)
    ensures Later(a, c)
  {
  }

  lemma LaterIsOther(d: Doc, e: Doc)
    requires Later(SoleKey(d), SoleKey(e))
    ensures d != e
  {
  }

  lemma DeliverChanges(env: Env, s: Store, x: Delivery)
    ensures Deliver(env, s, x).me == s.me && Deliver(env, s, x).scope == s.scope
    ensures Deliver(env, s, x).doc == if Replaces(env, s, x) then Some(x.doc) else s.doc
  {
  }

  predicate AllKept(ds: seq<Doc>, known: set<Id>) {
    forall d | d in ds :: Kept(d, known)
  }

  /** Once a kept document is stored, everything the run stores afterwards is strictly later. */
  lemma {:induction false} StoredIsLater(env: Env, s: Store, xs: seq<Delivery>, k: nat, known: set<Id>)
    requires s.doc.Some? && Kept(s.doc.value, known) && SoleSigned(env, s.doc.value)
    requires KnownThroughout(s.me, xs, known) && AllKept(Taken(env, s, xs), known)
    requires k < |Taken(env, s, xs)|
    ensures Later(SoleKey(Taken(env, s, xs)[k]), SoleKey(s.doc.value))
    decreases |xs|
  {
    hide Deliver, Replaces, Kept, SoleSigned, Later, SoleKey;
    var x, next := xs[0], Deliver(env, s, xs[0]);
    var rest := Taken(env, next, xs[1..]);
    DeliverChanges(env, s, x);
    assert x in xs && forall d | d in rest :: d in Taken(env, s, xs);
    if Replaces(env, s, x) {
      assert Taken(env, s, xs) == [x.doc] + rest;
      assert x.doc in Taken(env, s, xs);
      ReplacementIsLater(env, s, x, known);
      AcceptedSigner(env, s, x, known);
      if k > 0 {
        StoredIsLater(env, next, xs[1..], k - 1, known);
        LaterIsTransitive(SoleKey(rest[k - 1]), SoleKey(x.doc), SoleKey(s.doc.value));
      }
    } else {
      assert Taken(env, s, xs) == rest;
      StoredIsLater(env, next, xs[1..], k, known);
    }
  }

  /** What the first delivery of such a run stores, and what is left of the run. */
  lemma TakenSplits(env: Env, s: Store, xs: seq<Delivery>, known: set<Id>)
    requires xs != [] && KnownThroughout(s.me, xs, known) && AllKept(Taken(env, s, xs), known)
    ensures var next := Deliver(env, s, xs[0]);
            var rest := Taken(env, next, xs[1..]);
            && Taken(env, s, xs) == (if Replaces(env, s, xs[0]) then [xs[0].doc] else []) + rest
            && AllKept(rest, known) && KnownThroughout(next.me, xs[1..], known)
            && (Replaces(env, s, xs[0]) ==> Kept(xs[0].doc, known) && next.doc == Some(xs[0].doc) && SoleSigned(env, xs[0].doc))
  {
    hide Deliver, Replaces, Kept, SoleSigned, KnownThroughout;
    var next := Deliver(env, s, xs[0]);
    var rest := Taken(env, next, xs[1..]);
    DeliverChanges(env, s, xs[0]);
    RestIsKnown(s.me, xs, known);
    assert forall d | d in rest :: d in Taken(env, s, xs);
    if Replaces(env, s, xs[0]) {
      assert xs[0].doc in Taken(env, s, xs);
      AcceptedSigner(env, s, xs[0], known);
    }
  }

  lemma RestIsKnown(me: Id, xs: seq<Delivery>, known: set<Id>)
    requires xs != [] && KnownThroughout(me, xs, known)
    ensures KnownThroughout(me, xs[1..], known)
  {
    assert forall x | x in xs[1..] :: x in xs;
  }

  /** If every document that a run stores has one signature and keeps its signer
      in authority, the triple (version, publishedAt, signer) strictly advances
      and no document is ever stored twice. */
  lemma {:induction false} NothingIsStoredTwice(env: Env, s: Store, xs: seq<Delivery>, i: nat, j: nat, known: set<Id>)
    requires KnownThroughout(s.me, xs, known) && AllKept(Taken(env, s, xs), known)
    requires i < j < |Taken(env, s, xs)|
    ensures Later(SoleKey(Taken(env, s, xs)[j]), SoleKey(Taken(env, s, xs)[i]))
    ensures Taken(env, s, xs)[i] != Taken(env, s, xs)[j]
    decreases |xs|
  {
    hide Deliver, Replaces, Kept, SoleSigned, Later, SoleKey, KnownThroughout, AllKept;
    TakenSplits(env, s, xs, known);
    var next := Deliver(env, s, xs[0]);
    var rest := Taken(env, next, xs[1..]);
    if !Replaces(env, s, xs[0]) {
      NothingIsStoredTwice(env, next, xs[1..], i, j, known);
    } else if i > 0 {
      NothingIsStoredTwice(env, next, xs[1..], i - 1, j - 1, known);
    } else {
      StoredIsLater(env, next, xs[1..], j - 1, known);
      LaterIsOther(rest[j - 1], xs[0].doc);
    }
  }

  /* Without that condition the advance is not strict. */

  /** Version 1 of a scope whose two members name each other as the only owner:
      the document by one names the other. */
  function Swap(signer: Id, owner: Id, sig: Signature): Doc {
    Doc(0, Version(1), At(0.0), [1, 2], 0, [], Some([owner]), "", None, None, None, map[signer := sig])
  }

  function Alternate(at: Arrival, a: Doc, b: Doc, n: nat): seq<Delivery>
    decreases n
  {
    if n == 0 then [] else [Delivery(at, a)] + Alternate(at, b, a, n - 1)
  }

  predicate HoldsSwap(s: Store, signer: Id, owner: Id, sig: Signature) {
    s.scope == 0 && s.doc == Some(Swap(signer, owner, sig)) && s.roles == RolesOf(Swap(signer, owner, sig))
  }

  lemma SwapIsTaken(env: Env, s: Store, at: Arrival, holder: Id, other: Id, sig: Signature, sig': Signature)
    requires (holder == 1 && other == 2) || (holder == 2 && other == 1)
    requires HoldsSwap(s, other, holder, sig')
    requires at.known == {1, 2} && at.now >= 0.0
    requires env.valid(holder, SignedItems(Swap(holder, other, sig)), sig)
    requires env.valid(other, SignedItems(Swap(other, holder, sig')), sig')
    ensures Replaces(env, s, Delivery(at, Swap(holder, other, sig)))
    ensures HoldsSwap(Deliver(env, s, Delivery(at, Swap(holder, other, sig))), holder, other, sig)
  {
    hide SignedItems, Effective, PermissionsAfter, RosterHashes;
    var d, h := Swap(holder, other, sig), Swap(other, holder, sig');
    assert d.signatures.Keys == {holder} && h.signatures.Keys == {other};
    assert h.Owners() == [holder] && d.Owners() == [other];
    assert holder in ToSet(h.Owners()) && other in ToSet(d.Owners()) && other !in h.Authority();
    assert Vouchers(env, s, at, d) == {holder};
    assert Vouchers(env, s, at, h) == {};
    assert s.roles[holder] == Owner;
  }

  /** Two documents of the same version and time, each leaving its own signer
      out of authority, replace each other for as long as they are delivered:
      every one of n alternating deliveries is stored. */
  lemma {:induction false} DroppedSignersCycle(env: Env, s: Store, at: Arrival, holder: Id, other: Id,
                                               sig: Signature, sig': Signature, n: nat)
    requires (holder == 1 && other == 2) || (holder == 2 && other == 1)
    requires HoldsSwap(s, other, holder, sig')
    requires at.known == {1, 2} && at.now >= 0.0
    requires env.valid(holder, SignedItems(Swap(holder, other, sig)), sig)
    requires env.valid(other, SignedItems(Swap(other, holder, sig')), sig')
    ensures |Taken(env, s, Alternate(at, Swap(holder, other, sig), Swap(other, holder, sig'), n))| == n
    decreases n
  {
    hide Deliver, Replaces, HoldsSwap, SignedItems, Swap;
    if n > 0 {
      var a, b := Swap(holder, other, sig), Swap(other, holder, sig');
      var xs, rest := Alternate(at, a, b, n), Alternate(at, b, a, n - 1);
      assert xs[0] == Delivery(at, a) && xs[1..] == rest;
      SwapIsTaken(env, s, at, holder, other, sig, sig');
      DroppedSignersCycle(env, Deliver(env, s, xs[0]), at, other, holder, sig', sig, n - 1);
    }
  }

  /* A document that repeats a member. */

  /** After an acceptable document the members table matches it exactly when the
      document repeats no member, unless the table matched it already: the
      stored document has moved on and the roles have not. */
  lemma RolesFollowUnlessTorn(env: Env, s: Store, x: Delivery)
    requires Replaces(env, s, x)
    ensures Deliver(env, s, x).doc == Some(x.doc)
    ensures Deliver(env, s, x).roles == RolesOf(x.doc) <==> NoDuplicates(x.doc.members) || s.roles == RolesOf(x.doc)
  {
  }

  /** A document by the owner 1, leaving nothing to the permissions or the roster. */
  function Listing(scope: Scope, version: nat, members: seq<Id>, sig: Signature): Doc {
    Doc(scope, Version(version), At(0.0), members, 0, [], Some([1]), "", None, None, None, map[1 := sig])
  }

  lemma OwnerVouches(env: Env, s: Store, at: Arrival, d: Doc, sig: Signature)
    requires 1 in TrustedSigners(s) && at.known == {1} && d.signatures == map[1 := sig] && env.valid(1, SignedItems(d), sig)
    ensures ValidatedSigner(env, s, at, d) == Some(1)
  {
    hide SignedItems;
    assert Vouchers(env, s, at, d) == {1};
  }

  lemma CreatorLists(env: Env, s: Store, at: Arrival, d: Doc, sig: Signature)
    requires s.doc.None? && s.creator == Some(1) && at.known == {1} && at.now >= 0.0
    requires d == Listing(s.scope, 1, [1, 2], sig) && env.valid(1, SignedItems(d), sig)
    ensures Deliver(env, s, Delivery(at, d)) == s.(doc := Some(d), roles := RolesOf(d))
    ensures RolesOf(d) == map[1 := Owner, 2 := Member]
  {
    hide SignedItems, ValidatedSigner;
    OwnerVouches(env, s, at, d, sig);
    assert d.members[0] == 1 && d.members[1] == 2 && 1 in d.Owners();
  }

  lemma RepeatTears(env: Env, s: Store, at: Arrival, first: Doc, d: Doc, sig: Signature, sig': Signature)
    requires s.doc == Some(first) && first == Listing(s.scope, 1, [1, 2], sig) && s.roles == map[1 := Owner, 2 := Member]
    requires d == Listing(s.scope, 2, [1, 3, 3], sig') && at.known == {1} && at.now >= 0.0
    requires env.valid(1, SignedItems(d), sig')
    ensures Deliver(env, s, Delivery(at, d)) == s.(doc := Some(d))
  {
    hide SignedItems, ValidatedSigner, Effective;
    assert MayDo(s, 1, Kick);
    assert first.Owners() == [1] && d.Owners() == [1] && 1 in ToSet(first.Owners()) && 1 in d.Authority();
    OwnerVouches(env, s, at, d, sig');
    assert ToSet(first.members) == {1, 2} && ToSet(d.members) == {1, 3};
    assert d.members[1] == d.members[2];
  }

  lemma RunTwo(env: Env, s: Store, x: Delivery, y: Delivery)
    ensures Run(env, s, [x] + [y]) == Deliver(env, Deliver(env, s, x), y)
  {
    hide Deliver;
    assert ([x] + [y])[1..] == [y] && [y][1..] == [];
    assert Run(env, Deliver(env, s, x), [y]) == Deliver(env, Deliver(env, s, x), y);
  }

  /** A channel's creator lists a member, then a document that drops it and
      names another twice: both are taken, and the node is left with the second
      document and the roles of the first. */
  lemma RepeatedMemberLeavesRolesBehind(env: Env, s: Store, at: Arrival, sig: Signature, sig': Signature)
    requires s.doc.None? && s.creator == Some(1) && at.known == {1} && at.now >= 0.0
    requires env.valid(1, SignedItems(Listing(s.scope, 1, [1, 2], sig)), sig)
    requires env.valid(1, SignedItems(Listing(s.scope, 2, [1, 3, 3], sig')), sig')
    ensures var first, second := Listing(s.scope, 1, [1, 2], sig), Listing(s.scope, 2, [1, 3, 3], sig');
            var r := Run(env, s, [Delivery(at, first)] + [Delivery(at, second)]);
            && r.doc == Some(second) && r.roles == map[1 := Owner, 2 := Member]
            && 3 in second.members && 2 !in second.members && r.roles != RolesOf(second)
  {
    hide SignedItems, ValidatedSigner, Deliver, Run, Listing;
    var first, second := Listing(s.scope, 1, [1, 2], sig), Listing(s.scope, 2, [1, 3, 3], sig');
    CreatorLists(env, s, at, first, sig);
    RepeatTears(env, s.(doc := Some(first), roles := RolesOf(first)), at, first, second, sig, sig');
    RunTwo(env, s, Delivery(at, first), Delivery(at, second));
    ListingNames(s.scope, sig');
  }

  lemma ListingNames(scope: Scope, sig: Signature)
    ensures var d := Listing(scope, 2, [1, 3, 3], sig); 3 in d.members && 2 !in d.members && 3 in RolesOf(d)
  {
  }
}
