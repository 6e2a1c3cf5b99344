/** Who can change what over whole runs of inbound documents and local actions. */
module MemberListAuthority {
  import opened Prelude
  import opened Permissions
  import opened MemberList
  import opened MemberListPublish
  import opened MemberListOrder
  import MemberListConvergence

  /** Everything that happens to one node's copy of a scope. */
  datatype Action =
    | Inbound(at: Arrival, doc: Doc)
    | PublishEdits(at: Arrival, edits: Edits, background: Background)
    | BroadcastPermissions(now: real, background: Background)
    | SetPermissions(perms: StoredPerms)

  function Step(env: Env, s: Store, x: Action): Store {
    match x
    case Inbound(a, d) => Accept(env, s, a, d).store
    case PublishEdits(a, e, b) => Publish(env, s, a, e, b).store
    case BroadcastPermissions(now, b) => Rebroadcast(env, s, now, b)
    case SetPermissions(p) => s.(perms := p)
  }

  function Run(env: Env, s: Store, xs: seq<Action>): Store
    decreases |xs|
  {
    if xs == [] then s else Run(env, Step(env, s, xs[0]), xs[1..])
  }

  /** The document that an action asks the acceptance rule about, if any. */
  function Asked(env: Env, s: Store, x: Action): Option<(Arrival, Doc)> {
    match x
    case Inbound(a, d) => Some((a, d))
    case PublishEdits(a, e, b) => Some((a, PublishedDoc(env, s, a.now, e, b)))
    case _ => None
  }

  /** No document that the action gets accepted was validated by one of these identities. */
  predicate NotBy(env: Env, s: Store, x: Action, ids: set<Id>) {
    Asked(env, s, x).Some? ==>
      var (a, d) := Asked(env, s, x).value;
      Acceptable(env, s, a, d) ==> ValidatedSigner(env, s, a, d).value !in ids
  }

  predicate NeverBy(env: Env, s: Store, xs: seq<Action>, ids: set<Id>)
    decreases |xs|
  {
    xs != [] ==> NotBy(env, s, xs[0], ids) && NeverBy(env, Step(env, s, xs[0]), xs[1..], ids)
  }

  /* Owners cannot be deposed. */

  /** Exactly these identities own the scope, in the document and in the members table. */
  ghost predicate OwnedBy(s: Store, owners: set<Id>) {
    && s.doc.Some?
    && owners != {}
    && ToSet(s.doc.value.Owners()) == owners <= ToSet(s.doc.value.members)
    && (forall who :: IsOwner(s, who) <==> who in owners)
  }

  /** What a signer who is no owner may apply leaves the owner set alone and every owner a member. */
  lemma OthersMayNotTouchOwners(env: Env, s: Store, d: Doc, signer: Id, owners: set<Id>)
    requires OwnedBy(s, owners) && SignerMayApply(env, s, d, signer) && signer !in owners
    ensures ToSet(d.Owners()) == owners <= ToSet(d.members)
  {
    var held := s.doc.value;
    assert signer !in held.Owners();
    var removed := ToSet(held.members) - ToSet(d.members);
    assert removed * ToSet(held.Owners()) == {};
    forall who | who in owners ensures who in ToSet(d.members) {
      assert who !in removed * ToSet(held.Owners());
    }
  }

  lemma RolesFollowOwners(d: Doc, owners: set<Id>)
    requires ToSet(d.Owners()) == owners <= ToSet(d.members)
    ensures forall who :: (who in RolesOf(d) && RolesOf(d)[who] == Owner) <==> who in owners
  {
    forall who ensures (who in RolesOf(d) && RolesOf(d)[who] == Owner) <==> who in owners {
      assert who in owners <==> who in ToSet(d.Owners());
      assert who in owners ==> who in ToSet(d.members);
    }
  }

  lemma AcceptedByOthersKeepsOwners(env: Env, s: Store, a: Arrival, d: Doc, owners: set<Id>)
    requires OwnedBy(s, owners)
    requires Acceptable(env, s, a, d) ==> ValidatedSigner(env, s, a, d).value !in owners
    ensures OwnedBy(Accept(env, s, a, d).store, owners)
  {
    hide SignerMayApply, ValidatedSigner, RolesOf;
    if Acceptable(env, s, a, d) {
      OthersMayNotTouchOwners(env, s, d, ValidatedSigner(env, s, a, d).value, owners);
      RolesFollowOwners(d, owners);
    }
  }

  lemma RebroadcastKeepsOwners(env: Env, s: Store, now: real, b: Background, owners: set<Id>)
    requires OwnedBy(s, owners)
    ensures OwnedBy(Rebroadcast(env, s, now, b), owners)
  {
    assert s.doc.value.Owners() != [];
  }

  /** Along any run in which no owner's signature is what gets a document
      accepted, the owner set stays as it was and every owner stays a member
      holding the owner role; and nobody else ever gains it. */
  lemma {:induction false} OwnersCannotBeDeposed(env: Env, s: Store, xs: seq<Action>, owners: set<Id>)
    requires OwnedBy(s, owners) && NeverBy(env, s, xs, owners)
    ensures OwnedBy(Run(env, s, xs), owners)
    decreases |xs|
  {
    hide Acceptable, Accept, Publish, PublishedDoc, Rebroadcast, ValidatedSigner;
    if xs != [] {
      match xs[0] {
        case Inbound(a, d) =>
          AcceptedByOthersKeepsOwners(env, s, a, d, owners);
        case PublishEdits(a, e, b) =>
          assert Asked(env, s, xs[0]) == Some((a, PublishedDoc(env, s, a.now, e, b)));
          PublishIsAcceptance(env, s, a, e, b);
          AcceptedByOthersKeepsOwners(env, s, a, PublishedDoc(env, s, a.now, e, b), owners);
        case BroadcastPermissions(now, b) =>
          RebroadcastKeepsOwners(env, s, now, b, owners);
        case SetPermissions(p) =>
      }
      OwnersCannotBeDeposed(env, Step(env, s, xs[0]), xs[1..], owners);
    }
  }

  lemma PublishIsAcceptance(env: Env, s: Store, a: Arrival, e: Edits, b: Background)
    ensures Publish(env, s, a, e, b) == Accept(env, s, a, PublishedDoc(env, s, a.now, e, b))
  {
  }

  /* A scope whose stored document names no owners. */

  predicate Ownerless(s: Store) {
    s.doc.Some? && s.doc.value.Owners() == []
  }

  /** Nobody can give an ownerless scope its first owner through acceptance. */
  lemma OwnersCannotBeIntroduced(env: Env, s: Store, a: Arrival, d: Doc)
    requires Ownerless(s) && d.Owners() != []
    ensures Accept(env, s, a, d) == Outcome(s, Refused)
  {
    assert d.Owners()[0] in ToSet(d.Owners());
    assert ToSet(s.doc.value.Owners()) == {};
  }

  /** So the recovery of owners that upgrades a v1 document defeats every
      publish of it: whatever the publisher may do, a publish that leaves the
      recovered owners non-empty changes nothing. */
  lemma OwnerlessPublishIsRefused(env: Env, s: Store, a: Arrival, e: Edits, b: Background)
    requires Ownerless(s) && Edited(HeldLists(s), Gated(s, e)).owners != []
    ensures Publish(env, s, a, e, b) == Outcome(s, Refused)
  {
    hide Acceptable, Accept;
    OwnersCannotBeIntroduced(env, s, a, PublishedDoc(env, s, a.now, e, b));
  }

  /** Nothing received or published ever upgrades such a scope; only the
      unchecked rebroadcast of permissions does, and only on its own node. */
  lemma {:induction false} OwnerlessStaysOwnerless(env: Env, s: Store, xs: seq<Action>)
    requires Ownerless(s) && forall x | x in xs :: !x.BroadcastPermissions?
    ensures Ownerless(Run(env, s, xs))
    decreases |xs|
  {
    if xs != [] {
      hide Step;
      assert xs[0] in xs && forall x | x in xs[1..] :: x in xs;
      OwnerlessAfterStep(env, s, xs[0]);
      OwnerlessStaysOwnerless(env, Step(env, s, xs[0]), xs[1..]);
    }
  }

  lemma OwnerlessAfterStep(env: Env, s: Store, x: Action)
    requires Ownerless(s) && !x.BroadcastPermissions?
    ensures Ownerless(Step(env, s, x))
  {
    hide Acceptable, PublishedDoc;
    if Asked(env, s, x).Some? {
      var (a, d) := Asked(env, s, x).value;
      if d.Owners() != [] { OwnersCannotBeIntroduced(env, s, a, d); }
    }
  }

  /** That upgrade splits the scope: the node that rebroadcast holds owners, and
      every peer still on the ownerless document refuses what it was sent. */
  lemma RebroadcastSplitsOwnerless(env: Env, s: Store, now: real, b: Background, peer: Store, a: Arrival)
    requires Ownerless(s) && MayDo(s, s.me, ManageChannel) && HeldLists(s).owners != []
    requires peer.doc == s.doc
    ensures !Ownerless(Rebroadcast(env, s, now, b))
    ensures Accept(env, peer, a, Rebroadcast(env, s, now, b).doc.value) == Outcome(peer, Refused)
  {
    OwnersCannotBeIntroduced(env, peer, a, Rebroadcast(env, s, now, b).doc.value);
  }

  /* The order of versions over whole runs. */

  /** What is stored has a version that the ordering can read. */
  predicate Numbered(s: Store) {
    s.doc.Some? && s.doc.value.version.Version?
  }

  lemma ActionGoesForward(env: Env, s: Store, x: Action)
    requires Numbered(s)
    ensures Numbered(Step(env, s, x))
    ensures NotBefore(KeyOf(Step(env, s, x).doc.value, 0), KeyOf(s.doc.value, 0))
  {
    hide PublishedDoc, ValidatedSigner, SignerMayApply;
    if Asked(env, s, x).Some? {
      var (a, d) := Asked(env, s, x).value;
      DeliveryNeverGoesBack(env, s, Delivery(a, d));
    }
  }

  /** Along every run of deliveries, publishes, rebroadcasts and permission
      changes, (version, publishedAt) never goes back. */
  lemma {:induction false} ActionsNeverGoBack(env: Env, s: Store, xs: seq<Action>)
    requires Numbered(s)
    ensures Numbered(Run(env, s, xs))
    ensures NotBefore(KeyOf(Run(env, s, xs).doc.value, 0), KeyOf(s.doc.value, 0))
    decreases |xs|
  {
    if xs != [] {
      hide Step, KeyOf;
      ActionGoesForward(env, s, xs[0]);
      ActionsNeverGoBack(env, Step(env, s, xs[0]), xs[1..]);
    }
  }

  /** The stored version is past the greatest that any node accepts. */
  predicate PastMax(s: Store) {
    Numbered(s) && s.doc.value.version.v > MAX_MEMBER_LIST_VERSION
  }

  /** A rebroadcast is numbered without asking the acceptance rule: past the
      greatest version it is stored here all the same, and no peer takes it. */
  lemma RebroadcastCutsOffIffPastMax(env: Env, s: Store, now: real, b: Background)
    requires Numbered(s) && MayDo(s, s.me, ManageChannel)
    ensures var t := Rebroadcast(env, s, now, b);
            && (PastMax(t) <==> s.doc.value.version.v >= MAX_MEMBER_LIST_VERSION)
            && (PastMax(t) ==> forall peer: Store, a: Arrival :: Accept(env, peer, a, t.doc.value) == Outcome(peer, Refused))
            && (!PastMax(t) && s.doc.value.version.v >= -1 && now >= 0.0 ==>
                  forall a: Arrival :: Plausible(a, t.doc.value) <==> now <= a.now + MAX_CLOCK_SKEW_SECS)
  {
    hide Unsigned, SignedItems, ValidatedSigner, SignerMayApply, Supersedes;
    VersionBuilt(env, s, now, b);
    var d := BuildDocument(env, s, HeldLists(s), now, b);
    if PastMax(Rebroadcast(env, s, now, b)) {
      forall peer: Store, a: Arrival ensures Accept(env, peer, a, d) == Outcome(peer, Refused) {
        assert !Plausible(a, d);
      }
    }
  }

  lemma VersionBuilt(env: Env, s: Store, now: real, b: Background)
    ensures var d := BuildDocument(env, s, HeldLists(s), now, b);
            d.version == Version(NextVersion(s)) && d.publishedAt == At(now)
  {
    hide SignedItems;
  }

  lemma DeafStep(env: Env, s: Store, x: Action)
    requires PastMax(s)
    ensures var t := Step(env, s, x);
            && PastMax(t) && t.roles == s.roles && (x.SetPermissions? || t.perms == s.perms)
            && (!x.BroadcastPermissions? ==> t.doc == s.doc)
  {
    hide SignedItems, ValidatedSigner, SignerMayApply;
    if Asked(env, s, x).Some? {
      var (a, d) := Asked(env, s, x).value;
      hide PublishedDoc;
      assert !Acceptable(env, s, a, d);
    }
  }

  /** From then on nothing received or published changes the document or the
      members table of this node again. */
  lemma {:induction false} PastMaxIsDeaf(env: Env, s: Store, xs: seq<Action>)
    requires PastMax(s)
    ensures var t := Run(env, s, xs);
            && PastMax(t) && t.roles == s.roles
            && ((forall x | x in xs :: !x.BroadcastPermissions?) ==> t.doc == s.doc)
    decreases |xs|
  {
    if xs != [] {
      hide Step, PastMax;
      assert xs[0] in xs && forall x | x in xs[1..] :: x in xs;
      DeafStep(env, s, xs[0]);
      PastMaxIsDeaf(env, Step(env, s, xs[0]), xs[1..]);
    }
  }

  /* The sender-side gate against the receiver-side rule. */

  /** A channel or server whose document and members table agree. */
  predicate InStep(s: Store) {
    && s.doc.Some? && s.doc.value.scope == s.scope && s.doc.value.version.Version?
    && s.doc.value.version.v >= 0
    && var d := s.doc.value;
    && NoDuplicates(d.members) && NoDuplicates(d.admins) && NoDuplicates(d.Owners())
    && ToSet(d.admins) <= ToSet(d.members) && ToSet(d.Owners()) <= ToSet(d.members)
    && d.Owners() != []
    && s.roles == RolesOf(d)
    && s.me in d.Authority()
  }

  ghost predicate OwnSignatureHolds(env: Env, me: Id) {
    forall items {:trigger env.sign(me, items)} :: env.valid(me, items, env.sign(me, items))
  }

  lemma PublisherValidates(env: Env, s: Store, a: Arrival, l: Lists, b: Background)
    requires s.doc.Some? && s.me in s.doc.value.Authority() && OwnSignatureHolds(env, s.me)
    ensures ValidatedSigner(env, s, a, BuildDocument(env, s, l, a.now, b)) == Some(s.me)
  {
    var d, u := BuildDocument(env, s, l, a.now, b), Unsigned(env, s, l, a.now, b);
    assert SignedItems(d) == SignedItems(u);
    assert d.signatures.Keys == {s.me};
    assert Vouchers(env, s, a, d) == {s.me};
  }

  /** A roster that is packed names, when it is read, the channels it was packed from. */
  ghost predicate RostersRead(env: Env) {
    forall rows {:trigger env.packRoster(rows)} :: RosterHashes(env, Some(env.packRoster(rows))) == rows.Keys
  }

  /** The inbound rule on rosters: only who may create channels adds one. */
  predicate RosterMayApply(env: Env, s: Store, channels: Option<Blob>, who: Id) {
    RosterHashes(env, channels) - KnownChannels(env, s) != {} ==> MayDo(s, who, CreateChannel)
  }

  /** The roster filter drops nothing it could keep: of the channels on file, a
      publisher's roster of some of them passes the inbound rule exactly if the
      filter leaves all of those in. */
  lemma RosterFilterIsExact(env: Env, s: Store, rows: map<Scope, Blob>, part: map<Scope, Blob>)
    requires RostersRead(env) && part.Keys <= rows.Keys
    ensures RosterMayApply(env, s, Some(env.packRoster(part)), s.me) <==> part.Keys <= RosterRows(env, s, rows).Keys
  {
    hide MayDo, RosterHashes;
    assert RosterHashes(env, Some(env.packRoster(part))) == part.Keys;
    var added, kept := part.Keys - KnownChannels(env, s), RosterRows(env, s, rows);
    if !MayDo(s, s.me, CreateChannel) {
      forall h | h in part.Keys ensures h in added <==> h !in kept.Keys {
        assert h in rows;
      }
      if added == {} {
        assert part.Keys <= kept.Keys;
      }
    }
  }

  lemma OwnRosterMayApply(env: Env, s: Store, b: Background)
    requires s.isServer ==> RostersRead(env)
    ensures RosterMayApply(env, s, RosterBlob(env, s, b), s.me)
  {
    if s.isServer {
      var rows := RosterRows(env, s, b.channels);
      RosterFilterIsExact(env, s, b.channels, rows);
    }
  }

  /** What the gate leaves of the edits is what the publisher may apply. */
  lemma GatedEditsMayApply(env: Env, s: Store, e: Edits, d: Doc)
    requires InStep(s)
    requires d.members == Edited(HeldLists(s), Gated(s, e)).members
    requires d.admins == Edited(HeldLists(s), Gated(s, e)).admins
    requires d.owners == Some(Edited(HeldLists(s), Gated(s, e)).owners)
    requires RosterMayApply(env, s, d.channels, s.me)
    ensures SignerMayApply(env, s, d, s.me)
            <==> (&& d.Authority() != {}
                  && (d.permissions != "" && d.permissions != s.doc.value.permissions
                      ==> MayDo(s, s.me, ManageChannel)))
  {
    hide Gated, Edited, HeldLists, InStep, MayDo, RosterHashes;
    InStepHolds(s);
    GatedRemovalsMayApply(s, e);
    GateCoversRoleChanges(s, e);
  }

  lemma InStepHolds(s: Store)
    requires InStep(s)
    ensures s.doc.Some?
  {
  }

  /** Who goes after the gate goes at the hands of someone who may send them. */
  lemma GatedRemovalsMayApply(s: Store, e: Edits)
    requires InStep(s)
    ensures var held := s.doc.value;
            var removed := ToSet(held.members) - ToSet(Edited(HeldLists(s), Gated(s, e)).members);
            && (removed != {} ==> MayDo(s, s.me, Kick))
            && (removed * ToSet(held.Owners()) != {} ==> s.me in held.Owners())
            && (removed * ToSet(held.admins) != {} ==> MayDo(s, s.me, ManageRoles))
  {
    hide Edited, MayDo;
    var held, g := s.doc.value, Gated(s, e);
    var removed := ToSet(held.members) - ToSet(Edited(HeldLists(s), g).members);
    EditedSets(HeldLists(s), g);
    forall x | x in removed ensures x in g.removeMembers && Removable(s, s.me, x) && MayDo(s, s.me, Kick) {}
    forall x | x in removed * ToSet(held.Owners()) ensures s.me in held.Owners() {
      assert s.roles[x] == Owner;
    }
    forall x | x in removed * ToSet(held.admins) ensures MayDo(s, s.me, ManageRoles) {
      if x in held.Owners() {
        assert s.roles[x] == Owner;
        OwnersMayAll(s, ManageRoles);
      } else {
        assert s.roles[x] == Admin;
      }
    }
  }

  lemma OwnersMayAll(s: Store, permission: Permission)
    requires IsOwner(s, s.me)
    ensures MayDo(s, s.me, permission)
  {
  }

  /** After the gate, an owner or admin list changes only at the hands of someone allowed to change it. */
  lemma GateCoversRoleChanges(s: Store, e: Edits)
    requires InStep(s)
    ensures var d, l := s.doc.value, Edited(HeldLists(s), Gated(s, e));
            && (ToSet(d.admins) != ToSet(l.admins) ==> MayDo(s, s.me, ManageRoles))
            && (ToSet(d.Owners()) != ToSet(l.owners) ==> s.me in d.Owners())
  {
    var held, g := s.doc.value, Gated(s, e);
    EditedSets(HeldLists(s), g);
    if !IsOwner(s, s.me) {
      forall x | x in g.removeMembers ensures x !in held.Owners() {
        assert x in held.Owners() ==> IsOwner(s, x);
      }
      if !MayDo(s, s.me, ManageRoles) {
        forall x | x in g.removeMembers ensures x !in held.admins {
          assert x in held.admins ==> x in ToSet(held.members) && RoleOf(held, x) != Member;
        }
      }
    }
  }

  /** The outbound gate is complete for the inbound rule: a publish on a channel
      or server in step is refused exactly when it would leave nobody in
      authority, when it would carry changed permissions the publisher may not
      change, or when the version counter is exhausted; never for its roster. */
  lemma GateIsComplete(env: Env, s: Store, a: Arrival, e: Edits, b: Background)
    requires InStep(s) && OwnSignatureHolds(env, s.me) && a.now >= 0.0 && (s.isServer ==> RostersRead(env))
    ensures var d := PublishedDoc(env, s, a.now, e, b);
            var allowed := && d.Authority() != {}
                           && (d.permissions != "" && d.permissions != s.doc.value.permissions
                               ==> MayDo(s, s.me, ManageChannel))
                           && s.doc.value.version.v < MAX_MEMBER_LIST_VERSION;
            Publish(env, s, a, e, b).verdict == if allowed then Accepted else Refused
  {
    hide SignerMayApply, ValidatedSigner, Edited, Gated, SignedItems, RosterMayApply, RosterBlob;
    var l := Edited(HeldLists(s), Gated(s, e));
    var d := PublishedDoc(env, s, a.now, e, b);
    PublisherValidates(env, s, a, l, b);
    OwnRosterMayApply(env, s, b);
    GatedEditsMayApply(env, s, e, d);
    EditedSets(HeldLists(s), Gated(s, e));
  }

  /** An owner's publish does what was asked, to all three sets. */
  lemma OwnerPublishesAsAsked(env: Env, s: Store, a: Arrival, e: Edits, b: Background)
    requires InStep(s) && IsOwner(s, s.me) && Publish(env, s, a, e, b).verdict == Accepted
    ensures var before, after := s.doc.value, Publish(env, s, a, e, b).store.doc.value;
            && ToSet(after.members) == ToSet(before.members) + ToSet(e.addMembers) - ToSet(e.removeMembers)
            && ToSet(after.admins)
               == ToSet(before.admins) - ToSet(e.removeMembers) + ToSet(e.addAdmins) - ToSet(e.removeAdmins)
            && ToSet(after.Owners())
               == ToSet(before.Owners()) - ToSet(e.removeMembers) + ToSet(e.addOwners) - ToSet(e.removeOwners)
  {
    hide Acceptable;
    EditedSets(HeldLists(s), Gated(s, e));
    assert forall x :: x in RemovableBy(s, s.me, e.removeMembers) <==> x in e.removeMembers;
    assert ToSet(Gated(s, e).removeMembers) == ToSet(e.removeMembers);
  }

  /* How a scope begins. */

  const NO_EDITS := Edits([], [], [], [], [], [])

  /** The first publish of a channel or server by its creator, with nothing asked, is
      accepted, makes the creator its one owner, and leaves the channel in the
      state from which the results on authority, gating and convergence start. */
  lemma FirstPublishStartsAll(env: Env, s: Store, a: Arrival, b: Background)
    requires s.doc.None? && s.creator == Some(s.me) && OwnSignatureHolds(env, s.me) && a.now >= 0.0
    ensures var o := Publish(env, s, a, NO_EDITS, b);
            o.verdict == Accepted && OwnedBy(o.store, {s.me}) && InStep(o.store) && MemberListConvergence.Settled(env, o.store, {s.me})
  {
    var d := PublishedDoc(env, s, a.now, NO_EDITS, b);
    FirstDocument(env, s, a.now, b);
    assert d.signatures.Keys == {s.me} && Vouchers(env, s, a, d) == {s.me};
    assert ToSet([s.me]) == {s.me};
    assert Signer(d) == s.me;
  }

  lemma FirstDocument(env: Env, s: Store, now: real, b: Background)
    requires s.doc.None?
    ensures var d := PublishedDoc(env, s, now, NO_EDITS, b);
            && d.members == [s.me] && d.admins == [s.me] && d.owners == Some([s.me])
            && d.version == Version(1) && d.publishedAt == At(now) && d.strays == 0 && d.scope == s.scope
            && d.signatures == map[s.me := env.sign(s.me, SignedItems(d))]
  {
    hide SignedItems;
    var l, u := Edited(HeldLists(s), Gated(s, NO_EDITS)), Unsigned(env, s, Lists([s.me], [s.me], [s.me]), now, b);
    assert l == Lists([s.me], [s.me], [s.me]);
    SignaturesAreNotSigned(u, map[s.me := env.sign(s.me, SignedItems(u))]);
  }

  lemma SignaturesAreNotSigned(d: Doc, sigs: map<Id, Signature>)
    ensures SignedItems(d.(signatures := sigs)) == SignedItems(d)
  {
  }
}
