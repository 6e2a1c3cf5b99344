/** By what right: whoever gets a document accepted held, at that moment, every
    permission that its changes call for. */
module MemberListRights {
  import opened Prelude
  import opened Permissions
  import opened MemberList
  import opened MemberListPublish
  import opened MemberListAuthority

  /* One document. */

  predicate Leaves(held: Doc, d: Doc, m: Id) { m in held.members && m !in d.members }

  /** The two documents name different admins. */
  ghost predicate AdminsDiffer(held: Doc, d: Doc) { exists m: Id :: m in held.admins <==> m !in d.admins }

  ghost predicate OwnersDiffer(held: Doc, d: Doc) { exists m: Id :: m in held.Owners() <==> m !in d.Owners() }

  /** What this identity needs, change by change, to turn one document into the other. */
  ghost predicate Entitled(env: Env, s: Store, held: Doc, d: Doc, who: Id) {
    && (forall m: Id | Leaves(held, d, m) :: MayDo(s, who, Kick))
    && (forall m: Id | Leaves(held, d, m) && m in held.admins :: MayDo(s, who, ManageRoles))
    && (forall m: Id | Leaves(held, d, m) && m in held.Owners() :: who in held.Owners())
    && (AdminsDiffer(held, d) ==> MayDo(s, who, ManageRoles))
    && (OwnersDiffer(held, d) ==> who in held.Owners())
    && (d.admins != [] || d.Owners() != [])
    && (d.permissions != "" && d.permissions != held.permissions ==> MayDo(s, who, ManageChannel))
    && (forall c | c in RosterHashes(env, d.channels) && c !in RosterHashes(env, held.channels) :: MayDo(s, who, CreateChannel))
  }

  /** The document is for this scope, readable, plausible by the clock, validly
      signed, and comes after the stored one. */
  predicate InOrder(env: Env, s: Store, a: Arrival, d: Doc) {
    && d.scope == s.scope && d.strays == 0
    && d.version.Version? && 0 <= d.version.v <= 0x7FFF_FFFF
    && d.publishedAt.At? && 0.0 <= d.publishedAt.t <= a.now + 300.0
    && ValidatedSigner(env, s, a, d).Some?
    && Supersedes(env, s, a, d, ValidatedSigner(env, s, a, d).value)
  }

  /** In order, and by someone entitled to every change in it. */
  ghost predicate Replaceable(env: Env, s: Store, a: Arrival, d: Doc)
    requires s.doc.Some?
  {
    InOrder(env, s, a, d) && Entitled(env, s, s.doc.value, d, ValidatedSigner(env, s, a, d).value)
  }

  lemma SomethingDiffers(xs: seq<Id>, ys: seq<Id>)
    ensures ToSet(xs) != ToSet(ys) <==> exists m: Id :: m in xs <==> m !in ys
  {
    assert forall m: Id :: (m in ToSet(xs) <==> m in xs) && (m in ToSet(ys) <==> m in ys);
    if forall m: Id :: m in xs <==> m in ys {
      assert ToSet(xs) == ToSet(ys);
    }
  }

  lemma SomebodyInAuthority(d: Doc)
    ensures d.Authority() != {} <==> d.admins != [] || d.Owners() != []
  {
    assert d.admins != [] ==> d.admins[0] in d.Authority();
    assert d.Owners() != [] ==> d.Owners()[0] in d.Authority();
  }

  lemma RightsAreEntitlement(env: Env, s: Store, d: Doc, who: Id)
    requires s.doc.Some?
    ensures SignerMayApply(env, s, d, who) <==> Entitled(env, s, s.doc.value, d, who)
  {
    hide MayDo, RosterHashes, Doc.Owners, Doc.Authority;
    var held := s.doc.value;
    var removed := ToSet(held.members) - ToSet(d.members);
    SomethingDiffers(held.admins, d.admins);
    SomethingDiffers(held.Owners(), d.Owners());
    SomebodyInAuthority(d);
    assert forall m: Id :: m in removed <==> Leaves(held, d, m);
    assert forall m: Id :: m in removed * ToSet(held.admins) <==> Leaves(held, d, m) && m in held.admins;
    assert forall m: Id :: m in removed * ToSet(held.Owners()) <==> Leaves(held, d, m) && m in held.Owners();
    var added := RosterHashes(env, d.channels) - RosterHashes(env, held.channels);
    assert forall c :: c in added <==> c in RosterHashes(env, d.channels) && c !in RosterHashes(env, held.channels);
  }

  /** A document takes the place of the stored one exactly if it is in order and
      its validated signer is entitled to every change in it. */
  lemma ReplacedExactlyByRight(env: Env, s: Store, a: Arrival, d: Doc)
    requires s.doc.Some?
    ensures Accept(env, s, a, d).verdict != Refused
            <==> Replaceable(env, s, a, d)
    ensures Accept(env, s, a, d).store.doc == if Accept(env, s, a, d).verdict != Refused then Some(d) else s.doc
  {
    hide SignerMayApply, ValidatedSigner, Supersedes, Entitled, RolesOf;
    if ValidatedSigner(env, s, a, d).Some? {
      RightsAreEntitlement(env, s, d, ValidatedSigner(env, s, a, d).value);
    }
  }

  /* Whose signature counts. */

  /** Trusted to sign: in authority in the stored document, and only there; with
      none stored, the scope's creator and the admin whose invite was accepted. */
  predicate MaySign(s: Store, who: Id) {
    if s.doc.Some? then who in s.doc.value.admins || who in s.doc.value.Owners()
    else s.creator == Some(who) || s.invited == Some(who)
  }

  predicate Signs(env: Env, s: Store, a: Arrival, d: Doc, who: Id) {
    && who in d.signatures && MaySign(s, who) && (who == s.me || who in a.known)
    && env.valid(who, SignedItems(d), d.signatures[who])
  }

  /** The signer is the lowest of those trusted by what is stored, never by what
      the document claims, whose key is at hand and whose signature holds. */
  lemma SignerIsLowestTrusted(env: Env, s: Store, a: Arrival, d: Doc, who: Id)
    ensures ValidatedSigner(env, s, a, d) == Some(who)
            <==> Signs(env, s, a, d, who) && forall x: Id | x < who :: !Signs(env, s, a, d, x)
  {
    hide SignedItems;
    assert forall x: Id :: Signs(env, s, a, d, x) <==> x in Vouchers(env, s, a, d);
  }

  /** The first document of a scope is taken exactly if it is for this scope,
      readable, plausible, and signed by its creator or the accepted inviter. */
  lemma FirstTakenExactlyFromAnchor(env: Env, s: Store, a: Arrival, d: Doc)
    requires s.doc.None?
    ensures Accept(env, s, a, d).verdict != Refused
            <==> && d.scope == s.scope && d.strays == 0
                 && d.version.Version? && 0 <= d.version.v <= 0x7FFF_FFFF
                 && d.publishedAt.At? && 0.0 <= d.publishedAt.t <= a.now + 300.0
                 && exists who: Id :: (s.creator == Some(who) || s.invited == Some(who)) && Signs(env, s, a, d, who)
  {
    hide SignedItems, RolesOf;
    assert forall x: Id :: Signs(env, s, a, d, x) <==> x in Vouchers(env, s, a, d);
  }

  /** What a permission is worth: nothing outside the members table, everything
      to an owner in it, and for the rest what their role is named for. */
  lemma StandingDecides(s: Store, who: Id, permission: Permission)
    ensures who !in s.roles ==> !MayDo(s, who, permission)
    ensures who in s.roles && s.roles[who] == Owner ==> MayDo(s, who, permission)
    ensures who in s.roles && s.perms.Stored? && s.roles[who] == Admin && permission in s.perms.perms.Granted(Admin) ==>
              MayDo(s, who, permission)
    ensures who in s.roles && s.perms.Stored? && permission in {Kick, ManageRoles, ManageChannel, CreateChannel} ==>
              (MayDo(s, who, permission)
               <==> s.roles[who] == Owner
                    || (permission in s.perms.perms.Granted(s.roles[who]) && !(s.roles[who] == Member && permission in {Kick, ManageRoles})))
  {
    if who in s.roles {
      MembersNeverHoldAdminOnly(s.perms, s.roles[who], permission);
    }
  }

  /** Whom this node may remove. */
  predicate MayRemove(s: Store, x: Id) {
    && MayDo(s, s.me, Kick)
    && (x in s.roles && s.roles[x] == Owner ==> IsOwner(s, s.me))
    && (x in s.roles && s.roles[x] == Admin ==> MayDo(s, s.me, ManageRoles))
  }

  /** What an accepted publish leaves, whoever publishes: everybody added, and of
      the rest of what was asked exactly what the publisher has the right to. */
  lemma PublishedAsFarAsAllowed(env: Env, s: Store, a: Arrival, e: Edits, b: Background, x: Id)
    requires InStep(s) && Publish(env, s, a, e, b).verdict == Accepted
    ensures var before, after := s.doc.value, Publish(env, s, a, e, b).store.doc.value;
            var gone := x in e.removeMembers && MayRemove(s, x);
            && (x in after.members <==> (x in before.members || x in e.addMembers) && !gone)
            && (x in after.admins
                <==> if MayDo(s, s.me, ManageRoles) then ((x in before.admins && !gone) || x in e.addAdmins) && x !in e.removeAdmins
                     else x in before.admins && !gone)
            && (x in after.Owners()
                <==> if IsOwner(s, s.me) then ((x in before.Owners() && !gone) || x in e.addOwners) && x !in e.removeOwners
                     else x in before.Owners() && !gone)
  {
    hide *;
    PublishedListsAreEdited(env, s, a, e, b);
    StartsFromHeld(s);
    GateLets(s, e, x);
    EditedOne(HeldLists(s), Gated(s, e), x);
  }

  lemma PublishedListsAreEdited(env: Env, s: Store, a: Arrival, e: Edits, b: Background)
    requires InStep(s) && Publish(env, s, a, e, b).verdict == Accepted
    ensures var d, l := Publish(env, s, a, e, b).store.doc, Edited(HeldLists(s), Gated(s, e));
            s.doc.Some? && d.Some? && d.value.members == l.members && d.value.admins == l.admins && d.value.Owners() == l.owners
  {
    hide Acceptable, MayDo, Edited, RolesOf, Gated, HeldLists, SignedItems, PermissionsBlob, RosterBlob;
  }

  lemma StartsFromHeld(s: Store)
    requires InStep(s)
    ensures var l, d := HeldLists(s), s.doc.value;
            && l == Lists(d.members, d.admins, d.Owners())
            && NoDuplicates(l.members) && NoDuplicates(l.admins) && NoDuplicates(l.owners)
  {
    hide MayDo, RolesOf;
  }

  lemma GateLets(s: Store, e: Edits, x: Id)
    ensures var g := Gated(s, e);
            && (x in g.removeMembers <==> x in e.removeMembers && MayRemove(s, x)) && g.addMembers == e.addMembers
            && g.addAdmins == (if MayDo(s, s.me, ManageRoles) then e.addAdmins else [])
            && g.removeAdmins == (if MayDo(s, s.me, ManageRoles) then e.removeAdmins else [])
            && g.addOwners == (if IsOwner(s, s.me) then e.addOwners else [])
            && g.removeOwners == (if IsOwner(s, s.me) then e.removeOwners else [])
  {
    hide MayDo;
  }

  lemma EditedOne(l: Lists, g: Edits, x: Id)
    requires NoDuplicates(l.members) && NoDuplicates(l.admins) && NoDuplicates(l.owners)
    ensures x in Edited(l, g).members <==> (x in l.members || x in g.addMembers) && x !in g.removeMembers
    ensures x in Edited(l, g).admins <==> ((x in l.admins && x !in g.removeMembers) || x in g.addAdmins) && x !in g.removeAdmins
    ensures x in Edited(l, g).owners <==> ((x in l.owners && x !in g.removeMembers) || x in g.addOwners) && x !in g.removeOwners
  {
    EditedSets(l, g);
    hide Edited, NoDuplicates;
    var r := Edited(l, g);
    assert (x in ToSet(r.members) <==> x in r.members) && (x in ToSet(r.admins) <==> x in r.admins) && (x in ToSet(r.owners) <==> x in r.owners);
  }

  /* Whole runs. */

  /** The action got a document stored by the right of someone who then held this permission. */
  predicate ActsWith(env: Env, s: Store, x: Action, permission: Permission) {
    match x
    case Inbound(a, d) => TakenFrom(env, s, a, d, permission)
    case PublishEdits(a, e, b) => TakenFrom(env, s, a, PublishedDoc(env, s, a.now, e, b), permission)
    case BroadcastPermissions(_, _) => MayDo(s, s.me, ManageChannel) && MayDo(s, s.me, permission)
    case SetPermissions(_) => false
  }

  predicate TakenFrom(env: Env, s: Store, a: Arrival, d: Doc, permission: Permission) {
    Accept(env, s, a, d).verdict != Refused && MayDo(s, ValidatedSigner(env, s, a, d).value, permission)
  }

  predicate NeverWith(env: Env, s: Store, xs: seq<Action>, permission: Permission)
    decreases |xs|
  {
    xs != [] ==> !ActsWith(env, s, xs[0], permission) && NeverWith(env, Step(env, s, xs[0]), xs[1..], permission)
  }

  /** One step by nobody with the permission: what it then cannot have changed. */
  ghost predicate Respects(env: Env, permission: Permission, held: Doc, d: Doc) {
    match permission
    case Kick => forall m: Id :: !Leaves(held, d, m)
    case ManageRoles => !AdminsDiffer(held, d) && forall m: Id | Leaves(held, d, m) :: m !in held.admins
    case ManageChannel => d.permissions == "" || d.permissions == held.permissions
    case CreateChannel => RosterHashes(env, d.channels) <= RosterHashes(env, held.channels)
    case _ => true
  }

  lemma SameIsRespected(env: Env, permission: Permission, d: Doc)
    ensures Respects(env, permission, d, d)
  {
  }

  lemma TakenRespects(env: Env, s: Store, a: Arrival, d: Doc, permission: Permission)
    requires s.doc.Some? && !TakenFrom(env, s, a, d, permission)
    ensures var t := Accept(env, s, a, d).store;
            t.doc.Some? && Respects(env, permission, s.doc.value, t.doc.value)
  {
    hide Accept, Supersedes, ValidatedSigner, MayDo;
    ReplacedExactlyByRight(env, s, a, d);
    SameIsRespected(env, permission, s.doc.value);
  }

  lemma RebroadcastRespects(env: Env, s: Store, now: real, b: Background, permission: Permission)
    requires s.doc.Some? && !ActsWith(env, s, BroadcastPermissions(now, b), permission) && (s.isServer ==> RostersRead(env))
    ensures var t := Rebroadcast(env, s, now, b);
            t.doc.Some? && Respects(env, permission, s.doc.value, t.doc.value)
  {
    hide SignedItems, MayDo, RosterBlob, RosterHashes, PermissionsBlob;
    SameIsRespected(env, permission, s.doc.value);
    OwnRosterMayApply(env, s, b);
    var held, d := s.doc.value, Rebroadcast(env, s, now, b).doc.value;
    assert d.members == held.members && d.admins == held.admins;
    if MayDo(s, s.me, ManageChannel) {
      assert d.channels == RosterBlob(env, s, b);
      if permission == CreateChannel {
        forall c | c in RosterHashes(env, d.channels) ensures c in RosterHashes(env, held.channels) {
          assert c in RosterHashes(env, held.channels) || c in RosterHashes(env, d.channels) - RosterHashes(env, held.channels);
        }
      }
    }
  }

  lemma StepRespects(env: Env, s: Store, x: Action, permission: Permission)
    requires s.doc.Some? && !ActsWith(env, s, x, permission) && (s.isServer ==> RostersRead(env))
    ensures var t := Step(env, s, x);
            && t.doc.Some? && Respects(env, permission, s.doc.value, t.doc.value) && t.isServer == s.isServer
  {
    hide Accept, PublishedDoc, MayDo, RosterHashes;
    match x {
      case Inbound(a, d) =>
        TakenRespects(env, s, a, d, permission);
        AcceptStays(env, s, a, d);
      case PublishEdits(a, e, b) =>
        TakenRespects(env, s, a, PublishedDoc(env, s, a.now, e, b), permission);
        AcceptStays(env, s, a, PublishedDoc(env, s, a.now, e, b));
      case BroadcastPermissions(now, b) => RebroadcastRespects(env, s, now, b, permission);
      case SetPermissions(p) => SameIsRespected(env, permission, s.doc.value);
    }
  }

  lemma AcceptStays(env: Env, s: Store, a: Arrival, d: Doc)
    ensures Accept(env, s, a, d).store.isServer == s.isServer
  {
  }

  /** Whatever happens to a scope, in any order and whoever signs: nobody leaves
      the member list, the admin set stays what it is, the permissions sent along
      are the old ones or none, and no channel is added, unless somebody who at
      that moment held the right to do it got a document accepted or sent one. */
  lemma {:induction false} ChangesNeedTheirRight(env: Env, s: Store, xs: seq<Action>, permission: Permission)
    requires s.doc.Some? && NeverWith(env, s, xs, permission) && (s.isServer ==> RostersRead(env))
    ensures var t := Run(env, s, xs);
            && t.doc.Some?
            && (permission == Kick ==> ToSet(s.doc.value.members) <= ToSet(t.doc.value.members))
            && (permission == ManageRoles ==> ToSet(t.doc.value.admins) == ToSet(s.doc.value.admins))
            && (permission == ManageChannel ==> t.doc.value.permissions in {"", s.doc.value.permissions})
            && (permission == CreateChannel ==> RosterHashes(env, t.doc.value.channels) <= RosterHashes(env, s.doc.value.channels))
    decreases |xs|
  {
    if xs != [] {
      hide Step, ActsWith, RosterHashes, Respects;
      StepRespects(env, s, xs[0], permission);
      var t := Step(env, s, xs[0]);
      RespectMeans(env, permission, s.doc.value, t.doc.value);
      ChangesNeedTheirRight(env, t, xs[1..], permission);
    }
  }

  lemma RespectMeans(env: Env, permission: Permission, held: Doc, d: Doc)
    requires Respects(env, permission, held, d)
    ensures permission == Kick ==> ToSet(held.members) <= ToSet(d.members)
    ensures permission == ManageRoles ==> ToSet(d.admins) == ToSet(held.admins)
    ensures permission == ManageChannel ==> d.permissions in {"", held.permissions}
    ensures permission == CreateChannel ==> RosterHashes(env, d.channels) <= RosterHashes(env, held.channels)
  {
    SomethingDiffers(held.admins, d.admins);
    if permission == Kick {
      forall m | m in held.members ensures m in d.members {
        assert !Leaves(held, d, m);
      }
    }
  }

  /** A member keeps its row as well: it leaves the members table only with a document by someone who may kick. */
  lemma {:induction false} MembersStayUnlessKicked(env: Env, s: Store, xs: seq<Action>, m: Id)
    requires s.doc.Some? && m in s.doc.value.members && m in s.roles
    requires NeverWith(env, s, xs, Kick) && (s.isServer ==> RostersRead(env))
    ensures var t := Run(env, s, xs); t.doc.Some? && m in t.doc.value.members && m in t.roles
    decreases |xs|
  {
    if xs != [] {
      StepRespects(env, s, xs[0], Kick);
      TableFollows(env, s, xs[0]);
      hide Step, ActsWith;
      assert !Leaves(s.doc.value, Step(env, s, xs[0]).doc.value, m);
      MembersStayUnlessKicked(env, Step(env, s, xs[0]), xs[1..], m);
    }
  }

  lemma TableFollows(env: Env, s: Store, x: Action)
    requires s.doc.Some?
    ensures var t := Step(env, s, x); t.roles == s.roles || (t.doc.Some? && t.roles.Keys == ToSet(t.doc.value.members))
  {
    hide Acceptable, PublishedDoc, BuildDocument;
  }
}
