/** What a permissions change is for: the permissions in force here are the ones
    sent, and the ones in force wherever the document is accepted. */
module MemberListBroadcast {
  import opened Prelude
  import opened Permissions
  import opened MemberList
  import opened MemberListPublish
  import opened MemberListOrder
  import opened MemberListConvergence
  import MemberListAuthority

  /** Packing permissions gives something, which reads back as them. */
  ghost predicate PacksRead(env: Env) {
    forall p {:trigger env.pack(p)} :: env.pack(p) != "" && env.unpack(env.pack(p)) == Some(p)
  }

  /** The document carries the permissions that this store has in force, if it has any. */
  predicate CarriesThose(env: Env, sp: StoredPerms, d: Doc) {
    if Effective(sp) == EMPTY then d.permissions == ""
    else d.permissions != "" && env.unpack(d.permissions) == Some(Effective(sp))
  }

  /** A rebroadcast, and a publish with whatever edits, carry the permissions in force. */
  lemma PermissionsInForceAreSent(env: Env, s: Store, now: real, e: Edits, b: Background)
    requires PacksRead(env)
    ensures CarriesThose(env, s.perms, PublishedDoc(env, s, now, e, b))
    ensures MayDo(s, s.me, ManageChannel) ==>
              Rebroadcast(env, s, now, b).doc.Some? && CarriesThose(env, s.perms, Rebroadcast(env, s, now, b).doc.value)
  {
    hide SignedItems, Effective, MayDo;
    assert env.unpack(env.pack(Effective(s.perms))) == Some(Effective(s.perms));
  }

  lemma StoredPublishCarries(env: Env, s: Store, a: Arrival, e: Edits, b: Background)
    requires PacksRead(env)
    ensures var o := Publish(env, s, a, e, b);
            o.verdict != Refused ==> o.store.doc.Some? && CarriesThose(env, s.perms, o.store.doc.value)
  {
    hide CarriesThose, PublishedDoc, Acceptable, RolesOf;
    PermissionsInForceAreSent(env, s, a.now, e, b);
  }

  lemma InForceTwice(sp: StoredPerms)
    ensures Sanitise(Effective(sp)) == Effective(sp)
  {
    if sp.Stored? {
      SanitiseTwice(sp.perms);
    }
  }

  /** Whoever accepts a document that carries a node's permissions, has a row of
      its own for the scope, and is told of any at all, ends with that node's
      permissions in force; any other keeps what it had. */
  lemma AcceptedPermissionsAgree(env: Env, sp: StoredPerms, d: Doc, peer: Store, a: Arrival)
    requires CarriesThose(env, sp, d) && d.owners.Some? && Accept(env, peer, a, d).verdict == Accepted
    ensures Effective(Accept(env, peer, a, d).store.perms)
            == if Effective(sp) == EMPTY || peer.perms == NoRow then Effective(peer.perms) else Effective(sp)
  {
    InForceTwice(sp);
    hide Acceptable, Sanitise, RolesOf;
  }

  /** An owner's rebroadcast reaches every peer that held the same document and
      hears it in time: it is accepted, and the owner's permissions are in force there. */
  lemma BroadcastIsPutInForce(env: Env, s: Store, owners: set<Id>, now: real, b: Background, peer: Store, a: Arrival)
    requires PacksRead(env) && MemberListAuthority.OwnSignatureHolds(env, s.me)
    requires Settled(env, s, owners) && s.me in owners && s.doc.value.version.v < MAX_MEMBER_LIST_VERSION
    requires Settled(env, peer, owners) && peer.scope == s.scope && peer.doc == s.doc && peer.perms != NoRow && owners <= a.known + {peer.me}
    requires 0.0 <= now <= a.now + MAX_CLOCK_SKEW_SECS && Effective(s.perms) != EMPTY
    ensures var d := Rebroadcast(env, s, now, b).doc.value;
            var o := Accept(env, peer, a, d);
            o.verdict == Accepted && o.store.doc == Some(d) && Effective(o.store.perms) == Effective(s.perms)
  {
    hide Effective, Accept, SignedItems, Settled, PacksRead, Later, MayDo, PermissionsBlob, RosterBlob;
    OwnersManage(env, s, owners);
    RebroadcastIsByOwner(env, s, owners, now, b);
    var d := Rebroadcast(env, s, now, b).doc.value;
    OwnerDelivery(env, peer, owners, Delivery(a, d));
    PermissionsInForceAreSent(env, s, now, MemberListAuthority.NO_EDITS, b);
    TakenWhole(env, peer, a, d);
    AcceptedPermissionsAgree(env, s.perms, d, peer, a);
  }

  lemma OwnersManage(env: Env, s: Store, owners: set<Id>)
    requires Settled(env, s, owners) && s.me in owners
    ensures MayDo(s, s.me, ManageChannel)
  {
    hide SignedItems;
    assert s.me in ToSet(s.doc.value.Owners());
    assert s.roles[s.me] == Owner;
  }

  /** It is the next document by one owner, and later than the one held. */
  lemma RebroadcastIsByOwner(env: Env, s: Store, owners: set<Id>, now: real, b: Background)
    requires MemberListAuthority.OwnSignatureHolds(env, s.me) && MayDo(s, s.me, ManageChannel)
    requires Settled(env, s, owners) && s.me in owners && s.doc.value.version.v < MAX_MEMBER_LIST_VERSION && 0.0 <= now
    ensures var t := Rebroadcast(env, s, now, b);
            && t.doc.Some? && ByOwner(env, s.scope, owners, t.doc.value)
            && t.doc.value.version == Version(s.doc.value.version.v + 1) && t.doc.value.publishedAt == At(now)
            && t.doc.value != s.doc.value && Later(SoleKey(t.doc.value), SoleKey(s.doc.value))
  {
    hide SignedItems, MayDo, PermissionsBlob, RosterBlob;
    var held, l := s.doc.value, HeldLists(s);
    assert l.owners == held.Owners() by {
      assert s.me in ToSet(held.Owners());
    }
    var u, d := Unsigned(env, s, l, now, b), BuildDocument(env, s, l, now, b);
    MemberListAuthority.SignaturesAreNotSigned(u, map[s.me := env.sign(s.me, SignedItems(u))]);
    assert d.signatures.Keys == {s.me};
  }

  lemma TakenWhole(env: Env, s: Store, a: Arrival, d: Doc)
    requires NoDuplicates(d.members) && Accept(env, s, a, d).store.doc == Some(d) && s.doc != Some(d)
    ensures Accept(env, s, a, d).verdict == Accepted
  {
    hide Acceptable;
  }

  /** Which permissions an accepted document puts in force: those it carries, less
      what a plain member may never hold, if it names owners, can be read and the
      scope has a row; otherwise the ones before. */
  lemma AcceptedPermissionsAreThose(env: Env, s: Store, a: Arrival, d: Doc, role: Role, permission: Permission)
    requires Accept(env, s, a, d).verdict == Accepted
    ensures var t := Accept(env, s, a, d).store;
            if d.permissions != "" && d.owners.Some? && env.unpack(d.permissions).Some? && s.perms != NoRow
            then && t.perms.Stored?
                 && (permission in t.perms.perms.Granted(role)
                     <==> permission in env.unpack(d.permissions).value.Granted(role)
                          && !(role == Member && permission in {Kick, ManageRoles}))
            else t.perms == s.perms
  {
    hide Acceptable, RolesOf;
    if env.unpack(d.permissions).Some? {
      MembersNeverHoldAdminOnly(Stored(env.unpack(d.permissions).value), role, permission);
    }
  }

  /** What else a published document says. A member who has a join time on file
      keeps it, zero included, and a new one joins now; recent departures go
      along as they are on file. */
  lemma PublishedTimes(env: Env, s: Store, l: Lists, now: real, b: Background, m: Id)
    ensures var d := BuildDocument(env, s, l, now, b);
            && d.scope == s.scope && d.publishedAt == At(now) && d.members == l.members && d.admins == l.admins && d.owners == Some(l.owners)
            && d.departed == Some(b.departed) && d.joinedAt.Some?
            && (m in d.joinedAt.value <==> m in l.members)
            && (m in l.members && m in b.tenure ==> d.joinedAt.value[m] == b.tenure[m])
            && (m in l.members && m !in b.tenure ==> d.joinedAt.value[m] == now)
            && (d.channels.Some? <==> s.isServer)
            && d.signatures == map[s.me := env.sign(s.me, SignedItems(d))]
  {
    hide SignedItems, PermissionsBlob, RosterRows;
    var u := Unsigned(env, s, l, now, b);
    MemberListAuthority.SignaturesAreNotSigned(u, map[s.me := env.sign(s.me, SignedItems(u))]);
  }

  /** Whose owners a publish starts from: the stored ones; with none stored, a
      channel's creator, and a server's or an unknown channel's admins. */
  lemma OwnersStartedFrom(s: Store, who: Id)
    requires s.doc.Some?
    ensures var d := s.doc.value;
            who in HeldLists(s).owners
            <==> if d.Owners() != [] then who in d.Owners()
                 else if !s.isServer && s.creator.Some? then s.creator == Some(who)
                 else who in d.admins
  {
  }
}
