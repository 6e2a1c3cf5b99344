/** One node's copy of a scope, updated in place, against the rules it implements. */
module MemberListReplica {
  import opened Prelude
  import opened Permissions
  import opened MemberList
  import opened MemberListPublish
  import MemberListAuthority
  import MemberListRights
  import MemberListBroadcast

  /** The lists of a held document under the next version, signed by this node
      alone, and owned by somebody wherever anybody was in authority. */
  predicate Reissues(held: Option<Doc>, now: Option<Doc>, me: Id) {
    && now.Some? && now.value.signatures.Keys == {me}
    && var d := now.value;
       match held
       case None => d.version == Version(1) && d.members == [me] && d.admins == [me] && d.Owners() == [me]
       case Some(h) =>
         && d.members == h.members && d.admins == h.admins
         && (h.version.Version? ==> d.version == Version(h.version.v + 1))
         && (h.Owners() != [] ==> d.Owners() == h.Owners())
         && (h.Authority() != {} ==> d.Owners() != [])
  }

  /** What a rebroadcast means for this node and for those it is sent to. */
  lemma RebroadcastMeans(env: Env, s: Store, now: real, b: Background)
    ensures var t := Rebroadcast(env, s, now, b);
            && (MayDo(s, s.me, ManageChannel) ==>
                  && Reissues(s.doc, t.doc, s.me) && t.doc.value.publishedAt == At(now)
                  && (MemberListBroadcast.PacksRead(env) ==> MemberListBroadcast.CarriesThose(env, s.perms, t.doc.value)))
            && forall owners: set<Id> | MemberListAuthority.OwnedBy(s, owners) :: MemberListAuthority.OwnedBy(t, owners)
  {
    hide MemberListBroadcast.CarriesThose, MemberListBroadcast.PacksRead, MemberListAuthority.OwnedBy,
         SignedItems, MayDo, RosterBlob, PermissionsBlob, Effective;
    forall owners: set<Id> | MemberListAuthority.OwnedBy(s, owners)
      ensures MemberListAuthority.OwnedBy(Rebroadcast(env, s, now, b), owners)
    {
      MemberListAuthority.RebroadcastKeepsOwners(env, s, now, b, owners);
    }
    if MemberListBroadcast.PacksRead(env) {
      MemberListBroadcast.PermissionsInForceAreSent(env, s, now, MemberListAuthority.NO_EDITS, b);
    }
  }

  class Replica {
    const env: Env
    const me: Id
    const scope: Scope
    const isServer: bool
    const creator: Option<Id>
    const invited: Option<Id>
    var doc: Option<Doc>
    var roles: map<Id, Role>
    var perms: StoredPerms

    function View(): Store
      reads this
    {
      Store(me, scope, isServer, creator, invited, doc, roles, perms)
    }

    constructor (env: Env, me: Id, scope: Scope, isServer: bool, creator: Option<Id>, invited: Option<Id>,
                 perms: StoredPerms)
      ensures View() == Store(me, scope, isServer, creator, invited, None, map[], perms)
      ensures this.env == env
    {
      this.env, this.me, this.scope, this.isServer := env, me, scope, isServer;
      this.creator, this.invited, this.perms := creator, invited, perms;
      doc, roles := None, map[];
    }

    /** The first trusted signer, in ascending order, whose key is at hand and whose signature holds. */
    method ValidateDocument(a: Arrival, d: Doc) returns (signer: Option<Id>)
      ensures signer == ValidatedSigner(env, View(), a, d)
    {
      var trusted := TrustedSigners(View());
      var payload := SignedItems(d);
      var pending: set<Id> := d.signatures.Keys;
      while pending != {}
        invariant pending <= d.signatures.Keys
        invariant Vouchers(env, View(), a, d) <= pending
      {
        var who: Id := Least(pending);
        if who in trusted && (who == me || who in a.known) && env.valid(who, payload, d.signatures[who]) {
          assert who in Vouchers(env, View(), a, d);
          assert Least(Vouchers(env, View(), a, d)) in pending;
          return Some(who);
        }
        pending := pending - {who};
      }
      assert Vouchers(env, View(), a, d) == {};
      return None;
    }

    /** The members table rows of a document, or None if an entry is no hash;
        a repeated member violates the table's primary key. */
    method BuildRows(d: Doc) returns (rows: Option<map<Id, Role>>, repeated: bool)
      ensures rows == if d.strays > 0 then None else Some(RolesOf(d))
      ensures d.strays == 0 ==> repeated == !NoDuplicates(d.members)
    {
      repeated := false;
      if d.strays > 0 {
        return None, repeated;
      }
      var table: map<Id, Role> := map[];
      for i := 0 to |d.members|
        invariant table.Keys == ToSet(d.members[..i])
        invariant forall m | m in table :: table[m] == RoleOf(d, m)
        invariant repeated == !NoDuplicates(d.members[..i])
      {
        var m := d.members[i];
        assert d.members[..i + 1] == d.members[..i] + [m];
        if m in table {
          var j :| 0 <= j < i && d.members[j] == m;
          assert d.members[..i + 1][j] == d.members[..i + 1][i];
          repeated := true;
        } else {
          assert m !in d.members[..i];
        }
        table := table[m := RoleOf(d, m)];
      }
      assert d.members[..|d.members|] == d.members;
      assert table == RolesOf(d);
      rows := Some(table);
    }

    method AcceptDocument(a: Arrival, d: Doc) returns (verdict: Verdict)
      modifies this`doc, this`roles, this`perms
      ensures Outcome(View(), verdict) == Accept(env, old(View()), a, d)
      ensures old(doc).Some? ==> (verdict != Refused <==> MemberListRights.Replaceable(env, old(View()), a, d))
    {
      if doc.Some? {
        MemberListRights.ReplacedExactlyByRight(env, View(), a, d);
      }
      hide SignerMayApply, Vouches, Sanitise, SignedItems;
      if d.scope != scope || !Plausible(a, d) {
        return Refused;
      }
      var signer := ValidateDocument(a, d);
      if signer.None? || !SignerMayApply(env, View(), d, signer.value) {
        return Refused;
      }
      if doc.Some? {
        var held := KeyOf(doc.value, 0);
        var incoming := KeyOf(d, 0);
        if incoming.version < held.version {
          return Refused;
        }
        if incoming.version == held.version {
          if incoming.time < held.time {
            return Refused;
          }
          if incoming.time == held.time {
            var rederived := ValidateDocument(a, doc.value);
            var lowest: int := rederived.GetOr(SENTINEL);
            if signer.value >= lowest {
              return Refused;
            }
          }
        }
      }
      var rows, repeated := BuildRows(d);
      if rows.None? {
        return Refused;
      }
      doc := Some(d);
      if repeated {
        return Torn;
      }
      roles := rows.value;
      if d.permissions != "" && d.owners.Some? {
        var unpacked := env.unpack(d.permissions);
        if unpacked.Some? && perms != NoRow {
          perms := Permissions.Stored(Sanitise(unpacked.value));
        }
      }
      return Accepted;
    }

    /** Drops the targets over whom the actor has KICK but not enough authority. */
    method FindRemovable(actor: Id, targets: seq<Id>) returns (allowed: seq<Id>)
      ensures allowed == RemovableBy(View(), actor, targets)
    {
      hide MayDo, RemovableBy;
      var actorIsOwner := IsOwner(View(), actor);
      var mayManageRoles := MayDo(View(), actor, ManageRoles);
      allowed := [];
      RemovableByNothing(View(), actor);
      for i := 0 to |targets|
        invariant allowed == RemovableBy(View(), actor, targets[..i])
      {
        var target := targets[i];
        assert targets[..i + 1] == targets[..i] + [target];
        RemovableByAppend(View(), actor, targets[..i], target);
        if target in roles && roles[target] == Owner && !actorIsOwner {
          continue;
        }
        if target in roles && roles[target] == Admin && !mayManageRoles {
          continue;
        }
        allowed := allowed + [target];
      }
      assert targets[..|targets|] == targets;
    }

    /** Applies gated edits to the held lists, entry by entry. */
    method ApplyEdits(g: Edits) returns (l: Lists)
      ensures l == Edited(HeldLists(View()), g)
    {
      var start := HeldLists(View());
      var members := AppendMissing(start.members, g.addMembers);
      var admins, owners := start.admins, start.owners;
      ghost var grown := members;
      for i := 0 to |g.removeMembers|
        invariant RemoveAll(members, g.removeMembers[i..]) == RemoveAll(grown, g.removeMembers)
        invariant RemoveAll(admins, g.removeMembers[i..]) == RemoveAll(start.admins, g.removeMembers)
        invariant RemoveAll(owners, g.removeMembers[i..]) == RemoveAll(start.owners, g.removeMembers)
      {
        var m := g.removeMembers[i];
        assert g.removeMembers[i..][1..] == g.removeMembers[i + 1..];
        members, admins, owners := RemoveFirst(members, m), RemoveFirst(admins, m), RemoveFirst(owners, m);
      }
      admins := AppendMissing(admins, g.addAdmins);
      admins := RemoveEach(admins, g.removeAdmins);
      owners := AppendMissing(owners, g.addOwners);
      owners := RemoveEach(owners, g.removeOwners);
      l := Lists(members, admins, owners);
    }

    method PublishMemberList(a: Arrival, e: Edits, b: Background) returns (verdict: Verdict)
      modifies this`doc, this`roles, this`perms
      ensures Outcome(View(), verdict) == Publish(env, old(View()), a, e, b)
      ensures verdict != Refused && MemberListBroadcast.PacksRead(env) ==>
                MemberListBroadcast.CarriesThose(env, old(perms), doc.value)
    {
      hide MemberListBroadcast.CarriesThose, MemberListBroadcast.PacksRead;
      hide Accept, Unsigned, MayDo, RemovableBy, BuildDocument, Edited;
      if MemberListBroadcast.PacksRead(env) {
        MemberListBroadcast.StoredPublishCarries(env, View(), a, e, b);
      }
      var removeMembers: seq<Id> := [];
      if MayDo(View(), me, Kick) {
        removeMembers := FindRemovable(me, e.removeMembers);
      }
      var manages, owns := MayDo(View(), me, ManageRoles), IsOwner(View(), me);
      var g := Edits(e.addMembers, removeMembers,
                     if manages then e.addAdmins else [], if manages then e.removeAdmins else [],
                     if owns then e.addOwners else [], if owns then e.removeOwners else []);
      var l := ApplyEdits(g);
      var d := BuildDocument(env, View(), l, a.now, b);
      verdict := AcceptDocument(a, d);
    }

    method BroadcastPermissions(now: real, b: Background)
      modifies this`doc
      ensures View() == Rebroadcast(env, old(View()), now, b)
      ensures !MayDo(old(View()), me, ManageChannel) ==> doc == old(doc)
      ensures MayDo(old(View()), me, ManageChannel) ==> Reissues(old(doc), doc, me) && doc.value.publishedAt == At(now)
      ensures MayDo(old(View()), me, ManageChannel) && MemberListBroadcast.PacksRead(env) ==>
                MemberListBroadcast.CarriesThose(env, perms, doc.value)
      ensures forall owners: set<Id> | MemberListAuthority.OwnedBy(old(View()), owners) :: MemberListAuthority.OwnedBy(View(), owners)
    {
      hide MemberListBroadcast.CarriesThose, MemberListBroadcast.PacksRead, MemberListAuthority.OwnedBy, Reissues,
           BuildDocument, HeldLists, MayDo;
      RebroadcastMeans(env, View(), now, b);
      if MayDo(View(), me, ManageChannel) {
        doc := Some(BuildDocument(env, View(), HeldLists(View()), now, b));
      }
    }
  }

  method AppendMissing(xs: seq<Id>, more: seq<Id>) returns (r: seq<Id>)
    ensures r == AddAll(xs, more)
  {
    r := xs;
    for i := 0 to |more|
      invariant AddAll(r, more[i..]) == AddAll(xs, more)
    {
      assert more[i..][1..] == more[i + 1..];
      if more[i] !in r {
        r := r + [more[i]];
      }
    }
  }

  method RemoveEach(xs: seq<Id>, gone: seq<Id>) returns (r: seq<Id>)
    ensures r == RemoveAll(xs, gone)
  {
    r := xs;
    for i := 0 to |gone|
      invariant RemoveAll(r, gone[i..]) == RemoveAll(xs, gone)
    {
      assert gone[i..][1..] == gone[i + 1..];
      r := RemoveFirst(r, gone[i]);
    }
  }
}
