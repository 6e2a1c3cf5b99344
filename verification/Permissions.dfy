/** Roles and permissions: who may do what under one channel's permissions blob
    (trenchchat/core/permissions.py). */
module Permissions {
  import opened Prelude

  datatype Role = Owner | Admin | Member

  datatype Permission =
    | SendMessage | Invite | Kick | ManageRoles | ManageChannel
    | CreateChannel | FullSync | VoiceChat | ShareFiles
    | Unlisted(name: string)

  datatype Flag = OpenJoin | Discoverable

  /** A permissions dict of valid shape: the flags and role lists present in it. */
  datatype Perms = Perms(flags: map<Flag, bool>, granted: map<Role, seq<Permission>>) {
    function Granted(role: Role): seq<Permission> {
      if role in granted then granted[role] else []
    }
  }

  const ADMIN_ONLY: set<Permission> := {Kick, ManageRoles}

  const EMPTY := Perms(map[], map[])

  const PRESET_PRIVATE := Perms(map[OpenJoin := false, Discoverable := false], map[
    Admin := [SendMessage, Invite, Kick, ManageRoles, VoiceChat, ShareFiles],
    Member := [SendMessage, VoiceChat, ShareFiles]])

  /** A role list without the grants that a plain member may never hold. */
  function DropAdminOnly(list: seq<Permission>): (r: seq<Permission>)
    ensures forall p :: p in r <==> p in list && p !in ADMIN_ONLY
    ensures |r| <= |list|
    ensures |r| == |list| ==> r == list
  {
    if list == [] then []
    else
      var rest := DropAdminOnly(list[1..]);
      assert list == [list[0]] + list[1..];
      if list[0] in ADMIN_ONLY then rest else [list[0]] + rest
  }

  function Sanitise(p: Perms): Perms {
    if Member !in p.granted then p
    else
      var allowed := DropAdminOnly(p.granted[Member]);
      if |allowed| == |p.granted[Member]| then p
      else p.(granted := p.granted[Member := allowed])
  }

  predicate Mentions(p: Perms, permission: Permission) {
    permission in p.Granted(Owner) || permission in p.Granted(Admin) || permission in p.Granted(Member)
  }

  predicate HasPermission(p: Perms, role: Role, permission: Permission) {
    if role == Owner then true
    else if permission in p.Granted(role) then true
    else if permission == ShareFiles && !Mentions(p, ShareFiles) then SendMessage in p.Granted(role)
    else false
  }

  /** The permissions column of a channel or server row: no row at all, an
      empty value, text that does not parse to a valid dict, or a dict. */
  datatype StoredPerms = NoRow | Blank | Malformed | Stored(perms: Perms)

  function Effective(sp: StoredPerms): Perms {
    match sp
    case NoRow => EMPTY
    case Blank => EMPTY
    case Malformed => PRESET_PRIVATE
    case Stored(p) => Sanitise(p)
  }

  /** However a permissions blob was written, what is read back from it never
      lets a plain member kick or manage roles, never takes anything from an
      owner, and names for every role whatever else was written for it. */
  lemma MembersNeverHoldAdminOnly(sp: StoredPerms, role: Role, permission: Permission)
    ensures role == Member && permission in ADMIN_ONLY ==> !HasPermission(Effective(sp), role, permission)
    ensures HasPermission(Effective(sp), Owner, permission)
    ensures sp.Stored? ==>
              (permission in Effective(sp).Granted(role)
               <==> permission in sp.perms.Granted(role) && !(role == Member && permission in ADMIN_ONLY))
    ensures sp.Stored? && permission in sp.perms.Granted(role) && !(role == Member && permission in ADMIN_ONLY) ==>
              HasPermission(Effective(sp), role, permission)
  {
    if sp.Stored? && Member in sp.perms.granted {
      var list := sp.perms.granted[Member];
      var allowed := DropAdminOnly(list);
      assert forall p :: p in allowed <==> p in list && p !in ADMIN_ONLY;
    }
  }

  /* What one grant or one withdrawal changes. */

  /** q is p with one more grant. */
  ghost predicate Grants(p: Perms, q: Perms, role: Role, permission: Permission) {
    forall r: Role, x: Permission :: x in q.Granted(r) <==> x in p.Granted(r) || (r == role && x == permission)
  }

  ghost predicate NamedNowhere(p: Perms, permission: Permission) {
    forall r: Role :: permission !in p.Granted(r)
  }

  /** A role holds what it is granted, and no other role and no other permission
      is affected by it, ShareFiles aside. */
  lemma GrantGivesExactlyThat(p: Perms, q: Perms, role: Role, permission: Permission, r: Role, x: Permission)
    requires Grants(p, q, role, permission)
    ensures HasPermission(q, role, permission)
    ensures x != ShareFiles ==> (HasPermission(q, r, x) <==> HasPermission(p, r, x) || (r == role && x == permission))
  {
    hide Mentions, Perms.Granted;
    assert x in q.Granted(r) <==> x in p.Granted(r) || (r == role && x == permission);
  }

  /** While ShareFiles is named nowhere it goes with SendMessage; naming it once
      ends that for every role; and no other grant touches it. */
  lemma GrantsAndSharing(p: Perms, q: Perms, role: Role, permission: Permission, r: Role)
    requires Grants(p, q, role, permission)
    ensures HasPermission(q, r, ShareFiles)
            <==> if permission == ShareFiles then r == Owner || r == role || (!NamedNowhere(p, ShareFiles) && HasPermission(p, r, ShareFiles))
                 else HasPermission(p, r, ShareFiles) || (permission == SendMessage && r == role && NamedNowhere(p, ShareFiles))
  {
    hide Mentions, Perms.Granted;
    MentionedSomewhere(p, ShareFiles);
    MentionedSomewhere(q, ShareFiles);
    assert permission == ShareFiles ==> ShareFiles in q.Granted(role);
    assert permission != ShareFiles ==> forall y: Role :: ShareFiles in q.Granted(y) <==> ShareFiles in p.Granted(y);
  }

  lemma MentionedSomewhere(p: Perms, permission: Permission)
    ensures Mentions(p, permission) <==> !NamedNowhere(p, permission)
  {
    if !Mentions(p, permission) {
      forall r: Role ensures permission !in p.Granted(r) {
        match r
        case Owner => case Admin => case Member =>
      }
    }
  }

  /** Read from right to left: withdrawing a permission that a role below owner
      was named for takes it away, except that ShareFiles withdrawn from the
      last role it was named for is again read from SendMessage. */
  lemma WithdrawalTakesIt(p: Perms, q: Perms, role: Role, permission: Permission)
    requires Grants(p, q, role, permission) && permission !in p.Granted(role) && role != Owner
    ensures HasPermission(p, role, permission)
            <==> permission == ShareFiles && NamedNowhere(p, ShareFiles) && HasPermission(p, role, SendMessage)
  {
    MentionedSomewhere(p, ShareFiles);
  }

  /** With nothing granted, nobody but an owner may do anything. */
  lemma NothingGrantedIsNothingHeld(p: Perms, role: Role, permission: Permission)
    requires forall r: Role :: p.Granted(r) == []
    ensures HasPermission(p, role, permission) <==> role == Owner
  {
  }

  /** A blob that names ShareFiles nowhere lets exactly those share who may send. */
  lemma OldBlobsShareWhereTheySend(p: Perms, role: Role)
    requires NamedNowhere(p, ShareFiles)
    ensures HasPermission(p, role, ShareFiles) <==> HasPermission(p, role, SendMessage)
  {
    MentionedSomewhere(p, ShareFiles);
  }

  /** Without a row or with an empty column nobody but an owner may do anything;
      text that does not parse is read as the private preset. */
  lemma UnreadableColumns(permission: Permission)
    ensures forall role: Role, sp | sp in {NoRow, Blank} :: HasPermission(Effective(sp), role, permission) <==> role == Owner
    ensures HasPermission(Effective(Malformed), Admin, permission)
            <==> permission in {SendMessage, Invite, Kick, ManageRoles, VoiceChat, ShareFiles}
    ensures HasPermission(Effective(Malformed), Member, permission) <==> permission in {SendMessage, VoiceChat, ShareFiles}
  {
  }

  /** Reading twice is reading once. */
  lemma SanitiseTwice(p: Perms)
    ensures Sanitise(Sanitise(p)) == Sanitise(p)
  {
    if Member in p.granted {
      var allowed := DropAdminOnly(p.granted[Member]);
      NothingToDrop(allowed);
    }
  }

  lemma {:induction false} NothingToDrop(list: seq<Permission>)
    requires forall p | p in list :: p !in ADMIN_ONLY
    ensures DropAdminOnly(list) == list
  {
    if list != [] {
      assert list == [list[0]] + list[1..];
      NothingToDrop(list[1..]);
    }
  }
}
