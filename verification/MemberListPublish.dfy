/** The local side: building, gating and storing a node's own documents. */
module MemberListPublish {
  import opened Prelude
  import opened Permissions
  import opened MemberList

  /* Edits to the three lists, one entry at a time as the source applies them. */

  function AddAll(xs: seq<Id>, more: seq<Id>): seq<Id>
    decreases |more|
  {
    if more == [] then xs
    else AddAll(if more[0] in xs then xs else xs + [more[0]], more[1..])
  }

  function RemoveAll(xs: seq<Id>, gone: seq<Id>): seq<Id>
    decreases |gone|
  {
    if gone == [] then xs else RemoveAll(RemoveFirst(xs, gone[0]), gone[1..])
  }

  lemma {:induction false} AddAllAddsExactly(xs: seq<Id>, more: seq<Id>)
    ensures ToSet(AddAll(xs, more)) == ToSet(xs) + ToSet(more)
    ensures NoDuplicates(xs) ==> NoDuplicates(AddAll(xs, more))
    decreases |more|
  {
    if more != [] {
      var next := if more[0] in xs then xs else xs + [more[0]];
      assert more == [more[0]] + more[1..];
      AddAllAddsExactly(next, more[1..]);
      assert ToSet(next) == ToSet(xs) + {more[0]};
    }
  }

  lemma {:induction false} RemoveAllRemovesExactly(xs: seq<Id>, gone: seq<Id>)
    requires NoDuplicates(xs)
    ensures NoDuplicates(RemoveAll(xs, gone))
    ensures ToSet(RemoveAll(xs, gone)) == ToSet(xs) - ToSet(gone)
    decreases |gone|
  {
    if gone != [] {
      RemoveFirstRemoves(xs, gone[0]);
      assert gone == [gone[0]] + gone[1..];
      RemoveAllRemovesExactly(RemoveFirst(xs, gone[0]), gone[1..]);
    }
  }

  datatype Edits = Edits(
    addMembers: seq<Id>, removeMembers: seq<Id>,
    addAdmins: seq<Id>, removeAdmins: seq<Id>,
    addOwners: seq<Id>, removeOwners: seq<Id>)

  datatype Lists = Lists(members: seq<Id>, admins: seq<Id>, owners: seq<Id>)

  function Edited(l: Lists, e: Edits): Lists {
    Lists(
      RemoveAll(AddAll(l.members, e.addMembers), e.removeMembers),
      RemoveAll(AddAll(RemoveAll(l.admins, e.removeMembers), e.addAdmins), e.removeAdmins),
      RemoveAll(AddAll(RemoveAll(l.owners, e.removeMembers), e.addOwners), e.removeOwners))
  }

  /** What the edits do to the three sets of identities. */
  lemma EditedSets(l: Lists, e: Edits)
    requires NoDuplicates(l.members) && NoDuplicates(l.admins) && NoDuplicates(l.owners)
    ensures NoDuplicates(Edited(l, e).members)
    ensures ToSet(Edited(l, e).members) == ToSet(l.members) + ToSet(e.addMembers) - ToSet(e.removeMembers)
    ensures ToSet(Edited(l, e).admins)
            == ToSet(l.admins) - ToSet(e.removeMembers) + ToSet(e.addAdmins) - ToSet(e.removeAdmins)
    ensures ToSet(Edited(l, e).owners)
            == ToSet(l.owners) - ToSet(e.removeMembers) + ToSet(e.addOwners) - ToSet(e.removeOwners)
  {
    AddAllAddsExactly(l.members, e.addMembers);
    RemoveAllRemovesExactly(AddAll(l.members, e.addMembers), e.removeMembers);
    RemoveAllRemovesExactly(l.admins, e.removeMembers);
    AddAllAddsExactly(RemoveAll(l.admins, e.removeMembers), e.addAdmins);
    RemoveAllRemovesExactly(AddAll(RemoveAll(l.admins, e.removeMembers), e.addAdmins), e.removeAdmins);
    RemoveAllRemovesExactly(l.owners, e.removeMembers);
    AddAllAddsExactly(RemoveAll(l.owners, e.removeMembers), e.addOwners);
    RemoveAllRemovesExactly(AddAll(RemoveAll(l.owners, e.removeMembers), e.addOwners), e.removeOwners);
  }

  /* The sender-side gate. */

  predicate IsOwner(s: Store, who: Id) {
    who in s.roles && s.roles[who] == Owner
  }

  predicate Removable(s: Store, actor: Id, target: Id) {
    && (target in s.roles && s.roles[target] == Owner ==> IsOwner(s, actor))
    && (target in s.roles && s.roles[target] == Admin ==> MayDo(s, actor, ManageRoles))
  }

  function RemovableBy(s: Store, actor: Id, targets: seq<Id>): (r: seq<Id>)
    ensures forall x :: x in r <==> x in targets && Removable(s, actor, x)
  {
    if targets == [] then []
    else
      assert targets == [targets[0]] + targets[1..];
      (if Removable(s, actor, targets[0]) then [targets[0]] else []) + RemovableBy(s, actor, targets[1..])
  }

  lemma RemovableByNothing(s: Store, actor: Id)
    ensures RemovableBy(s, actor, []) == []
  {
  }

  lemma {:induction false} RemovableByAppend(s: Store, actor: Id, xs: seq<Id>, x: Id)
    ensures RemovableBy(s, actor, xs + [x])
         == RemovableBy(s, actor, xs) + if Removable(s, actor, x) then [x] else []
  {
    hide Removable;
    if xs == [] {
      assert RemovableBy(s, actor, []) == [];
      assert ([] + [x])[1..] == [];
    } else {
      assert (xs + [x])[1..] == xs[1..] + [x];
      RemovableByAppend(s, actor, xs[1..], x);
    }
  }

  function Gated(s: Store, e: Edits): Edits {
    var roles := MayDo(s, s.me, ManageRoles);
    Edits(
      e.addMembers,
      if MayDo(s, s.me, Kick) then RemovableBy(s, s.me, e.removeMembers) else [],
      if roles then e.addAdmins else [],
      if roles then e.removeAdmins else [],
      if IsOwner(s, s.me) then e.addOwners else [],
      if IsOwner(s, s.me) then e.removeOwners else [])
  }

  /* The document. */

  /** A v1 document has no owners; the channel's creator stands in, else the admins. */
  function RecoverOwners(owners: seq<Id>, admins: seq<Id>, channelCreator: Option<Id>): seq<Id> {
    if owners != [] then owners
    else if channelCreator.Some? then [channelCreator.value]
    else admins
  }

  function ChannelCreator(s: Store): Option<Id> {
    if s.isServer then None else s.creator
  }

  function HeldLists(s: Store): Lists {
    if s.doc.None? then Lists([s.me], [s.me], [s.me])
    else
      var d := s.doc.value;
      Lists(d.members, d.admins, RecoverOwners(d.Owners(), d.admins, ChannelCreator(s)))
  }

  /** What a publish takes from the rest of storage: join times on file,
      recent departures, and the rows of a server's channels. */
  datatype Background = Background(tenure: map<Id, real>, departed: map<Id, Interval>, channels: map<Scope, Blob>)

  function KnownChannels(env: Env, s: Store): set<Scope> {
    if s.doc.Some? then RosterHashes(env, s.doc.value.channels) else {}
  }

  /** Without CREATE_CHANNEL a publisher's roster names no channel that the stored one does not. */
  function RosterRows(env: Env, s: Store, rows: map<Scope, Blob>): map<Scope, Blob> {
    if MayDo(s, s.me, CreateChannel) then rows
    else
      var known := KnownChannels(env, s);
      map h | h in rows && h in known :: rows[h]
  }

  function RosterBlob(env: Env, s: Store, b: Background): Option<Blob> {
    if s.isServer then Some(env.packRoster(RosterRows(env, s, b.channels))) else None
  }

  function NextVersion(s: Store): int {
    if s.doc.Some? && s.doc.value.version.Version? then s.doc.value.version.v + 1 else 1
  }

  function PermissionsBlob(env: Env, s: Store): Blob {
    if Effective(s.perms) == EMPTY then "" else env.pack(Effective(s.perms))
  }

  function Unsigned(env: Env, s: Store, l: Lists, now: real, b: Background): Doc {
    Doc(s.scope, Version(NextVersion(s)), At(now), l.members, 0, l.admins, Some(l.owners),
        PermissionsBlob(env, s),
        Some(map m | m in l.members :: if m in b.tenure then b.tenure[m] else now),
        Some(b.departed),
        RosterBlob(env, s, b),
        map[])
  }

  function BuildDocument(env: Env, s: Store, l: Lists, now: real, b: Background): Doc {
    var d := Unsigned(env, s, l, now, b);
    d.(signatures := map[s.me := env.sign(s.me, SignedItems(d))])
  }

  function PublishedDoc(env: Env, s: Store, now: real, e: Edits, b: Background): Doc {
    BuildDocument(env, s, Edited(HeldLists(s), Gated(s, e)), now, b)
  }

  function Publish(env: Env, s: Store, a: Arrival, e: Edits, b: Background): Outcome {
    Accept(env, s, a, PublishedDoc(env, s, a.now, e, b))
  }

  /** Republishing the lists with the current permissions: stored without asking the acceptance rule. */
  function Rebroadcast(env: Env, s: Store, now: real, b: Background): Store {
    if MayDo(s, s.me, ManageChannel)
    then s.(doc := Some(BuildDocument(env, s, HeldLists(s), now, b)))
    else s
  }
}
