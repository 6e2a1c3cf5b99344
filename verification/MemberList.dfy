/** Member list documents, and the rule by which a node accepts one
    (trenchchat/core/invite.py).

    Everything here concerns one scope: a standalone channel or one server. */
module MemberList {
  import opened Prelude
  import opened Permissions

  /** The 16-byte value that stands for "no signer re-derives". */
  const SENTINEL: int := 0xFFFF_FFFF_FFFF_FFFF_FFFF_FFFF_FFFF_FFFF

  /** A 16-byte identity hash read as a big-endian number, so that < is the order on bytes. */
  type Id = x: int | 0 <= x <= 0xFFFF_FFFF_FFFF_FFFF_FFFF_FFFF_FFFF_FFFF

  type Scope = nat
  type Blob = string
  type Signature = nat

  const MAX_MEMBER_LIST_VERSION := 0x7FFF_FFFF
  const MAX_CLOCK_SKEW_SECS := 300.0

  /** Signed wire values that drive the ordering: a trusted signer can put anything in them. */
  datatype WireVersion = Version(v: int) | NotAnInteger
  datatype WireTime = At(t: real) | NotATime

  datatype Interval = Interval(joined: real, left: real)

  datatype Doc = Doc(
    scope: Scope,
    version: WireVersion,
    publishedAt: WireTime,
    members: seq<Id>,
    strays: nat,                              // entries of members that are not byte strings
    admins: seq<Id>,
    owners: Option<seq<Id>>,                  // absent in a v1 document
    permissions: Blob,
    joinedAt: Option<map<Id, real>>,
    departed: Option<map<Id, Interval>>,
    channels: Option<Blob>,                   // a server's channel roster
    signatures: map<Id, Signature>)
  {
    function Owners(): seq<Id> { owners.GetOr([]) }

    /** The identities this document, once stored, lets sign the next one. */
    function Authority(): set<Id> { ToSet(admins) + ToSet(Owners()) }
  }

  /* The signed payload. */

  /** One element of the list that is packed and signed. */
  datatype Item =
    | ScopeItem(scope: Scope)
    | VersionItem(version: WireVersion)
    | TimeItem(time: WireTime)
    | MembersItem(members: seq<int>, strays: nat)
    | HashesItem(hashes: seq<int>)
    | BlobItem(blob: Blob)
    | JoinedItem(joined: map<Id, real>)
    | DepartedItem(departed: map<Id, Interval>)

  function SignedItems(d: Doc): seq<Item> {
    [ScopeItem(d.scope), VersionItem(d.version), TimeItem(d.publishedAt),
     MembersItem(Sorted(d.members), d.strays), HashesItem(Sorted(d.admins))] +
    (if d.owners.None? then []
     else
       [HashesItem(Sorted(d.owners.value)), BlobItem(d.permissions)] +
       (if d.joinedAt.None? then []
        else
          [JoinedItem(d.joinedAt.value)] +
          (if d.departed.Some? then [DepartedItem(d.departed.value)] else []) +
          (if d.channels.Some? then [BlobItem(d.channels.value)] else [])))
  }

  /* What the model does not compute: cryptography, packing, the clock and the path table. */

  datatype Env = Env(
    valid: (Id, seq<Item>, Signature) -> bool,
    sign: (Id, seq<Item>) -> Signature,
    unpack: Blob -> Option<Perms>,            // None: unreadable, or not of valid shape
    pack: Perms -> Blob,
    roster: Blob -> set<Scope>,               // the channels named, unreadable entries skipped
    packRoster: map<Scope, Blob> -> Blob)

  /** The local clock, and the identities whose keys can be recalled, when a document arrives. */
  datatype Arrival = Arrival(now: real, known: set<Id>)

  /* One node's stored state for the scope. */

  datatype Store = Store(
    me: Id,
    scope: Scope,
    isServer: bool,
    creator: Option<Id>,                      // of the channel or server row
    invited: Option<Id>,                      // the admin whose invite was accepted
    doc: Option<Doc>,
    roles: map<Id, Role>,
    perms: StoredPerms)

  predicate MayDo(s: Store, who: Id, permission: Permission) {
    who in s.roles && HasPermission(Effective(s.perms), s.roles[who], permission)
  }

  function AnchorIds(s: Store): set<Id> {
    (if s.creator.Some? then {s.creator.value} else {}) +
    (if s.invited.Some? then {s.invited.value} else {})
  }

  function TrustedSigners(s: Store): set<Id> {
    if s.doc.Some? then s.doc.value.Authority() else AnchorIds(s)
  }

  predicate Vouches(env: Env, s: Store, a: Arrival, d: Doc, who: Id) {
    && who in d.signatures
    && who in TrustedSigners(s)
    && (who == s.me || who in a.known)
    && env.valid(who, SignedItems(d), d.signatures[who])
  }

  function Vouchers(env: Env, s: Store, a: Arrival, d: Doc): set<Id> {
    set who | who in d.signatures && Vouches(env, s, a, d, who)
  }

  /** The signer that validated: signatures are tried in ascending order of signer. */
  function ValidatedSigner(env: Env, s: Store, a: Arrival, d: Doc): Option<Id> {
    var vouchers := Vouchers(env, s, a, d);
    if vouchers == {} then None else Some(Least(vouchers))
  }

  function RosterHashes(env: Env, channels: Option<Blob>): set<Scope> {
    if channels.None? || channels.value == "" then {} else env.roster(channels.value)
  }

  /** What a trusted signer may change, judged against stored state only. */
  predicate SignerMayApply(env: Env, s: Store, d: Doc, signer: Id) {
    s.doc.Some? ==> MayChange(env, s, s.doc.value, d, signer)
  }

  predicate MayChange(env: Env, s: Store, held: Doc, d: Doc, signer: Id) {
    var removed := ToSet(held.members) - ToSet(d.members);
    && (removed != {} ==>
          && MayDo(s, signer, Kick)
          && (removed * ToSet(held.Owners()) != {} ==> signer in held.Owners())
          && (removed * ToSet(held.admins) != {} ==> MayDo(s, signer, ManageRoles)))
    && (ToSet(held.admins) != ToSet(d.admins) ==> MayDo(s, signer, ManageRoles))
    && (ToSet(held.Owners()) != ToSet(d.Owners()) ==> signer in held.Owners())
    && d.Authority() != {}
    && (d.permissions != "" && d.permissions != held.permissions ==> MayDo(s, signer, ManageChannel))
    && (RosterHashes(env, d.channels) - RosterHashes(env, held.channels) != {} ==> MayDo(s, signer, CreateChannel))
  }

  predicate Plausible(a: Arrival, d: Doc) {
    && d.version.Version? && 0 <= d.version.v <= MAX_MEMBER_LIST_VERSION
    && d.publishedAt.At? && 0.0 <= d.publishedAt.t <= a.now + MAX_CLOCK_SKEW_SECS
  }

  /** (version, publishedAt, signer): a later document has a greater version,
      else a later time, else a lower signer. */
  datatype Key = Key(version: int, time: real, signer: int)

  predicate Later(a: Key, b: Key) {
    || a.version > b.version
    || (a.version == b.version && a.time > b.time)
    || (a.version == b.version && a.time == b.time && a.signer < b.signer)
  }

  function KeyOf(d: Doc, signer: int): Key {
    Key(if d.version.Version? then d.version.v else -1,
        if d.publishedAt.At? then d.publishedAt.t else -1.0,
        signer)
  }

  function StoredSigner(env: Env, s: Store, a: Arrival): int
    requires s.doc.Some?
  {
    ValidatedSigner(env, s, a, s.doc.value).GetOr(SENTINEL)
  }

  predicate Supersedes(env: Env, s: Store, a: Arrival, d: Doc, signer: Id) {
    s.doc.Some? ==> Later(KeyOf(d, signer), KeyOf(s.doc.value, StoredSigner(env, s, a)))
  }

  /* Acceptance. */

  function RoleOf(d: Doc, who: Id): Role {
    if who in d.Owners() then Owner else if who in d.admins then Admin else Member
  }

  function RolesOf(d: Doc): map<Id, Role> {
    map who | who in d.members :: RoleOf(d, who)
  }

  /** Accepted, refused with nothing changed, or Torn: the members table refused
      a repeated member after the document had already been stored. */
  datatype Verdict = Accepted | Refused | Torn

  datatype Outcome = Outcome(store: Store, verdict: Verdict)

  function PermissionsAfter(env: Env, s: Store, d: Doc): StoredPerms {
    if d.permissions != "" && d.owners.Some? && env.unpack(d.permissions).Some? && s.perms != NoRow
    then Stored(Sanitise(env.unpack(d.permissions).value))
    else s.perms
  }

  function Apply(env: Env, s: Store, d: Doc): Outcome {
    if NoDuplicates(d.members)
    then Outcome(s.(doc := Some(d), roles := RolesOf(d), perms := PermissionsAfter(env, s, d)), Accepted)
    else Outcome(s.(doc := Some(d)), Torn)
  }

  predicate Acceptable(env: Env, s: Store, a: Arrival, d: Doc) {
    && d.scope == s.scope
    && Plausible(a, d)
    && ValidatedSigner(env, s, a, d).Some?
    && SignerMayApply(env, s, d, ValidatedSigner(env, s, a, d).value)
    && Supersedes(env, s, a, d, ValidatedSigner(env, s, a, d).value)
    && d.strays == 0
  }

  function Accept(env: Env, s: Store, a: Arrival, d: Doc): Outcome {
    if Acceptable(env, s, a, d) then Apply(env, s, d) else Outcome(s, Refused)
  }
}
