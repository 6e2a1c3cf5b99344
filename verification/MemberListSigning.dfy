/** What a signature over a member list document binds. */
module MemberListSigning {
  import opened Prelude
  import opened MemberList

  /** The part of a document that its signature reaches: lists up to order, and
      each optional field only where the field it nests in is present. */
  datatype Bound = Bound(
    scope: Scope, version: WireVersion, publishedAt: WireTime,
    members: multiset<int>, strays: nat, admins: multiset<int>,
    owners: Option<(multiset<int>, Blob)>,
    joinedAt: Option<map<Id, real>>,
    departed: Option<map<Id, Interval>>,
    channels: Option<Blob>)

  function BoundBy(d: Doc): Bound {
    var v2 := d.owners.Some?;
    var v3 := v2 && d.joinedAt.Some?;
    Bound(d.scope, d.version, d.publishedAt,
          multiset(d.members), d.strays, multiset(d.admins),
          if v2 then Some((multiset(d.owners.value), d.permissions)) else None,
          if v3 then d.joinedAt else None,
          if v3 then d.departed else None,
          if v3 then d.channels else None)
  }

  /** The optional tail of the signed list, from the owners on. */
  function OptionalItems(d: Doc): seq<Item> {
    if d.owners.None? then [] else
      [HashesItem(Sorted(d.owners.value)), BlobItem(d.permissions)] +
      (if d.joinedAt.None? then [] else [JoinedItem(d.joinedAt.value)] + RosterItems(d))
  }

  function RosterItems(d: Doc): seq<Item> {
    (if d.departed.Some? then [DepartedItem(d.departed.value)] else []) +
    (if d.channels.Some? then [BlobItem(d.channels.value)] else [])
  }

  lemma RosterItemsUnambiguous(a: Doc, b: Doc)
    ensures RosterItems(a) == RosterItems(b) <==> a.departed == b.departed && a.channels == b.channels
  {
    var x, y := RosterItems(a), RosterItems(b);
    if x == y {
      assert a.departed.Some? <==> x != [] && x[0].DepartedItem?;
      assert b.departed.Some? <==> y != [] && y[0].DepartedItem?;
      assert a.channels.Some? <==> x != [] && x[|x| - 1].BlobItem?;
      assert b.channels.Some? <==> y != [] && y[|y| - 1].BlobItem?;
      assert a.departed.Some? ==> x[0] == DepartedItem(a.departed.value);
      assert a.channels.Some? ==> x[|x| - 1] == BlobItem(a.channels.value);
    }
  }

  lemma OptionalItemsUnambiguous(a: Doc, b: Doc)
    ensures OptionalItems(a) == OptionalItems(b)
            <==> (BoundBy(a).owners == BoundBy(b).owners && BoundBy(a).joinedAt == BoundBy(b).joinedAt
                  && BoundBy(a).departed == BoundBy(b).departed && BoundBy(a).channels == BoundBy(b).channels)
  {
    hide Sorted;
    RosterItemsUnambiguous(a, b);
    if a.owners.Some? && b.owners.Some? {
      SortedIsCanonical(a.owners.value, b.owners.value);
      var x, y := OptionalItems(a), OptionalItems(b);
      assert x[0] == HashesItem(Sorted(a.owners.value)) && x[1] == BlobItem(a.permissions);
      assert y[0] == HashesItem(Sorted(b.owners.value)) && y[1] == BlobItem(b.permissions);
      assert a.joinedAt.Some? ==> x[2] == JoinedItem(a.joinedAt.value) && x[3..] == RosterItems(a);
      assert b.joinedAt.Some? ==> y[2] == JoinedItem(b.joinedAt.value) && y[3..] == RosterItems(b);
      assert a.joinedAt.None? <==> |x| == 2;
      assert b.joinedAt.None? <==> |y| == 2;
    }
  }

  /** The part of the signed list that every document has. */
  function FirstItems(d: Doc): (items: seq<Item>)
    ensures |items| == 5
  {
    [ScopeItem(d.scope), VersionItem(d.version), TimeItem(d.publishedAt),
     MembersItem(Sorted(d.members), d.strays), HashesItem(Sorted(d.admins))]
  }

  lemma ItemsSplit(d: Doc)
    ensures SignedItems(d) == FirstItems(d) + OptionalItems(d)
  {
    hide Sorted;
  }

  lemma FirstItemsUnambiguous(a: Doc, b: Doc)
    ensures FirstItems(a) == FirstItems(b)
            <==> (a.scope == b.scope && a.version == b.version && a.publishedAt == b.publishedAt && a.strays == b.strays
                  && multiset(a.members) == multiset(b.members) && multiset(a.admins) == multiset(b.admins))
  {
    hide Sorted;
    SortedIsCanonical(a.members, b.members);
    SortedIsCanonical(a.admins, b.admins);
    var x, y := FirstItems(a), FirstItems(b);
    assert x == y <==> x[0] == y[0] && x[1] == y[1] && x[2] == y[2] && x[3] == y[3] && x[4] == y[4];
  }

  lemma ConcatCancels<T>(a: seq<T>, b: seq<T>, c: seq<T>, d: seq<T>)
    requires |a| == |c|
    ensures a + b == c + d <==> a == c && b == d
  {
    if a + b == c + d {
      assert a == (a + b)[..|a|] && b == (a + b)[|a|..];
      assert c == (c + d)[..|a|] && d == (c + d)[|a|..];
    }
  }

  /** Two documents have the same signed list exactly when they agree on
      everything a signature reaches: no two readings of one signed list. */
  lemma SignedItemsUnambiguous(a: Doc, b: Doc)
    ensures SignedItems(a) == SignedItems(b) <==> BoundBy(a) == BoundBy(b)
  {
    hide Sorted, SignedItems, FirstItems, OptionalItems;
    ItemsSplit(a);
    ItemsSplit(b);
    ConcatCancels(FirstItems(a), OptionalItems(a), FirstItems(b), OptionalItems(b));
    FirstItemsUnambiguous(a, b);
    OptionalItemsUnambiguous(a, b);
  }

  /** The presence of the optional fields is bound exactly in the nested order
      owners, joined_at, then the rest: without joined_at, any two values of
      departed and channels go out under the same signed list. */
  lemma UnnestedFieldsAreNotBound(d: Doc, departed: Option<map<Id, Interval>>, channels: Option<Blob>)
    requires departed != d.departed || channels != d.channels
    ensures SignedItems(d.(departed := departed, channels := channels)) == SignedItems(d)
            <==> d.owners.None? || d.joinedAt.None?
  {
    SignedItemsUnambiguous(d.(departed := departed, channels := channels), d);
  }

  /** What is signed, in order, in each of the forms a document can have. */
  lemma SignedInOrder(d: Doc)
    ensures var items := SignedItems(d);
            var optional := (if d.departed.Some? then 1 else 0) + (if d.channels.Some? then 1 else 0);
            && |items| == (if d.owners.None? then 5 else if d.joinedAt.None? then 7 else 8 + optional)
            && items[0] == ScopeItem(d.scope) && items[1] == VersionItem(d.version) && items[2] == TimeItem(d.publishedAt)
            && items[3] == MembersItem(Sorted(d.members), d.strays) && items[4] == HashesItem(Sorted(d.admins))
            && (d.owners.Some? ==> items[5] == HashesItem(Sorted(d.owners.value)) && items[6] == BlobItem(d.permissions))
            && (d.owners.Some? && d.joinedAt.Some? ==>
                  && items[7] == JoinedItem(d.joinedAt.value)
                  && (d.departed.Some? ==> items[8] == DepartedItem(d.departed.value))
                  && (d.channels.Some? ==> items[|items| - 1] == BlobItem(d.channels.value)))
  {
    hide Sorted;
  }
}
