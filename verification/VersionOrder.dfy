/** Version comparison is the precedence of section 11 of Semantic Versioning
    2.0.0, and a total preorder; what that makes of upgrades and downgrades. */
module VersionOrder {
  import opened Prelude
  import opened Text
  import opened Version

  /* Section 11, stated without reference to how the comparison runs. */

  /** 11.4.2: letters and hyphens compare lexically in ASCII order. */
  ghost predicate TextBefore(a: string, b: string) {
    exists k: nat | k <= |a| && k <= |b| ::
      a[..k] == b[..k] && ((k == |a| && k < |b|) || (k < |a| && k < |b| && a[k] < b[k]))
  }

  /** 11.4.1 to 11.4.3: numbers numerically, and below everything else. */
  ghost predicate IdentifierBefore(x: string, y: string) {
    if Numeric(x) && Numeric(y) then Value(x) < Value(y)
    else if Numeric(x) || Numeric(y) then Numeric(x)
    else TextBefore(x, y)
  }

  predicate SameIdentifier(x: string, y: string) {
    x == y || (Numeric(x) && Numeric(y) && Value(x) == Value(y))
  }

  /** 11.4: identifier by identifier until one differs; 11.4.4: the longer of two otherwise equal lists is the later. */
  ghost predicate ListBeforeAt(a: seq<string>, b: seq<string>, k: nat) {
    && k <= |a| && k <= |b|
    && (forall i | 0 <= i < k :: SameIdentifier(a[i], b[i]))
    && ((k == |a| && k < |b|) || (k < |a| && k < |b| && IdentifierBefore(a[k], b[k])))
  }

  /** 11.3: a version with a prerelease comes before the same version without. */
  ghost predicate PrereleaseBefore(a: seq<string>, b: seq<string>) {
    a != [] && (b == [] || exists k :: ListBeforeAt(a, b, k))
  }

  /** 11.2: major, minor and patch, numerically, from the left. */
  ghost predicate Precedes(v: Version, w: Version) {
    || v.major < w.major
    || (v.major == w.major && v.minor < w.minor)
    || (v.major == w.major && v.minor == w.minor && v.patch < w.patch)
    || (v.major == w.major && v.minor == w.minor && v.patch == w.patch && PrereleaseBefore(v.pre, w.pre))
  }

  /* Strings. */

  lemma {:induction false} TextTurnsRound(a: string, b: string)
    ensures CompareText(b, a) == -CompareText(a, b) && -1 <= CompareText(a, b) <= 1
    ensures CompareText(a, b) == 0 <==> a == b
  {
    if a != "" && b != "" {
      assert a == [a[0]] + a[1..] && b == [b[0]] + b[1..];
      if a[0] == b[0] {
        TextTurnsRound(a[1..], b[1..]);
      }
    }
  }

  lemma {:induction false} TextChains(a: string, b: string, c: string)
    requires CompareText(a, b) <= 0 && CompareText(b, c) <= 0
    ensures CompareText(a, c) <= 0
    ensures CompareText(a, c) == 0 ==> CompareText(a, b) == 0 && CompareText(b, c) == 0
  {
    if a != "" && b != "" && c != "" && a[0] == b[0] == c[0] {
      TextChains(a[1..], b[1..], c[1..]);
    }
  }

  lemma {:induction false} TextIsLexical(a: string, b: string)
    ensures CompareText(a, b) < 0 <==> TextBefore(a, b)
  {
    if a == "" || b == "" {
      if b != "" {
        assert a[..0] == b[..0];
      }
    } else if a[0] != b[0] {
      assert a[..0] == b[..0];
      assert forall k: nat | 0 < k <= |a| && k <= |b| :: a[..k][0] == a[0] && b[..k][0] == b[0];
    } else {
      TextIsLexical(a[1..], b[1..]);
      if CompareText(a, b) < 0 {
        var k: nat :| k <= |a[1..]| && k <= |b[1..]| && a[1..][..k] == b[1..][..k]
                      && ((k == |a[1..]| && k < |b[1..]|) || (k < |a[1..]| && k < |b[1..]| && a[1..][k] < b[1..][k]));
        assert a[..k + 1] == [a[0]] + a[1..][..k] && b[..k + 1] == [b[0]] + b[1..][..k];
      }
      if TextBefore(a, b) {
        var k: nat :| k <= |a| && k <= |b| && a[..k] == b[..k]
                      && ((k == |a| && k < |b|) || (k < |a| && k < |b| && a[k] < b[k]));
        assert k > 0;
        assert a[1..][..k - 1] == a[..k][1..] && b[1..][..k - 1] == b[..k][1..];
      }
    }
  }

  /* Identifiers. */

  lemma IdentifiersTurnRound(x: string, y: string)
    ensures CompareIdentifiers(y, x) == -CompareIdentifiers(x, y) && -1 <= CompareIdentifiers(x, y) <= 1
    ensures CompareIdentifiers(x, y) == 0 <==> SameIdentifier(x, y)
    ensures CompareIdentifiers(x, y) < 0 <==> IdentifierBefore(x, y)
  {
    TextTurnsRound(x, y);
    TextIsLexical(x, y);
  }

  lemma IdentifiersChain(x: string, y: string, z: string)
    requires CompareIdentifiers(x, y) <= 0 && CompareIdentifiers(y, z) <= 0
    ensures CompareIdentifiers(x, z) <= 0
    ensures CompareIdentifiers(x, z) == 0 ==> CompareIdentifiers(x, y) == 0 && CompareIdentifiers(y, z) == 0
  {
    if !Numeric(x) && !Numeric(y) && !Numeric(z) {
      TextChains(x, y, z);
    }
  }

  /* Lists of identifiers. */

  lemma {:induction false} ListsTurnRound(a: seq<string>, b: seq<string>)
    ensures CompareLists(b, a) == -CompareLists(a, b) && -1 <= CompareLists(a, b) <= 1
  {
    if a != [] && b != [] {
      IdentifiersTurnRound(a[0], b[0]);
      ListsTurnRound(a[1..], b[1..]);
    }
  }

  lemma {:induction false} ListsChain(a: seq<string>, b: seq<string>, c: seq<string>)
    requires CompareLists(a, b) <= 0 && CompareLists(b, c) <= 0
    ensures CompareLists(a, c) <= 0
    ensures CompareLists(a, c) == 0 ==> CompareLists(a, b) == 0 && CompareLists(b, c) == 0
  {
    if a != [] && b != [] && c != [] {
      IdentifiersChain(a[0], b[0], c[0]);
      IdentifiersTurnRound(a[0], b[0]);
      IdentifiersTurnRound(b[0], c[0]);
      IdentifiersTurnRound(a[0], c[0]);
      if CompareIdentifiers(a[0], b[0]) == 0 && CompareIdentifiers(b[0], c[0]) == 0 {
        IdentifiersEqualChain(a[0], b[0], c[0]);
        ListsChain(a[1..], b[1..], c[1..]);
      }
    }
  }

  lemma IdentifiersEqualChain(x: string, y: string, z: string)
    requires CompareIdentifiers(x, y) == 0 && CompareIdentifiers(y, z) == 0
    ensures CompareIdentifiers(x, z) == 0
  {
    IdentifiersTurnRound(x, y);
    IdentifiersTurnRound(y, z);
    IdentifiersTurnRound(x, z);
  }

  lemma {:induction false} ListsFollowTheStandard(a: seq<string>, b: seq<string>)
    ensures CompareLists(a, b) < 0 <==> exists k :: ListBeforeAt(a, b, k)
  {
    if a == [] || b == [] {
      if b != [] {
        assert ListBeforeAt(a, b, 0);
      }
    } else {
      IdentifiersTurnRound(a[0], b[0]);
      ListsFollowTheStandard(a[1..], b[1..]);
      if CompareIdentifiers(a[0], b[0]) < 0 {
        assert ListBeforeAt(a, b, 0);
      } else if CompareLists(a, b) < 0 {
        var k: nat :| ListBeforeAt(a[1..], b[1..], k);
        assert ListBeforeAt(a, b, k + 1);
      }
      if k: nat :| ListBeforeAt(a, b, k) {
        if k > 0 {
          assert SameIdentifier(a[0], b[0]);
          assert forall i | 0 <= i < k - 1 :: a[1..][i] == a[i + 1] && b[1..][i] == b[i + 1];
          assert ListBeforeAt(a[1..], b[1..], k - 1);
        }
      }
    }
  }

  /* Versions. */

  /** The comparison is the standard's precedence: negative exactly when the
      first precedes the second, positive exactly when it is the other way round. */
  lemma CompareIsPrecedence(v: Version, w: Version)
    ensures Compare(v, w) < 0 <==> Precedes(v, w)
    ensures Compare(v, w) > 0 <==> Precedes(w, v)
  {
    ListsFollowTheStandard(v.pre, w.pre);
    ListsFollowTheStandard(w.pre, v.pre);
    ListsTurnRound(v.pre, w.pre);
  }

  lemma CompareTurnsRound(v: Version, w: Version)
    ensures Compare(w, v) == -Compare(v, w) && -1 <= Compare(v, w) <= 1
  {
    ListsTurnRound(v.pre, w.pre);
  }

  lemma CompareChains(u: Version, v: Version, w: Version)
    requires Compare(u, v) <= 0 && Compare(v, w) <= 0
    ensures Compare(u, w) <= 0
    ensures Compare(u, w) == 0 ==> Compare(u, v) == 0 && Compare(v, w) == 0
  {
    if u.pre != [] && v.pre != [] && w.pre != [] && CompareLists(u.pre, v.pre) <= 0 && CompareLists(v.pre, w.pre) <= 0 {
      ListsChain(u.pre, v.pre, w.pre);
    }
  }

  /** On all texts that parse the comparison is reflexive, turns its sign when
      turned round, and chains; texts that do not parse compare with nothing. */
  lemma ComparisonIsTotalPreorder(a: string, b: string, c: string)
    ensures CompareVersions(a, b).Some? <==> Parse(a).Some? && Parse(b).Some?
    ensures Parse(a).Some? ==> CompareVersions(a, a) == Some(0)
    ensures CompareVersions(a, b).Some? ==> CompareVersions(b, a) == Some(-CompareVersions(a, b).value)
    ensures CompareVersions(a, b).Some? && CompareVersions(b, c).Some?
            && CompareVersions(a, b).value <= 0 && CompareVersions(b, c).value <= 0 ==>
              CompareVersions(a, c).value <= 0
              && (CompareVersions(a, c) == Some(0) ==> CompareVersions(a, b) == Some(0) && CompareVersions(b, c) == Some(0))
  {
    hide Parse, Compare;
    if Parse(a).Some? {
      CompareTurnsRound(Parse(a).value, Parse(a).value);
      if Parse(b).Some? {
        CompareTurnsRound(Parse(a).value, Parse(b).value);
        if Parse(c).Some? && Compare(Parse(a).value, Parse(b).value) <= 0 && Compare(Parse(b).value, Parse(c).value) <= 0 {
          CompareChains(Parse(a).value, Parse(b).value, Parse(c).value);
        }
      }
    }
  }

  /** 11.1: build metadata carries no precedence: relabelling either side changes no comparison. */
  lemma BuildIsIgnored(v: Version, w: Version, tag: string)
    requires WellFormed(v) && WellFormed(w) && IsTag(tag)
    ensures CompareVersions(Spelled(Canonical(v.(build := tag))), Spelled(Canonical(w)))
            == CompareVersions(Spelled(Canonical(v)), Spelled(Canonical(w)))
    ensures CompareVersions(Spelled(Canonical(v.(build := tag))), Spelled(Canonical(v))) == Some(0)
  {
    hide Parse, Spelled, Canonical;
    RenderedIsParsed(v);
    RenderedIsParsed(w);
    RenderedIsParsed(v.(build := tag));
    CompareTurnsRound(v, v);
  }

  /* What changed since the last launch. */

  datatype Change = FirstRun | Unknown | Same | Upgrade | Downgrade | Sidegrade

  /** previous: what was recorded, the empty text standing for nothing. */
  function ClassifyChange(previous: string, current: string, profileExists: bool): Change {
    if previous == "" then (if profileExists then Unknown else FirstRun)
    else if previous == current then Same
    else
      match CompareVersions(current, previous)
      case None => Unknown
      case Some(r) => if r > 0 then Upgrade else if r < 0 then Downgrade else Sidegrade
  }

  /** The step from what was recorded to what runs now is named by the
      precedence of section 11; with nothing recorded, by whether a profile exists. */
  lemma ChangeNamesPrecedence(previous: string, current: string, profileExists: bool)
    ensures var c, v, w := ClassifyChange(previous, current, profileExists), Parse(previous), Parse(current);
            && (c == FirstRun <==> previous == "" && !profileExists)
            && (c == Same <==> previous != "" && previous == current)
            && (previous != "" && previous != current ==>
                  && (c == Upgrade <==> v.Some? && w.Some? && Precedes(v.value, w.value))
                  && (c == Downgrade <==> v.Some? && w.Some? && Precedes(w.value, v.value))
                  && (c == Sidegrade <==> v.Some? && w.Some? && !Precedes(v.value, w.value) && !Precedes(w.value, v.value))
                  && (c == Unknown <==> v.None? || w.None?))
            && (previous == "" && profileExists ==> c == Unknown)
  {
    hide Parse, Compare, Precedes;
    if Parse(previous).Some? && Parse(current).Some? {
      CompareIsPrecedence(Parse(current).value, Parse(previous).value);
    }
  }

  /** Going there and coming back are named the opposite way. */
  lemma UpgradeIsDowngradeBack(a: string, b: string, profileExists: bool)
    requires a != "" && b != ""
    ensures ClassifyChange(a, b, profileExists) == Upgrade <==> ClassifyChange(b, a, profileExists) == Downgrade
    ensures ClassifyChange(a, b, profileExists) == Sidegrade <==> ClassifyChange(b, a, profileExists) == Sidegrade
    ensures ClassifyChange(a, b, profileExists) == Unknown <==> ClassifyChange(b, a, profileExists) == Unknown
  {
    ComparisonIsTotalPreorder(a, b, a);
    ComparisonIsTotalPreorder(b, a, b);
  }

  /** Upgrading twice, or an upgrade before or after a sidegrade, is an upgrade over both. */
  lemma UpgradesAddUp(a: string, b: string, c: string, profileExists: bool)
    requires a != "" && b != "" && c != ""
    requires ClassifyChange(a, b, profileExists) == Upgrade
    requires ClassifyChange(b, c, profileExists) in {Upgrade, Sidegrade, Same}
    ensures ClassifyChange(a, c, profileExists) == Upgrade
  {
    ComparisonIsTotalPreorder(a, b, c);
    ComparisonIsTotalPreorder(c, b, a);
    ComparisonIsTotalPreorder(b, c, a);
    ComparisonIsTotalPreorder(a, c, b);
  }
}
