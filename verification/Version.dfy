/** Version strings, and which of two comes first (trenchchat/version.py). */
module Version {
  import opened Prelude
  import opened Text

  datatype Version = Version(major: nat, minor: nat, patch: nat, pre: seq<string>, build: string)

  /* Reading one. */

  predicate IsSpace(c: char) {
    var n := c as int;
    9 <= n <= 13 || 28 <= n <= 32 || n == 0x85 || n == 0xA0 || n == 0x1680 || 0x2000 <= n <= 0x200A
    || n == 0x2028 || n == 0x2029 || n == 0x202F || n == 0x205F || n == 0x3000
  }

  function StripLeft(s: string): string {
    if s != "" && IsSpace(s[0]) then StripLeft(s[1..]) else s
  }

  function StripRight(s: string): string {
    if s != "" && IsSpace(s[|s| - 1]) then StripRight(s[..|s| - 1]) else s
  }

  function Strip(s: string): string { StripRight(StripLeft(s)) }

  predicate IsTagChar(c: char) {
    IsDigit(c) || 'A' <= c <= 'Z' || 'a' <= c <= 'z' || c == '.' || c == '-'
  }

  /** What may follow the hyphen or the plus sign. */
  predicate IsTag(s: string) {
    s != "" && forall c | c in s :: IsTagChar(c)
  }

  predicate IsNumber(s: string) { s != "" && AllDigits(s) }

  /** The part after the first c, if there is one. */
  function After(s: string, c: char): Option<string> {
    if IndexOf(s, c) < |s| then Some(s[IndexOf(s, c) + 1..]) else None
  }

  function Before(s: string, c: char): string { s[..IndexOf(s, c)] }

  function ParseTrimmed(s: string): Option<Version> {
    var main, build := Before(s, '+'), After(s, '+');
    var core, pre := Before(main, '-'), After(main, '-');
    var nums := Split(core, '.');
    if |nums| == 3 && IsNumber(nums[0]) && IsNumber(nums[1]) && IsNumber(nums[2])
       && (pre.Some? ==> IsTag(pre.value)) && (build.Some? ==> IsTag(build.value))
    then Some(Version(Value(nums[0]), Value(nums[1]), Value(nums[2]),
                      if pre.Some? then Split(pre.value, '.') else [], build.GetOr("")))
    else None
  }

  function Parse(text: string): Option<Version> {
    ParseTrimmed(Strip(text))
  }

  lemma {:induction false} LeftIsTrimmed(s: string) returns (i: nat)
    ensures i <= |s| && StripLeft(s) == s[i..] && (forall k | 0 <= k < i :: IsSpace(s[k])) && (i < |s| ==> !IsSpace(s[i]))
  {
    hide IsSpace;
    if s != "" && IsSpace(s[0]) {
      var j := LeftIsTrimmed(s[1..]);
      i := j + 1;
      assert forall k | 0 < k < i :: s[k] == s[1..][k - 1];
    } else {
      i := 0;
    }
  }

  lemma {:induction false} RightIsTrimmed(s: string) returns (j: nat)
    ensures j <= |s| && StripRight(s) == s[..j] && (forall k | j <= k < |s| :: IsSpace(s[k])) && (j > 0 ==> !IsSpace(s[j - 1]))
    decreases |s|
  {
    hide IsSpace;
    if s != "" && IsSpace(s[|s| - 1]) {
      j := RightIsTrimmed(s[..|s| - 1]);
      assert forall k | 0 <= k < |s| - 1 :: s[k] == s[..|s| - 1][k];
      assert s[..|s| - 1][..j] == s[..j];
    } else {
      j := |s|;
      assert s[..j] == s;
    }
  }

  /** Trimming leaves what lies between the outer spaces, and no more goes. */
  lemma TrimmedIsBetweenSpaces(s: string) returns (i: nat, j: nat)
    ensures i <= j <= |s| && Strip(s) == s[i..j]
    ensures forall k | (0 <= k < i || j <= k < |s|) :: IsSpace(s[k])
    ensures i < j ==> !IsSpace(s[i]) && !IsSpace(s[j - 1])
  {
    hide IsSpace, StripLeft, StripRight;
    i := LeftIsTrimmed(s);
    var rest := s[i..];
    var n := RightIsTrimmed(rest);
    j := i + n;
    assert forall k | 0 <= k < |rest| :: rest[k] == s[i + k];
    assert rest[..n] == s[i..j];
    forall k | j <= k < |s| ensures IsSpace(s[k]) {
      assert s[k] == rest[k - i];
    }
  }

  /* The grammar the source matches against, and that Parse reads exactly it. */

  /** The pieces a version is spelled from; numbers may have leading zeros. */
  datatype Spelling = Spelling(major: string, minor: string, patch: string, pre: Option<string>, build: Option<string>)

  predicate WellSpelled(x: Spelling) {
    && IsNumber(x.major) && IsNumber(x.minor) && IsNumber(x.patch)
    && (x.pre.Some? ==> IsTag(x.pre.value)) && (x.build.Some? ==> IsTag(x.build.value))
  }

  function Main(x: Spelling): string {
    x.major + "." + x.minor + "." + x.patch + (if x.pre.Some? then "-" + x.pre.value else "")
  }

  function Spelled(x: Spelling): string {
    Main(x) + (if x.build.Some? then "+" + x.build.value else "")
  }

  function Meaning(x: Spelling): Version
    requires WellSpelled(x)
  {
    Version(Value(x.major), Value(x.minor), Value(x.patch),
            if x.pre.Some? then Split(x.pre.value, '.') else [], x.build.GetOr(""))
  }

  lemma JoinThree(parts: seq<string>)
    requires |parts| == 3
    ensures JoinWith(parts, '.') == parts[0] + "." + parts[1] + "." + parts[2]
  {
    var rest := parts[1..];
    assert JoinWith(rest, '.') == parts[1] + ['.'] + JoinWith(rest[1..], '.');
    assert rest[1..] == [parts[2]];
  }

  lemma SplitThree(a: string, b: string, c: string)
    requires AllDigits(a) && AllDigits(b) && AllDigits(c)
    ensures Split(a + "." + b + "." + c, '.') == [a, b, c]
  {
    JoinThree([a, b, c]);
    SplitOfJoin([a, b, c], '.');
  }

  lemma CutAt(a: string, c: char, b: Option<string>)
    requires c !in a
    ensures var s := a + (if b.Some? then [c] + b.value else "");
            Before(s, c) == a && After(s, c) == b
  {
    if b.Some? {
      assert a + ([c] + b.value) == a + [c] + b.value;
      IndexAfter(a, c, b.value);
    } else {
      assert a + "" == a;
      IndexAfter(a, c, "");
    }
  }

  lemma SpelledIsParsed(x: Spelling)
    requires WellSpelled(x)
    ensures ParseTrimmed(Spelled(x)) == Some(Meaning(x))
  {
    var core := x.major + "." + x.minor + "." + x.patch;
    assert '-' !in core && '+' !in core;
    assert x.pre.Some? ==> forall c | c in x.pre.value :: IsTagChar(c);
    assert '+' !in Main(x);
    CutAt(Main(x), '+', x.build);
    CutAt(core, '-', x.pre);
    SplitThree(x.major, x.minor, x.patch);
  }

  lemma Rejoined(s: string, c: char)
    ensures s == Before(s, c) + (if After(s, c).Some? then [c] + After(s, c).value else "")
  {
  }

  lemma ParsedIsSpelled(s: string)
    requires ParseTrimmed(s).Some?
    ensures exists x :: WellSpelled(x) && Spelled(x) == s && ParseTrimmed(s) == Some(Meaning(x))
  {
    var main, build := Before(s, '+'), After(s, '+');
    var core, pre := Before(main, '-'), After(main, '-');
    var nums := Split(core, '.');
    var x := Spelling(nums[0], nums[1], nums[2], pre, build);
    Rejoined(s, '+');
    Rejoined(main, '-');
    JoinOfSplit(core, '.');
    JoinThree(nums);
    assert Main(x) == main;
    assert WellSpelled(x) && Spelled(x) == s;
  }

  /** A text is a version exactly when, trimmed, it is spelled by the grammar, and then it means what its pieces mean. */
  lemma ParseReadsTheGrammar(text: string, v: Version)
    ensures Parse(text) == Some(v) <==> exists x :: WellSpelled(x) && Spelled(x) == Strip(text) && v == Meaning(x)
  {
    if Parse(text).Some? {
      ParsedIsSpelled(Strip(text));
    }
    if x :| WellSpelled(x) && Spelled(x) == Strip(text) && v == Meaning(x) {
      SpelledIsParsed(x);
    }
  }

  /* Writing one. */

  predicate WellFormed(v: Version) {
    && (v.pre != [] ==> IsTag(JoinWith(v.pre, '.')) && forall p | p in v.pre :: '.' !in p)
    && (v.build != "" ==> IsTag(v.build))
  }

  function Canonical(v: Version): Spelling {
    Spelling(Decimal(v.major), Decimal(v.minor), Decimal(v.patch),
             if v.pre == [] then None else Some(JoinWith(v.pre, '.')), if v.build == "" then None else Some(v.build))
  }

  lemma NothingToStrip(s: string)
    requires s != "" && !IsSpace(s[0]) && !IsSpace(s[|s| - 1])
    ensures Strip(s) == s
  {
  }

  lemma LastOfSpelled(x: Spelling)
    requires WellSpelled(x)
    ensures Spelled(x) != "" && IsTagChar(Spelled(x)[0]) && IsTagChar(Spelled(x)[|Spelled(x)| - 1])
  {
    assert IsDigit(x.major[0]) && IsDigit(x.patch[|x.patch| - 1]);
    assert Main(x)[0] == x.major[0];
    if x.build.Some? {
      assert IsTagChar(x.build.value[|x.build.value| - 1]);
    } else if x.pre.Some? {
      assert IsTagChar(x.pre.value[|x.pre.value| - 1]);
    }
  }

  /** Writing a version out and reading it back gives it again. */
  lemma RenderedIsParsed(v: Version)
    requires WellFormed(v)
    ensures Parse(Spelled(Canonical(v))) == Some(v)
  {
    var x := Canonical(v);
    LastOfSpelled(x);
    NothingToStrip(Spelled(x));
    SpelledIsParsed(x);
    DecimalRoundTrip(v.major);
    DecimalRoundTrip(v.minor);
    DecimalRoundTrip(v.patch);
    if v.pre != [] {
      SplitOfJoin(v.pre, '.');
    }
  }

  lemma ParsedIsWellFormed(text: string)
    requires Parse(text).Some?
    ensures WellFormed(Parse(text).value)
  {
    var main := Before(Strip(text), '+');
    if After(main, '-').Some? {
      JoinOfSplit(After(main, '-').value, '.');
    }
  }

  /* Comparing two. */

  function Sign(a: int, b: int): int { if a > b then 1 else if a < b then -1 else 0 }

  /** The order of strings by code point. */
  function CompareText(a: string, b: string): int {
    if a == "" || b == "" then Sign(|a|, |b|)
    else if a[0] != b[0] then Sign(a[0] as int, b[0] as int)
    else CompareText(a[1..], b[1..])
  }

  predicate Numeric(s: string) { s != "" && AllDigits(s) }

  function CompareIdentifiers(a: string, b: string): int {
    if Numeric(a) && Numeric(b) then Sign(Value(a), Value(b))
    else if Numeric(a) != Numeric(b) then (if Numeric(a) then -1 else 1)
    else CompareText(a, b)
  }

  function CompareLists(a: seq<string>, b: seq<string>): int {
    if a == [] || b == [] then Sign(|a|, |b|)
    else if CompareIdentifiers(a[0], b[0]) != 0 then CompareIdentifiers(a[0], b[0])
    else CompareLists(a[1..], b[1..])
  }

  /** No prerelease outranks any prerelease. */
  function ComparePrerelease(a: seq<string>, b: seq<string>): int {
    if a == [] && b == [] then 0
    else if a == [] then 1
    else if b == [] then -1
    else CompareLists(a, b)
  }

  function Compare(v: Version, w: Version): int {
    if v.major != w.major then Sign(v.major, w.major)
    else if v.minor != w.minor then Sign(v.minor, w.minor)
    else if v.patch != w.patch then Sign(v.patch, w.patch)
    else ComparePrerelease(v.pre, w.pre)
  }

  function CompareVersions(a: string, b: string): Option<int> {
    if Parse(a).None? || Parse(b).None? then None else Some(Compare(Parse(a).value, Parse(b).value))
  }

  /** The comparison as the source walks it: both lists side by side, then their lengths. */
  method WalkPrerelease(a: seq<string>, b: seq<string>) returns (r: int)
    ensures r == ComparePrerelease(a, b)
  {
    if a == [] && b == [] {
      return 0;
    }
    if a == [] {
      return 1;
    }
    if b == [] {
      return -1;
    }
    var shorter := if |a| < |b| then |a| else |b|;
    for i := 0 to shorter
      invariant CompareLists(a[i..], b[i..]) == CompareLists(a, b)
    {
      assert a[i..][0] == a[i] && b[i..][0] == b[i] && a[i..][1..] == a[i + 1..] && b[i..][1..] == b[i + 1..];
      r := CompareIdentifiers(a[i], b[i]);
      if r != 0 {
        return r;
      }
    }
    return Sign(|a|, |b|);
  }
}
