/** Strings cut at separators and numbers written in decimal, as several formats use them. */
module Text {
  import opened Prelude

  predicate IsDigit(c: char) { '0' <= c <= '9' }

  predicate AllDigits(s: string) { forall c | c in s :: IsDigit(c) }

  function DigitValue(c: char): nat
    requires IsDigit(c)
  {
    c as int - '0' as int
  }

  function DigitOf(n: nat): (c: char)
    requires n < 10
    ensures IsDigit(c) && DigitValue(c) == n
  {
    ('0' as int + n) as char
  }

  /** int(s) for a string of decimal digits; leading zeros change nothing. */
  function Value(s: string): nat
    requires AllDigits(s)
  {
    if s == "" then 0 else Value(s[..|s| - 1]) * 10 + DigitValue(s[|s| - 1])
  }

  function Decimal(n: nat): (s: string)
    ensures s != "" && AllDigits(s)
  {
    if n < 10 then [DigitOf(n)] else Decimal(n / 10) + [DigitOf(n % 10)]
  }

  lemma {:induction false} DecimalRoundTrip(n: nat)
    ensures Value(Decimal(n)) == n
  {
    if n >= 10 {
      DecimalRoundTrip(n / 10);
      assert Decimal(n)[..|Decimal(n)| - 1] == Decimal(n / 10);
    }
  }

  lemma DecimalIsInjective(m: nat, n: nat)
    requires Decimal(m) == Decimal(n)
    ensures m == n
  {
    DecimalRoundTrip(m);
    DecimalRoundTrip(n);
  }

  /** The first place of c, or the length of s. */
  function IndexOf(s: string, c: char): (i: nat)
    ensures i <= |s| && c !in s[..i] && (i < |s| ==> s[i] == c)
  {
    if s == "" || s[0] == c then 0
    else
      var i := 1 + IndexOf(s[1..], c);
      assert s[..i] == [s[0]] + s[1..][..i - 1];
      i
  }

  lemma IndexAfter(a: string, c: char, b: string)
    requires c !in a
    ensures IndexOf(a + [c] + b, c) == |a|
    ensures IndexOf(a, c) == |a|
  {
    assert (a + [c] + b)[|a|] == c;
  }

  /** s.split(c): always at least one piece. */
  function Split(s: string, c: char): (parts: seq<string>)
    ensures parts != [] && forall p | p in parts :: c !in p
    decreases |s|
  {
    var i := IndexOf(s, c);
    if i == |s| then
      assert s[..i] == s;
      [s]
    else [s[..i]] + Split(s[i + 1..], c)
  }

  function JoinWith(parts: seq<string>, c: char): string
    requires parts != []
  {
    if |parts| == 1 then parts[0] else parts[0] + [c] + JoinWith(parts[1..], c)
  }

  lemma SplitPrepended(p: string, rest: string, c: char)
    requires c !in p
    ensures Split(p, c) == [p]
    ensures Split(p + [c] + rest, c) == [p] + Split(rest, c)
  {
    IndexAfter(p, c, rest);
    var s := p + [c] + rest;
    assert s[..|p|] == p && s[|p| + 1..] == rest;
  }

  lemma {:induction false} SplitOfJoin(parts: seq<string>, c: char)
    requires parts != [] && forall p | p in parts :: c !in p
    ensures Split(JoinWith(parts, c), c) == parts
  {
    hide Split, IndexOf;
    if |parts| == 1 {
      SplitPrepended(parts[0], "", c);
    } else {
      SplitPrepended(parts[0], JoinWith(parts[1..], c), c);
      SplitOfJoin(parts[1..], c);
    }
  }

  lemma SplitCutsOne(s: string, c: char)
    ensures var i := IndexOf(s, c);
            if i == |s| then Split(s, c) == [s]
            else i < |s| && s[i] == c && Split(s, c) == [s[..i]] + Split(s[i + 1..], c)
  {
    hide IndexOf;
    if IndexOf(s, c) < |s| {
      var rest := Split(s[IndexOf(s, c) + 1..], c);
    }
  }

  lemma {:induction false} JoinOfSplit(s: string, c: char)
    ensures JoinWith(Split(s, c), c) == s
    decreases |s|
  {
    hide Split, JoinWith, IndexOf;
    SplitCutsOne(s, c);
    var i := IndexOf(s, c);
    if i == |s| {
      JoinOne(s, c);
    } else {
      JoinOfSplit(s[i + 1..], c);
      JoinPrepended(s[..i], Split(s[i + 1..], c), c);
      assert s == s[..i] + [s[i]] + s[i + 1..];
    }
  }

  lemma JoinOne(p: string, c: char)
    ensures JoinWith([p], c) == p
  {
  }

  lemma JoinPrepended(p: string, parts: seq<string>, c: char)
    requires parts != []
    ensures JoinWith([p] + parts, c) == p + [c] + JoinWith(parts, c)
  {
    assert ([p] + parts)[1..] == parts;
  }

  lemma {:induction false} JoinContains(parts: seq<string>, c: char, d: char)
    requires parts != []
    ensures d in JoinWith(parts, c) ==> d == c || exists p | p in parts :: d in p
  {
    if |parts| > 1 {
      JoinContains(parts[1..], c, d);
    }
  }
}
