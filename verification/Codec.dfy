/** What an author signs and what names a message, before they are hashed
    (trenchchat/core/protocol.py, trenchchat/core/messaging.py). */
module Codec {
  import opened Prelude
  import opened Text

  /* Length-prefixed joining. */

  const LENGTH_LIMIT: int := 0x1_0000_0000

  /** A length as four bytes, most significant first. */
  function Packed(n: nat): Bytes
    requires n < LENGTH_LIMIT
  {
    [(n / 0x100_0000) as Byte, (n / 0x1_0000 % 0x100) as Byte, (n / 0x100 % 0x100) as Byte, (n % 0x100) as Byte]
  }

  function Unpacked(b: Bytes): nat
    requires |b| == 4
  {
    b[0] as int * 0x100_0000 + b[1] as int * 0x1_0000 + b[2] as int * 0x100 + b[3] as int
  }

  lemma PackedRoundTrip(n: nat)
    requires n < LENGTH_LIMIT
    ensures Unpacked(Packed(n)) == n
  {
    var a, b := n / 0x100, n / 0x1_0000;
    assert n == a * 0x100 + n % 0x100;
    assert a == b * 0x100 + a % 0x100 && a % 0x100 == n / 0x100 % 0x100;
    assert b == n / 0x100_0000 * 0x100 + b % 0x100;
  }

  /** None where packing a length of 2^32 or more raises an error. */
  function LengthPrefixed(parts: seq<Bytes>): Option<Bytes> {
    if parts == [] then Some([])
    else
      var rest := LengthPrefixed(parts[1..]);
      if |parts[0]| >= LENGTH_LIMIT || rest.None? then None
      else Some(Packed(|parts[0]|) + (parts[0] + rest.value))
  }

  /** Reads length-prefixed parts back. */
  function Unprefixed(b: Bytes): Option<seq<Bytes>>
    decreases |b|
  {
    if b == [] then Some([])
    else if |b| < 4 || |b| - 4 < Unpacked(b[..4]) then None
    else
      var end := 4 + Unpacked(b[..4]);
      var rest := Unprefixed(b[end..]);
      if rest.None? then None else Some([b[4..end]] + rest.value)
  }

  /** No field's contents can impersonate a boundary: what was joined is read back exactly. */
  lemma {:induction false} LengthPrefixedRoundTrip(parts: seq<Bytes>)
    requires LengthPrefixed(parts).Some?
    ensures Unprefixed(LengthPrefixed(parts).value) == Some(parts)
  {
    if parts != [] {
      LengthPrefixedRoundTrip(parts[1..]);
      PackedRoundTrip(|parts[0]|);
      var rest := LengthPrefixed(parts[1..]).value;
      var b := LengthPrefixed(parts).value;
      OnePart(parts[0], rest, b);
      assert parts == [parts[0]] + parts[1..];
    }
  }

  lemma OnePart(part: Bytes, rest: Bytes, b: Bytes)
    requires |part| < LENGTH_LIMIT && b == Packed(|part|) + (part + rest)
    ensures b[..4] == Packed(|part|) && b[4..4 + |part|] == part && b[4 + |part|..] == rest
  {
    hide Packed;
    assert |Packed(|part|)| == 4 by { PackedIsFour(|part|); }
    assert b[4..] == part + rest;
    assert b[4..4 + |part|] == b[4..][..|part|] && b[4 + |part|..] == b[4..][|part|..];
  }

  lemma PackedIsFour(n: nat)
    requires n < LENGTH_LIMIT
    ensures |Packed(n)| == 4
  {
  }

  lemma LengthPrefixedIsInjective(a: seq<Bytes>, b: seq<Bytes>)
    requires LengthPrefixed(a).Some?
    requires LengthPrefixed(a) == LengthPrefixed(b)
    ensures a == b
  {
    LengthPrefixedRoundTrip(a);
    LengthPrefixedRoundTrip(b);
  }

  /* Numbers as text. */

  /** A number below ten to the width, with leading zeros. */
  function Padded(n: nat, width: nat): (s: string)
    ensures |s| == width && AllDigits(s)
    decreases width
  {
    if width == 0 then "" else Padded(n / 10, width - 1) + [DigitOf(n % 10)]
  }

  function Pow10(k: nat): (p: nat)
    ensures p >= 1
  {
    if k == 0 then 1 else 10 * Pow10(k - 1)
  }

  lemma {:induction false} PaddedRoundTrip(n: nat, width: nat)
    requires n < Pow10(width)
    ensures Value(Padded(n, width)) == n
    decreases width
  {
    if width > 0 {
      PaddedRoundTrip(n / 10, width - 1);
      assert Padded(n, width)[..width - 1] == Padded(n / 10, width - 1);
    }
  }

  /** A time, in microseconds since the epoch, with exactly six decimals. */
  function TimeText(micros: nat): string {
    Decimal(micros / 1_000_000) + "." + Padded(micros % 1_000_000, 6)
  }

  lemma TimeTextIsInjective(a: nat, b: nat)
    requires TimeText(a) == TimeText(b)
    ensures a == b
  {
    TimeTextReads(a);
    TimeTextReads(b);
  }

  lemma TimeTextReads(t: nat)
    ensures var i := IndexOf(TimeText(t), '.');
            && i < |TimeText(t)| && AllDigits(TimeText(t)[..i]) && AllDigits(TimeText(t)[i + 1..])
            && Value(TimeText(t)[..i]) * 1_000_000 + Value(TimeText(t)[i + 1..]) == t
    ensures ':' !in TimeText(t)
  {
    var whole, part := Decimal(t / 1_000_000), Padded(t % 1_000_000, 6);
    assert '.' !in whole;
    IndexAfter(whole, '.', part);
    assert TimeText(t)[..|whole|] == whole && TimeText(t)[|whole| + 1..] == part;
    DecimalRoundTrip(t / 1_000_000);
    SixDigits();
    PaddedRoundTrip(t % 1_000_000, 6);
  }

  lemma SixDigits()
    ensures Pow10(6) == 1_000_000
  {
    assert Pow10(3) == 1000;
  }

  /** str(n) of an integer. */
  function IntText(n: int): string {
    if n < 0 then "-" + Decimal(-n) else Decimal(n)
  }

  lemma IntTextIsInjective(a: int, b: int)
    requires IntText(a) == IntText(b)
    ensures a == b
  {
    forall n | n == a || n == b ensures n < 0 <==> IntText(n)[0] == '-' {
      assert n >= 0 ==> IsDigit(Decimal(n)[0]);
    }
    if a < 0 {
      assert IntText(a)[1..] == Decimal(-a) && IntText(b)[1..] == Decimal(-b);
      DecimalIsInjective(-a, -b);
    } else {
      DecimalIsInjective(a, b);
    }
  }

  /* What an author signs. */

  type Encoder = string -> Bytes

  /** UTF-8 as the source relies on it: no two texts share an encoding. */
  ghost predicate Encodes(utf8: Encoder) {
    forall s, t :: utf8(s) == utf8(t) ==> s == t
  }

  /** What a peer said about a file, coerced but not judged: any part may be missing. */
  datatype WireManifest = WireManifest(hash: Option<Bytes>, root: Option<Bytes>, name: Option<string>, size: Option<int>)

  datatype Message = Message(
    channel: Bytes,
    id: string,
    micros: nat,
    content: string,
    replyTo: Option<string>,
    lastSeen: Option<string>,
    image: Option<Bytes>,
    manifest: Option<WireManifest>)

  const AUTHOR_SIG_DOMAIN: string := "trenchchat-author-v1"

  function ManifestParts(utf8: Encoder, m: WireManifest): seq<Bytes> {
    [m.hash.GetOr([]), m.root.GetOr([]), utf8(m.name.GetOr("")), utf8(IntText(m.size.GetOr(0)))]
  }

  function MessageParts(utf8: Encoder, sha: Bytes -> Bytes, m: Message): seq<Bytes> {
    [utf8(AUTHOR_SIG_DOMAIN), m.channel, utf8(m.id), utf8(TimeText(m.micros)), utf8(m.replyTo.GetOr("")),
     utf8(m.lastSeen.GetOr("")), sha(m.image.GetOr([])), utf8(m.content)]
  }

  function AuthorParts(utf8: Encoder, sha: Bytes -> Bytes, m: Message): seq<Bytes> {
    MessageParts(utf8, sha, m) + if m.manifest.Some? then ManifestParts(utf8, m.manifest.value) else []
  }

  function AuthorInput(utf8: Encoder, sha: Bytes -> Bytes, m: Message): Option<Bytes> {
    LengthPrefixed(AuthorParts(utf8, sha, m))
  }

  /** The manifest as a signature reaches it: a missing part is an empty one. */
  function BoundManifest(m: WireManifest): WireManifest {
    WireManifest(Some(m.hash.GetOr([])), Some(m.root.GetOr([])), Some(m.name.GetOr("")), Some(m.size.GetOr(0)))
  }

  /** Everything a signature binds: an absent text is an empty one, and the image counts by its hash. */
  datatype BoundMessage = BoundMessage(
    channel: Bytes, id: string, micros: nat, content: string, replyTo: string, lastSeen: string,
    imageHash: Bytes, manifest: Option<WireManifest>)

  function Bound(sha: Bytes -> Bytes, m: Message): BoundMessage {
    BoundMessage(m.channel, m.id, m.micros, m.content, m.replyTo.GetOr(""), m.lastSeen.GetOr(""), sha(m.image.GetOr([])),
                 if m.manifest.Some? then Some(BoundManifest(m.manifest.value)) else None)
  }

  lemma ManifestPartsBind(utf8: Encoder, a: WireManifest, b: WireManifest)
    requires Encodes(utf8)
    ensures ManifestParts(utf8, a) == ManifestParts(utf8, b) <==> BoundManifest(a) == BoundManifest(b)
  {
    var x, y := ManifestParts(utf8, a), ManifestParts(utf8, b);
    if x == y {
      assert x[0] == y[0] && x[1] == y[1] && x[2] == y[2] && x[3] == y[3];
      IntTextIsInjective(a.size.GetOr(0), b.size.GetOr(0));
    }
  }

  lemma MessagePartsBind(utf8: Encoder, sha: Bytes -> Bytes, a: Message, b: Message)
    requires Encodes(utf8)
    ensures MessageParts(utf8, sha, a) == MessageParts(utf8, sha, b)
            <==> Bound(sha, a.(manifest := None)) == Bound(sha, b.(manifest := None))
  {
    var x, y := MessageParts(utf8, sha, a), MessageParts(utf8, sha, b);
    if x == y {
      assert x[1] == y[1] && x[2] == y[2] && x[3] == y[3] && x[4] == y[4] && x[5] == y[5] && x[6] == y[6] && x[7] == y[7];
      TimeTextIsInjective(a.micros, b.micros);
    }
  }

  lemma AuthorPartsBind(utf8: Encoder, sha: Bytes -> Bytes, a: Message, b: Message)
    requires Encodes(utf8)
    ensures AuthorParts(utf8, sha, a) == AuthorParts(utf8, sha, b) <==> Bound(sha, a) == Bound(sha, b)
  {
    var x, y := AuthorParts(utf8, sha, a), AuthorParts(utf8, sha, b);
    MessagePartsBind(utf8, sha, a, b);
    assert x[..8] == MessageParts(utf8, sha, a) && y[..8] == MessageParts(utf8, sha, b);
    assert a.manifest.Some? <==> |x| == 12;
    assert b.manifest.Some? <==> |y| == 12;
    if a.manifest.Some? && b.manifest.Some? {
      ManifestPartsBind(utf8, a.manifest.value, b.manifest.value);
      assert x[8..] == ManifestParts(utf8, a.manifest.value) && y[8..] == ManifestParts(utf8, b.manifest.value);
      assert x == x[..8] + x[8..] && y == y[..8] + y[8..];
    }
  }

  /** Two messages put the same bytes under an author's signature exactly when
      they agree on every field it covers, including whether there is a file. */
  lemma AuthorInputBinds(utf8: Encoder, sha: Bytes -> Bytes, a: Message, b: Message)
    requires Encodes(utf8) && AuthorInput(utf8, sha, a).Some?
    ensures AuthorInput(utf8, sha, a) == AuthorInput(utf8, sha, b) <==> Bound(sha, a) == Bound(sha, b)
  {
    hide AuthorParts, Bound;
    AuthorPartsBind(utf8, sha, a, b);
    if AuthorInput(utf8, sha, a) == AuthorInput(utf8, sha, b) {
      LengthPrefixedIsInjective(AuthorParts(utf8, sha, a), AuthorParts(utf8, sha, b));
    }
  }

  /** What an author signs, read back: the domain, then the channel, the id, the
      time, what is replied to, what was last seen, the image's hash and the
      text; and with a file its hash, its root, its name and its size. */
  lemma AuthorInputReads(utf8: Encoder, sha: Bytes -> Bytes, m: Message)
    requires AuthorInput(utf8, sha, m).Some?
    ensures var parts := Unprefixed(AuthorInput(utf8, sha, m).value);
            && parts.Some? && |parts.value| == (if m.manifest.Some? then 12 else 8)
            && parts.value[0] == utf8("trenchchat-author-v1") && parts.value[1] == m.channel
            && parts.value[2] == utf8(m.id) && parts.value[3] == utf8(TimeText(m.micros))
            && parts.value[4] == utf8(m.replyTo.GetOr("")) && parts.value[5] == utf8(m.lastSeen.GetOr(""))
            && parts.value[6] == sha(m.image.GetOr([])) && parts.value[7] == utf8(m.content)
            && (m.manifest.Some? ==>
                  var w := m.manifest.value;
                  && parts.value[8] == w.hash.GetOr([]) && parts.value[9] == w.root.GetOr([])
                  && parts.value[10] == utf8(w.name.GetOr("")) && parts.value[11] == utf8(IntText(w.size.GetOr(0))))
  {
    LengthPrefixedRoundTrip(AuthorParts(utf8, sha, m));
    hide LengthPrefixed, Unprefixed, TimeText, IntText;
  }

  /* What names a message. */

  function MessageIdText(content: string, sender: string, micros: nat): string {
    content + ":" + sender + ":" + TimeText(micros)
  }

  /** The last place of c before end, or -1. */
  function LastBefore(s: string, end: nat, c: char): (i: int)
    requires end <= |s|
    ensures -1 <= i < end && (i >= 0 ==> s[i] == c) && forall k | i < k < end :: s[k] != c
  {
    if end == 0 then -1 else if s[end - 1] == c then end - 1 else LastBefore(s, end - 1, c)
  }

  /** Reads a message's name from the right: the time and the sender hold no colon, the content may. */
  function ReadMessageId(s: string): (string, string, string) {
    var second := LastBefore(s, |s|, ':');
    if second < 0 then ("", "", s)
    else
      var first := LastBefore(s, second, ':');
      (s[..if first < 0 then 0 else first], s[first + 1..second], s[second + 1..])
  }

  /** Where the pieces of a message's name lie. */
  lemma MessageIdLayout(content: string, sender: string, time: string)
    ensures var s, p, q := content + ":" + sender + ":" + time, |content|, |content| + 1 + |sender|;
            && |s| == q + 1 + |time| && s[p] == ':' && s[q] == ':'
            && (forall k | p < k < q :: s[k] == sender[k - p - 1]) && (forall k | q < k < |s| :: s[k] == time[k - q - 1])
            && s[..p] == content && s[p + 1..q] == sender && s[q + 1..] == time
  {
  }

  lemma ColonsFromRight(content: string, sender: string, time: string)
    requires ':' !in time
    ensures var s, p, q := content + ":" + sender + ":" + time, |content|, |content| + 1 + |sender|;
            && LastBefore(s, |s|, ':') == q && LastBefore(s, q, ':') >= p
            && (LastBefore(s, q, ':') == p <==> ':' !in sender)
  {
    hide LastBefore;
    var s, p, q := content + ":" + sender + ":" + time, |content|, |content| + 1 + |sender|;
    MessageIdLayout(content, sender, time);
    if ':' in sender {
      var k :| 0 <= k < |sender| && sender[k] == ':';
      assert s[p + 1 + k] == ':';
    }
  }

  lemma ReadingFindsColons(content: string, sender: string, time: string)
    requires ':' !in time
    ensures var s, p, q := content + ":" + sender + ":" + time, |content|, |content| + 1 + |sender|;
            && (':' !in sender ==> ReadMessageId(s) == (s[..p], s[p + 1..q], s[q + 1..]))
            && (':' in sender ==> |ReadMessageId(s).0| > |content|)
  {
    hide LastBefore;
    ColonsFromRight(content, sender, time);
  }

  /** Content may hold colons: a message's name gives back its content, sender
      and time exactly when the sender, a hash in hexadecimal, holds none. */
  lemma MessageIdReadsBack(content: string, sender: string, micros: nat)
    ensures ReadMessageId(MessageIdText(content, sender, micros)) == (content, sender, TimeText(micros)) <==> ':' !in sender
  {
    var s, time := MessageIdText(content, sender, micros), TimeText(micros);
    TimeTextReads(micros);
    ReadingFindsColons(content, sender, time);
    if ':' !in sender {
      MessageIdLayout(content, sender, time);
    }
  }

  /** Different messages of one author or several never share a name before hashing. */
  lemma MessageIdsDiffer(content: string, sender: string, micros: nat, content': string, sender': string, micros': nat)
    requires ':' !in sender && ':' !in sender'
    ensures MessageIdText(content, sender, micros) == MessageIdText(content', sender', micros')
            <==> content == content' && sender == sender' && micros == micros'
  {
    MessageIdReadsBack(content, sender, micros);
    MessageIdReadsBack(content', sender', micros');
    if TimeText(micros) == TimeText(micros') {
      TimeTextIsInjective(micros, micros');
    }
  }
}
