/** Cutting an HDLC stream into frames, whole or as it arrives (devtools/testenv/link_shaper.py). */
module Framing {
  import opened Prelude

  const HDLC_FLAG: Byte := 0x7E
  const FRAME_QUEUE_MAX: nat := 1024
  const MAX_PARTIAL_FRAME_BYTES: nat := 262144

  /** The first flag at or after start, or the length of the buffer. */
  function Find(buf: Bytes, start: nat): (i: nat)
    requires start <= |buf|
    ensures start <= i <= |buf| && (i < |buf| ==> buf[i] == HDLC_FLAG)
    ensures forall k | start <= k < i :: buf[k] != HDLC_FLAG
    decreases |buf| - start
  {
    if start == |buf| || buf[start] == HDLC_FLAG then start else Find(buf, start + 1)
  }

  /** One past the second flag from start on, if there are two. */
  function FrameEnd(buf: Bytes, start: nat): (end: Option<nat>)
    requires start <= |buf|
    ensures end.Some? ==> start + 2 <= end.value <= |buf|
  {
    var opening := Find(buf, start);
    if opening == |buf| then None
    else
      var closing := Find(buf, opening + 1);
      if closing == |buf| then None else Some(closing + 1)
  }

  datatype Cut = Cut(frames: seq<Bytes>, tail: Bytes)

  function SplitFrom(buf: Bytes, start: nat): Cut
    requires start <= |buf|
    decreases |buf| - start
  {
    if FrameEnd(buf, start).None? then Cut([], buf[start..])
    else
      var end := FrameEnd(buf, start).value;
      var rest := SplitFrom(buf, end);
      Cut([buf[start..end]] + rest.frames, rest.tail)
  }

  function Split(buf: Bytes): Cut { SplitFrom(buf, 0) }

  /* What a split is, whatever finds it. */

  function Flags(s: Bytes): nat {
    if s == [] then 0 else (if s[0] == HDLC_FLAG then 1 else 0) + Flags(s[1..])
  }

  /** Two flags, the second of them last. */
  predicate IsFrame(f: Bytes) {
    f != [] && f[|f| - 1] == HDLC_FLAG && Flags(f) == 2
  }

  predicate IsSplitOf(c: Cut, buf: Bytes) {
    && Join(c.frames) + c.tail == buf
    && (forall f | f in c.frames :: IsFrame(f))
    && Flags(c.tail) < 2
  }

  lemma {:induction false} FlagsAdd(a: Bytes, b: Bytes)
    ensures Flags(a + b) == Flags(a) + Flags(b)
  {
    if a == [] {
      assert a + b == b;
    } else {
      assert (a + b)[1..] == a[1..] + b;
      FlagsAdd(a[1..], b);
    }
  }

  lemma {:induction false} NoFlags(s: Bytes)
    ensures Flags(s) == 0 <==> HDLC_FLAG !in s
  {
    if s != [] {
      NoFlags(s[1..]);
      assert s == [s[0]] + s[1..];
    }
  }

  lemma OneFlag(s: Bytes)
    ensures Flags(s + [HDLC_FLAG]) == Flags(s) + 1
  {
    FlagsAdd(s, [HDLC_FLAG]);
    assert [HDLC_FLAG][1..] == [];
  }

  lemma FlagsUpTo(s: Bytes, o: nat, c: nat)
    requires o < c <= |s| && s[o] == HDLC_FLAG
    requires HDLC_FLAG !in s[..o] && HDLC_FLAG !in s[o + 1..c]
    ensures Flags(s[..c]) == 1
    ensures c < |s| && s[c] == HDLC_FLAG ==> Flags(s[..c + 1]) == 2
  {
    NoFlags(s[..o]);
    NoFlags(s[o + 1..c]);
    assert s[..o + 1] == s[..o] + [HDLC_FLAG];
    OneFlag(s[..o]);
    assert s[..c] == s[..o + 1] + s[o + 1..c];
    FlagsAdd(s[..o + 1], s[o + 1..c]);
    if c < |s| && s[c] == HDLC_FLAG {
      assert s[..c + 1] == s[..c] + [HDLC_FLAG];
      OneFlag(s[..c]);
    }
  }

  /** The end of the first frame is where the second flag is. */
  lemma FrameEndIsSecondFlag(buf: Bytes, start: nat)
    requires start <= |buf|
    ensures FrameEnd(buf, start).Some? ==> IsFrame(buf[start..FrameEnd(buf, start).value])
    ensures FrameEnd(buf, start).None? <==> Flags(buf[start..]) < 2
  {
    hide Find, Flags;
    var s, o := buf[start..], Find(buf, start);
    if o == |buf| {
      NoFlags(s);
    } else {
      var c := Find(buf, o + 1);
      FlagsUpTo(s, o - start, c - start);
      if c == |buf| {
        assert s[..c - start] == s;
      } else {
        var f := buf[start..c + 1];
        assert s[..c + 1 - start] == f && s == f + buf[c + 1..];
        FlagsAdd(f, buf[c + 1..]);
      }
    }
  }

  /** One frame is cut off, or what is left is the tail. */
  lemma SplitCutsOne(buf: Bytes, start: nat)
    requires start <= |buf|
    ensures FrameEnd(buf, start).Some? ==>
              var end := FrameEnd(buf, start).value;
              && start < end <= |buf| && buf[start..] == buf[start..end] + buf[end..]
              && SplitFrom(buf, start) == Cut([buf[start..end]] + SplitFrom(buf, end).frames, SplitFrom(buf, end).tail)
    ensures FrameEnd(buf, start).None? ==> SplitFrom(buf, start) == Cut([], buf[start..])
  {
  }

  lemma TailIsSplit(tail: Bytes)
    requires Flags(tail) < 2
    ensures IsSplitOf(Cut([], tail), tail)
  {
  }

  /** Splitting loses no byte, every frame holds exactly two flags, and fewer than two are left over. */
  lemma {:induction false} SplitSplits(buf: Bytes, start: nat)
    requires start <= |buf|
    ensures IsSplitOf(SplitFrom(buf, start), buf[start..])
    decreases |buf| - start
  {
    hide SplitFrom, FrameEnd, IsSplitOf, IsFrame, Flags;
    FrameEndIsSecondFlag(buf, start);
    SplitCutsOne(buf, start);
    if FrameEnd(buf, start).Some? {
      var end := FrameEnd(buf, start).value;
      SplitSplits(buf, end);
      Prepended(buf[start..end], SplitFrom(buf, end), buf[end..]);
    } else {
      TailIsSplit(buf[start..]);
    }
  }

  lemma Prepended(f: Bytes, rest: Cut, later: Bytes)
    requires IsFrame(f) && IsSplitOf(rest, later)
    ensures IsSplitOf(Cut([f] + rest.frames, rest.tail), f + later)
  {
    hide Flags;
    assert ([f] + rest.frames)[1..] == rest.frames;
    assert f + Join(rest.frames) + rest.tail == f + (Join(rest.frames) + rest.tail);
  }

  /** Two frames that start the same bytes are the same frame. */
  lemma FramesDoNotNest(f: Bytes, g: Bytes, buf: Bytes)
    requires IsFrame(f) && IsFrame(g) && f <= buf && g <= buf
    ensures f == g
  {
    if |f| < |g| {
      PrefixLacksFlag(f, g);
    } else if |g| < |f| {
      PrefixLacksFlag(g, f);
    }
  }

  lemma PrefixLacksFlag(f: Bytes, g: Bytes)
    requires IsFrame(g) && f < g
    ensures Flags(f) < 2
  {
    assert g == f + (g[|f|..|g| - 1] + [HDLC_FLAG]);
    FlagsAdd(f, g[|f|..|g| - 1] + [HDLC_FLAG]);
    FlagsAdd(g[|f|..|g| - 1], [HDLC_FLAG]);
    assert Flags([HDLC_FLAG]) == 1;
  }

  lemma {:induction false} SplitIsUniqueFrom(c: Cut, buf: Bytes, start: nat)
    requires start <= |buf| && IsSplitOf(c, buf[start..])
    ensures c == SplitFrom(buf, start)
    decreases |c.frames|
  {
    hide Flags, FrameEnd;
    FrameEndIsSecondFlag(buf, start);
    if c.frames == [] {
      assert c.tail == buf[start..];
    } else {
      var f, rest := c.frames[0], Cut(c.frames[1..], c.tail);
      var later := Join(rest.frames) + rest.tail;
      assert buf[start..] == f + later;
      FlagsAdd(f, later);
      assert IsFrame(f);
      var end := FrameEnd(buf, start).value;
      assert buf[start..end] <= buf[start..];
      FramesDoNotNest(f, buf[start..end], buf[start..]);
      assert buf[end..] == later;
      SplitIsUniqueFrom(rest, buf, end);
      assert c.frames == [f] + rest.frames;
    }
  }

  /** There is only one way to split: a cut loses no byte, has frames of exactly
      two flags and fewer than two left over if and only if it is the one computed. */
  lemma SplitIsUnique(c: Cut, buf: Bytes)
    ensures IsSplitOf(c, buf) <==> c == Split(buf)
  {
    hide IsSplitOf;
    assert buf[0..] == buf;
    SplitSplits(buf, 0);
    if IsSplitOf(c, buf) {
      SplitIsUniqueFrom(c, buf, 0);
    }
  }

  /** What has been split stays split when more arrives: only the tail is looked at again. */
  lemma SplitComposes(a: Bytes, b: Bytes)
    ensures var first := Split(a);
            var second := Split(first.tail + b);
            Split(a + b) == Cut(first.frames + second.frames, second.tail)
  {
    hide Split, Join, Flags;
    var first := Split(a);
    var second := Split(first.tail + b);
    SplitIsUnique(first, a);
    SplitIsUnique(second, first.tail + b);
    JoinAppend(first.frames, second.frames);
    var x, y := Join(first.frames), Join(second.frames);
    assert x + y + second.tail == x + (y + second.tail) == x + (first.tail + b) == (x + first.tail) + b;
    SplitIsUnique(Cut(first.frames + second.frames, second.tail), a + b);
  }

  lemma SplitStep(buf: Bytes, start: nat)
    requires start <= |buf|
    ensures var o := Find(buf, start);
            SplitFrom(buf, start) ==
              if o == |buf| || Find(buf, o + 1) == |buf| then Cut([], buf[start..])
              else
                var rest := SplitFrom(buf, Find(buf, o + 1) + 1);
                Cut([buf[start..Find(buf, o + 1) + 1]] + rest.frames, rest.tail)
  {
  }

  /** The split as the source finds it, one flag after another. */
  method SplitFrames(buf: Bytes) returns (frames: seq<Bytes>, tail: Bytes)
    ensures Cut(frames, tail) == Split(buf)
  {
    frames := [];
    var start := 0;
    hide SplitFrom, Find;
    while true
      invariant start <= |buf|
      invariant var rest := SplitFrom(buf, start);
                Split(buf) == Cut(frames + rest.frames, rest.tail)
      decreases |buf| - start
    {
      SplitStep(buf, start);
      var opening := Find(buf, start);
      if opening == |buf| {
        break;
      }
      var closing := Find(buf, opening + 1);
      if closing == |buf| {
        break;
      }
      ghost var rest := SplitFrom(buf, closing + 1);
      assert frames + ([buf[start..closing + 1]] + rest.frames) == (frames + [buf[start..closing + 1]]) + rest.frames;
      frames := frames + [buf[start..closing + 1]];
      start := closing + 1;
    }
    tail := buf[start..];
  }
}
