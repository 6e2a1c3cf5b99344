/** The buffering loop of the shaper: a stream fed in pieces, with a cap on what
    may stay unframed and on what may wait (devtools/testenv/link_shaper.py). */
module FramingPump {
  import opened Prelude
  import opened Framing

  /** What one read makes of the buffer: frames to offer, and what stays buffered. */
  function Fed(buf: Bytes, chunk: Bytes): Cut {
    var c := Split(buf + chunk);
    if |c.tail| > MAX_PARTIAL_FRAME_BYTES then Cut(c.frames + [c.tail], []) else c
  }

  function FeedAll(buf: Bytes, chunks: seq<Bytes>): Cut
    decreases |chunks|
  {
    if chunks == [] then Cut([], buf)
    else
      var one := Fed(buf, chunks[0]);
      var rest := FeedAll(one.tail, chunks[1..]);
      Cut(one.frames + rest.frames, rest.tail)
  }

  /** Every tail the stream has after one of its pieces is within the cap. */
  predicate NeverOverflows(buf: Bytes, chunks: seq<Bytes>) {
    forall k | 0 < k <= |chunks| :: |Split(buf + Join(chunks[..k])).tail| <= MAX_PARTIAL_FRAME_BYTES
  }

  lemma FedConserves(buf: Bytes, chunk: Bytes)
    ensures var one := Fed(buf, chunk);
            Join(one.frames) + one.tail == buf + chunk && |one.tail| <= MAX_PARTIAL_FRAME_BYTES
  {
    hide Split;
    var c := Split(buf + chunk);
    SplitIsUnique(c, buf + chunk);
    if |c.tail| > MAX_PARTIAL_FRAME_BYTES {
      JoinAppend(c.frames, [c.tail]);
      assert Join([c.tail]) == c.tail;
    }
  }

  /** No byte is lost, made up or reordered, even where the cap forces a flush,
      and no more than the cap stays unframed. */
  lemma {:induction false} FeedingConserves(buf: Bytes, chunks: seq<Bytes>)
    ensures var all := FeedAll(buf, chunks);
            && Join(all.frames) + all.tail == buf + Join(chunks)
            && (|buf| <= MAX_PARTIAL_FRAME_BYTES ==> |all.tail| <= MAX_PARTIAL_FRAME_BYTES)
    decreases |chunks|
  {
    if chunks != [] {
      hide Fed;
      var one := Fed(buf, chunks[0]);
      FedConserves(buf, chunks[0]);
      var rest := FeedAll(one.tail, chunks[1..]);
      FeedingConserves(one.tail, chunks[1..]);
      JoinAppend(one.frames, rest.frames);
      ConcatAssoc(Join(one.frames), Join(rest.frames), rest.tail);
      ConcatAssoc(Join(one.frames), one.tail, Join(chunks[1..]));
      ConcatAssoc(buf, chunks[0], Join(chunks[1..]));
    }
  }

  lemma JoinPrefix(chunks: seq<Bytes>, k: nat)
    requires 0 < k <= |chunks|
    ensures Join(chunks[..k]) == chunks[0] + Join(chunks[1..][..k - 1])
  {
    assert chunks[..k][1..] == chunks[1..][..k - 1];
  }

  /** Overflowing later is overflowing from the first tail on. */
  lemma OverflowShifts(buf: Bytes, chunks: seq<Bytes>)
    requires chunks != []
    ensures NeverOverflows(buf, chunks) <==>
            |Split(buf + chunks[0]).tail| <= MAX_PARTIAL_FRAME_BYTES && NeverOverflows(Split(buf + chunks[0]).tail, chunks[1..])
  {
    hide Split;
    var tail := Split(buf + chunks[0]).tail;
    forall k | 0 < k <= |chunks|
      ensures Split(buf + Join(chunks[..k])).tail == Split(tail + Join(chunks[1..][..k - 1])).tail
    {
      JoinPrefix(chunks, k);
      var later := Join(chunks[1..][..k - 1]);
      ConcatAssoc(buf, chunks[0], later);
      SplitComposes(buf + chunks[0], later);
    }
    TailIsSplit(buf + chunks[0]);
    assert Join(chunks[1..][..0]) == [] && tail + [] == tail;
    assert Split(buf + Join(chunks[..1])).tail == Split(tail + Join(chunks[1..][..0])).tail;
    if NeverOverflows(buf, chunks) {
      forall k | 0 < k <= |chunks[1..]| ensures |Split(tail + Join(chunks[1..][..k])).tail| <= MAX_PARTIAL_FRAME_BYTES {
        assert Split(buf + Join(chunks[..k + 1])).tail == Split(tail + Join(chunks[1..][..k])).tail;
      }
    }
  }

  lemma TailIsSplit(buf: Bytes)
    ensures Split(Split(buf).tail) == Cut([], Split(buf).tail)
  {
    hide Split;
    SplitIsUnique(Split(buf), buf);
    SplitIsUnique(Cut([], Split(buf).tail), Split(buf).tail);
  }

  lemma {:induction false} FeedingSplits(buf: Bytes, chunks: seq<Bytes>)
    requires Split(buf) == Cut([], buf)
    ensures NeverOverflows(buf, chunks) ==> FeedAll(buf, chunks) == Split(buf + Join(chunks))
    ensures !NeverOverflows(buf, chunks) ==> exists f | f in FeedAll(buf, chunks).frames :: !IsFrame(f)
    decreases |chunks|
  {
    if chunks == [] {
      assert buf + Join(chunks) == buf;
    } else {
      hide Split, NeverOverflows, IsFrame;
      OverflowShifts(buf, chunks);
      var one := Fed(buf, chunks[0]);
      var c := Split(buf + chunks[0]);
      if |c.tail| > MAX_PARTIAL_FRAME_BYTES {
        TailIsNoFrame(buf + chunks[0]);
        assert one.frames[|c.frames|] == c.tail;
      } else {
        TailIsSplit(buf + chunks[0]);
        FeedingSplits(c.tail, chunks[1..]);
        SplitComposes(buf + chunks[0], Join(chunks[1..]));
        ConcatAssoc(buf, chunks[0], Join(chunks[1..]));
      }
    }
  }

  lemma TailIsNoFrame(buf: Bytes)
    ensures !IsFrame(Split(buf).tail)
  {
    SplitIsUnique(Split(buf), buf);
  }

  /** A stream fed in any pieces is framed as if it had been split at once,
      exactly when no tail on the way exceeds the cap. */
  lemma FramingIgnoresChunking(chunks: seq<Bytes>)
    ensures NeverOverflows([], chunks) <==> FeedAll([], chunks) == Split(Join(chunks))
  {
    hide Split, NeverOverflows, FeedAll;
    SplitIsUnique(Cut([], []), []);
    assert [] + Join(chunks) == Join(chunks);
    FeedingSplits([], chunks);
    SplitIsUnique(Split(Join(chunks)), Join(chunks));
  }

  /* The pump. */

  /** One direction of one link. The ghost fields remember all that passed. */
  class Pump {
    var buf: Bytes
    var queue: seq<Bytes>
    var bytes: nat
    var dropped: nat
    ghost var fed: seq<Bytes>
    ghost var offered: seq<Bytes>
    ghost var sent: seq<Bytes>

    ghost predicate Valid()
      reads this
    {
      && Cut(offered, buf) == FeedAll([], fed)
      && bytes == |Join(fed)|
      && |queue| <= FRAME_QUEUE_MAX
      && dropped + |sent| + |queue| == |offered|
    }

    constructor ()
      ensures Valid() && fed == [] && queue == [] && sent == []
    {
      buf, queue, bytes, dropped := [], [], 0, 0;
      fed, offered, sent := [], [], [];
    }

    /** A full queue drops frames. */
    method Enqueue(frames: seq<Bytes>)
      requires |queue| <= FRAME_QUEUE_MAX
      modifies this`queue, this`dropped
      ensures var room := FRAME_QUEUE_MAX - |old(queue)|;
              var taken := if |frames| < room then |frames| else room;
              queue == old(queue) + frames[..taken] && dropped == old(dropped) + (|frames| - taken)
    {
      ghost var before := queue;
      for i := 0 to |frames|
        invariant queue == before + frames[..if i < FRAME_QUEUE_MAX - |before| then i else FRAME_QUEUE_MAX - |before|]
        invariant dropped == old(dropped) + (i - (|queue| - |before|))
      {
        if |queue| < FRAME_QUEUE_MAX {
          assert frames[..i + 1] == frames[..i] + [frames[i]];
          ConcatAssoc(before, frames[..i], [frames[i]]);
          queue := queue + [frames[i]];
        } else {
          dropped := dropped + 1;
        }
      }
    }

    /** One read from the peer: whatever is whole goes to the queue. */
    method Feed(chunk: Bytes)
      requires Valid()
      modifies this
      ensures Valid() && fed == old(fed) + [chunk] && sent == old(sent)
      ensures var frames := Fed(old(buf), chunk).frames;
              var room := FRAME_QUEUE_MAX - |old(queue)|;
              var taken := if |frames| < room then |frames| else room;
              && offered == old(offered) + frames
              && queue == old(queue) + frames[..taken] && dropped == old(dropped) + (|frames| - taken)
    {
      hide FeedAll, Join, Fed;
      FeedingMore(fed, chunk);
      JoinAppend(fed, [chunk]);
      JoinOne(chunk);
      bytes := bytes + |chunk|;
      var frames, tail := Unframe(chunk);
      buf := tail;
      Enqueue(frames);
      fed, offered := fed + [chunk], offered + frames;
    }

    /** The frames the buffer holds once this much more has come, and what is left over. */
    method Unframe(chunk: Bytes) returns (frames: seq<Bytes>, tail: Bytes)
      ensures Cut(frames, tail) == Fed(buf, chunk)
    {
      frames, tail := SplitFrames(buf + chunk);
      hide Split;
      if |tail| > MAX_PARTIAL_FRAME_BYTES {
        frames := frames + [tail];
        tail := [];
      }
    }

    /** The link takes the next frame to deliver. */
    method Take() returns (frame: Bytes)
      requires Valid() && queue != []
      modifies this`queue, this`sent
      ensures Valid() && old(queue) == [frame] + queue && sent == old(sent) + [frame]
    {
      frame := queue[0];
      queue := queue[1..];
      sent := sent + [frame];
    }
  }

  lemma {:induction false} FeedingOn(buf: Bytes, chunks: seq<Bytes>, chunk: Bytes)
    ensures var all, one := FeedAll(buf, chunks), Fed(FeedAll(buf, chunks).tail, chunk);
            FeedAll(buf, chunks + [chunk]) == Cut(all.frames + one.frames, one.tail)
    decreases |chunks|
  {
    hide Fed;
    if chunks == [] {
      assert ([] + [chunk])[1..] == [];
      var one := Fed(buf, chunk);
      assert FeedAll(one.tail, []) == Cut([], one.tail) && one.frames + [] == one.frames && [] + one.frames == one.frames;
    } else {
      var first := Fed(buf, chunks[0]);
      assert (chunks + [chunk])[1..] == chunks[1..] + [chunk];
      FeedingOn(first.tail, chunks[1..], chunk);
    }
  }

  lemma JoinOne(chunk: Bytes)
    ensures Join([chunk]) == chunk
  {
    assert [chunk][1..] == [];
  }

  lemma FeedingMore(fed: seq<Bytes>, chunk: Bytes)
    ensures var all, one := FeedAll([], fed), Fed(FeedAll([], fed).tail, chunk);
            FeedAll([], fed + [chunk]) == Cut(all.frames + one.frames, one.tail)
  {
    FeedingOn([], fed, chunk);
  }

  /** Every byte read from the peer is accounted for: in the frames offered to
      the queue, in order, or still in the buffer. */
  lemma PumpLosesNoByte(p: Pump)
    requires p.Valid()
    ensures Join(p.offered) + p.buf == Join(p.fed) && |Join(p.offered)| + |p.buf| == p.bytes
    ensures |p.buf| <= MAX_PARTIAL_FRAME_BYTES
  {
    FeedingConserves([], p.fed);
    assert [] + Join(p.fed) == Join(p.fed);
  }
}
