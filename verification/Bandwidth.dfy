/** Byte rates over sliding windows from cumulative interface counters (trenchchat/core/bandwidth.py). */
module Bandwidth {
  import opened Prelude

  const MIN_SAMPLE_GAP_SECS: real := 0.25
  const MAX_AGE_SECS: real := 305.0      // the largest window, 300, and the slack of 5

  type Name = int

  datatype Counter = Counter(rx: nat, tx: nat)

  /** One reading of every interface there is at the moment. */
  type Reading = map<Name, Counter>

  datatype Sample = Sample(ts: real, per: Reading)

  /* Sums over interfaces, whatever the order they are visited in. */

  function Sum(m: map<Name, nat>): nat
    decreases |m|
  {
    if m == map[] then 0
    else
      var n: Name := Least(m.Keys);
      m[n] + Sum(m - {n})
  }

  lemma {:induction false} SumPicks(m: map<Name, nat>, n: Name)
    requires n in m
    ensures Sum(m) == m[n] + Sum(m - {n})
    decreases |m|
  {
    var first := Least(m.Keys);
    if n != first {
      SumPicks(m - {first}, n);
      SumPicks(m - {n}, first);
      assert m - {first} - {n} == m - {n} - {first};
    }
  }

  lemma {:induction false} SumGrows(a: map<Name, nat>, b: map<Name, nat>)
    requires a.Keys <= b.Keys && forall n | n in a :: a[n] <= b[n]
    ensures Sum(a) <= Sum(b)
    decreases |a|
  {
    if a != map[] {
      var n := Least(a.Keys);
      SumPicks(b, n);
      SumGrows(a - {n}, b - {n});
    }
  }

  /* What a window reports. */

  /** Bytes between two readings of one counter; a counter that went down was restarted at zero. */
  function CounterDelta(older: nat, newer: nat): nat {
    if newer < older then newer else newer - older
  }

  function RxOf(r: Reading, n: Name): nat { if n in r then r[n].rx else 0 }

  function TxOf(r: Reading, n: Name): nat { if n in r then r[n].tx else 0 }

  function RxDeltas(older: Reading, newer: Reading): map<Name, nat> {
    map n | n in newer :: CounterDelta(RxOf(older, n), RxOf(newer, n))
  }

  function TxDeltas(older: Reading, newer: Reading): map<Name, nat> {
    map n | n in newer :: CounterDelta(TxOf(older, n), TxOf(newer, n))
  }

  function WindowDelta(older: Reading, newer: Reading): Counter {
    Counter(Sum(RxDeltas(older, newer)), Sum(TxDeltas(older, newer)))
  }

  /** The first sample no older than the cutoff, or the last. */
  function OldestWithin(samples: seq<Sample>, cutoff: real): (s: Sample)
    requires samples != []
    ensures s in samples
  {
    if samples[0].ts >= cutoff || |samples| == 1 then samples[0] else OldestWithin(samples[1..], cutoff)
  }

  datatype Window = Window(span: real, moved: Counter)

  function Report(samples: seq<Sample>, secs: real): Window
    requires samples != []
  {
    var latest := samples[|samples| - 1];
    var oldest := OldestWithin(samples, latest.ts - secs);
    Window(latest.ts - oldest.ts, WindowDelta(oldest.per, latest.per))
  }

  /* The samples held. */

  function DropOlder(samples: seq<Sample>, cutoff: real): (r: seq<Sample>)
    ensures forall s | s in r :: s in samples
    ensures samples != [] && samples[|samples| - 1].ts >= cutoff ==> r != [] && r[|r| - 1] == samples[|samples| - 1]
  {
    if samples != [] && samples[0].ts < cutoff then DropOlder(samples[1..], cutoff) else samples
  }

  predicate TooSoon(samples: seq<Sample>, now: real) {
    samples != [] && now - samples[|samples| - 1].ts < MIN_SAMPLE_GAP_SECS
  }

  function Recorded(samples: seq<Sample>, s: Sample): seq<Sample> {
    if TooSoon(samples, s.ts) then samples else DropOlder(samples + [s], s.ts - MAX_AGE_SECS)
  }

  predicate Spaced(samples: seq<Sample>) {
    forall i | 0 <= i < |samples| - 1 :: samples[i].ts + MIN_SAMPLE_GAP_SECS <= samples[i + 1].ts
  }

  predicate Held(samples: seq<Sample>) {
    && Spaced(samples)
    && (forall s | s in samples :: samples[|samples| - 1].ts - MAX_AGE_SECS <= s.ts)
  }

  lemma {:induction false} DroppingHolds(samples: seq<Sample>, cutoff: real)
    requires Spaced(samples)
    ensures var r := DropOlder(samples, cutoff);
            Spaced(r) && forall s | s in r :: cutoff <= s.ts
  {
    if samples != [] && samples[0].ts < cutoff {
      DroppingHolds(samples[1..], cutoff);
    } else {
      Rising(samples);
    }
  }

  lemma {:induction false} Rising(samples: seq<Sample>)
    requires Spaced(samples)
    ensures forall s | s in samples :: samples[0].ts <= s.ts
    ensures forall k | 0 <= k < |samples| :: samples[0].ts + k as real * MIN_SAMPLE_GAP_SECS <= samples[k].ts
  {
    if |samples| > 1 {
      var rest := samples[1..];
      assert samples == [samples[0]] + rest;
      Rising(rest);
      forall k | 0 <= k < |samples| ensures samples[0].ts + k as real * MIN_SAMPLE_GAP_SECS <= samples[k].ts {
        if k > 0 {
          assert samples[k] == rest[k - 1];
          assert (k - 1) as real * MIN_SAMPLE_GAP_SECS + MIN_SAMPLE_GAP_SECS == k as real * MIN_SAMPLE_GAP_SECS;
        }
      }
    }
  }

  /** Whatever the clock does, recording keeps the samples spaced and within the age limit. */
  lemma RecordingHolds(samples: seq<Sample>, s: Sample)
    requires Held(samples)
    ensures Held(Recorded(samples, s))
  {
    hide Spaced, DropOlder;
    if !TooSoon(samples, s.ts) {
      AppendingSpaces(samples, s);
      DroppingHolds(samples + [s], s.ts - MAX_AGE_SECS);
    }
  }

  lemma AppendingSpaces(samples: seq<Sample>, s: Sample)
    requires Spaced(samples) && !TooSoon(samples, s.ts)
    ensures Spaced(samples + [s])
  {
  }

  /** So the history stays short: about four samples a second for as long as the oldest may be. */
  lemma HistoryIsBounded(samples: seq<Sample>)
    requires Held(samples)
    ensures |samples| <= 1221
  {
    if samples != [] {
      Rising(samples);
      assert samples[0] in samples;
      var last := |samples| - 1;
      assert last as real * MIN_SAMPLE_GAP_SECS <= MAX_AGE_SECS;
    }
  }

  /* What really moved. */

  /** The interfaces' counters, and the truth beside them: the bytes ever moved
      on each name, and how often a counter was restarted or an interface vanished. */
  datatype Net = Net(counters: Reading, moved: Reading, breaks: nat)

  datatype Traffic = Carried(name: Name, rx: nat, tx: nat) | Restarted(name: Name) | Appeared(name: Name) | Vanished(name: Name)

  function Moves(n: Net, t: Traffic): Net {
    match t
    case Carried(name, rx, tx) =>
      if name !in n.counters then n
      else n.(counters := n.counters[name := Counter(n.counters[name].rx + rx, n.counters[name].tx + tx)],
              moved := n.moved[name := Counter(RxOf(n.moved, name) + rx, TxOf(n.moved, name) + tx)])
    case Restarted(name) =>
      if name !in n.counters then n else n.(counters := n.counters[name := Counter(0, 0)], breaks := n.breaks + 1)
    case Appeared(name) =>
      if name in n.counters then n
      else n.(counters := n.counters[name := Counter(0, 0)], moved := n.moved[name := Counter(RxOf(n.moved, name), TxOf(n.moved, name))])
    case Vanished(name) =>
      if name !in n.counters then n else n.(counters := n.counters - {name}, breaks := n.breaks + 1)
  }

  function Rxs(r: Reading): map<Name, nat> { map n | n in r :: r[n].rx }

  function Txs(r: Reading): map<Name, nat> { map n | n in r :: r[n].tx }

  /** All bytes moved so far, over all interfaces there ever were. */
  function AllMoved(n: Net): Counter { Counter(Sum(Rxs(n.moved)), Sum(Txs(n.moved))) }

  /** How one counter relates to what moved on its name since an earlier look. */
  predicate Tracks(was: nat, before: nat, shown: nat, moved: nat) {
    before <= moved && (shown == was + (moved - before) || shown <= moved - before)
  }

  /** How a later state of the interfaces relates to an earlier one. */
  predicate Follows(o: Net, n: Net) {
    && o.moved.Keys <= n.moved.Keys && n.counters.Keys <= n.moved.Keys && o.breaks <= n.breaks
    && (forall m | m in n.moved :: RxOf(o.moved, m) <= RxOf(n.moved, m) && TxOf(o.moved, m) <= TxOf(n.moved, m))
    && (forall m | m in n.counters ::
          && Tracks(RxOf(o.counters, m), RxOf(o.moved, m), RxOf(n.counters, m), RxOf(n.moved, m))
          && Tracks(TxOf(o.counters, m), TxOf(o.moved, m), TxOf(n.counters, m), TxOf(n.moved, m)))
    && (o.breaks == n.breaks ==> Unbroken(o, n))
  }

  /** With no restart and no interface gone, every counter grew by what moved, and nothing moved elsewhere. */
  predicate Unbroken(o: Net, n: Net) {
    && o.counters.Keys <= n.counters.Keys
    && (forall m | m in n.counters ::
          && RxOf(n.counters, m) == RxOf(o.counters, m) + (RxOf(n.moved, m) - RxOf(o.moved, m))
          && TxOf(n.counters, m) == TxOf(o.counters, m) + (TxOf(n.moved, m) - TxOf(o.moved, m)))
    && (forall m | m in n.moved && m !in n.counters ::
          RxOf(n.moved, m) == RxOf(o.moved, m) && TxOf(n.moved, m) == TxOf(o.moved, m))
  }

  lemma FollowsItself(n: Net)
    requires n.counters.Keys <= n.moved.Keys
    ensures Follows(n, n)
  {
  }

  lemma CarryingFollows(o: Net, n: Net, name: Name, rx: nat, tx: nat)
    requires Follows(o, n)
    ensures Follows(o, Moves(n, Carried(name, rx, tx)))
  {
  }

  lemma RestartingFollows(o: Net, n: Net, name: Name)
    requires Follows(o, n)
    ensures Follows(o, Moves(n, Restarted(name)))
  {
  }

  lemma AppearingFollows(o: Net, n: Net, name: Name)
    requires Follows(o, n)
    ensures Follows(o, Moves(n, Appeared(name)))
  {
  }

  lemma VanishingFollows(o: Net, n: Net, name: Name)
    requires Follows(o, n)
    ensures Follows(o, Moves(n, Vanished(name)))
  {
  }

  lemma MovingFollows(o: Net, n: Net, t: Traffic)
    requires Follows(o, n)
    ensures Follows(o, Moves(n, t))
  {
    hide Follows;
    match t {
      case Carried(name, rx, tx) => CarryingFollows(o, n, name, rx, tx);
      case Restarted(name) => RestartingFollows(o, n, name);
      case Appeared(name) => AppearingFollows(o, n, name);
      case Vanished(name) => VanishingFollows(o, n, name);
    }
  }

  lemma {:induction false} SumsDiffer(a: map<Name, nat>, b: map<Name, nat>, d: map<Name, nat>)
    requires a.Keys <= b.Keys && d.Keys == b.Keys
    requires forall n | n in b :: b[n] == (if n in a then a[n] else 0) + d[n]
    ensures Sum(b) == Sum(a) + Sum(d)
    decreases |b|
  {
    if b == map[] {
      assert a.Keys == {} && d.Keys == {};
    } else {
      var n := Least(b.Keys);
      SumPicks(b, n);
      SumPicks(d, n);
      if n in a {
        SumPicks(a, n);
      } else {
        assert a - {n} == a;
      }
      SumsDiffer(a - {n}, b - {n}, d - {n});
    }
  }

  /** Only the interfaces that moved something add to a sum. */
  lemma {:induction false} SumIgnoresZeros(a: map<Name, nat>, b: map<Name, nat>)
    requires a.Keys <= b.Keys && forall n | n in b :: b[n] == if n in a then a[n] else 0
    ensures Sum(a) == Sum(b)
    decreases |b|
  {
    if b == map[] {
      assert a.Keys == {};
    } else {
      var n := Least(b.Keys);
      SumPicks(b, n);
      if n in a {
        SumPicks(a, n);
      } else {
        assert a - {n} == a;
      }
      SumIgnoresZeros(a - {n}, b - {n});
    }
  }

  lemma RxNeverOverstates(o: Net, n: Net)
    requires Follows(o, n)
    ensures Sum(RxDeltas(o.counters, n.counters)) <= Sum(Rxs(n.moved)) - Sum(Rxs(o.moved))
    ensures o.breaks == n.breaks ==> Sum(RxDeltas(o.counters, n.counters)) == Sum(Rxs(n.moved)) - Sum(Rxs(o.moved))
  {
    hide Sum;
    var since: map<Name, nat> := map m | m in n.moved :: RxOf(n.moved, m) - RxOf(o.moved, m);
    SumsDiffer(Rxs(o.moved), Rxs(n.moved), since);
    SumGrows(RxDeltas(o.counters, n.counters), since);
    if o.breaks == n.breaks {
      SumIgnoresZeros(RxDeltas(o.counters, n.counters), since);
    }
  }

  lemma TxNeverOverstates(o: Net, n: Net)
    requires Follows(o, n)
    ensures Sum(TxDeltas(o.counters, n.counters)) <= Sum(Txs(n.moved)) - Sum(Txs(o.moved))
    ensures o.breaks == n.breaks ==> Sum(TxDeltas(o.counters, n.counters)) == Sum(Txs(n.moved)) - Sum(Txs(o.moved))
  {
    hide Sum;
    var since: map<Name, nat> := map m | m in n.moved :: TxOf(n.moved, m) - TxOf(o.moved, m);
    SumsDiffer(Txs(o.moved), Txs(n.moved), since);
    SumGrows(TxDeltas(o.counters, n.counters), since);
    if o.breaks == n.breaks {
      SumIgnoresZeros(TxDeltas(o.counters, n.counters), since);
    }
  }

  /* Runs: traffic and samples in any order. */

  /** truths: the state of the interfaces at each sample taken. */
  datatype Sys = Sys(net: Net, samples: seq<Sample>, truths: map<real, Net>)

  datatype Event = Happens(t: Traffic) | Sampled(now: real)

  function Step(s: Sys, e: Event): Sys {
    match e
    case Happens(t) => s.(net := Moves(s.net, t))
    case Sampled(now) =>
      if TooSoon(s.samples, now) then s
      else s.(samples := Recorded(s.samples, Sample(now, s.net.counters)), truths := s.truths[now := s.net])
  }

  function Run(s: Sys, es: seq<Event>): Sys
    decreases |es|
  {
    if es == [] then s else Run(Step(s, es[0]), es[1..])
  }

  ghost predicate Known(s: Sys, a: Sample) {
    && a.ts in s.truths && s.truths[a.ts].counters == a.per
    && s.truths[a.ts].counters.Keys <= s.truths[a.ts].moved.Keys
    && Follows(s.truths[a.ts], s.net)
  }

  ghost predicate Sound(s: Sys) {
    && Held(s.samples) && s.net.counters.Keys <= s.net.moved.Keys
    && (forall a | a in s.samples :: Known(s, a))
    && (s.samples != [] ==> FollowedBy(s, s.samples[|s.samples| - 1]))
  }

  /** Every sample held is followed by this one. */
  ghost predicate FollowedBy(s: Sys, latest: Sample) {
    latest.ts in s.truths && forall a | a in s.samples :: a.ts in s.truths && Follows(s.truths[a.ts], s.truths[latest.ts])
  }

  lemma NewestIsLatest(samples: seq<Sample>, now: real)
    requires Held(samples) && !TooSoon(samples, now)
    ensures forall a | a in samples :: a.ts < now
  {
    forall a | a in samples ensures a.ts < now {
      var k :| 0 <= k < |samples| && samples[k] == a;
      LaterIsLater(samples, k);
    }
  }

  lemma {:induction false} LaterIsLater(samples: seq<Sample>, k: nat)
    requires Held(samples) && k < |samples|
    ensures samples[k].ts <= samples[|samples| - 1].ts
    decreases |samples| - k
  {
    if k < |samples| - 1 {
      LaterIsLater(samples, k + 1);
    }
  }

  lemma StepIsSound(s: Sys, e: Event)
    requires Sound(s)
    ensures Sound(Step(s, e))
  {
    hide Follows, Held, Moves, DropOlder;
    var t := Step(s, e);
    match e {
      case Happens(traffic) =>
        forall a | a in s.samples ensures Known(t, a) {
          assert Known(s, a);
          MovingFollows(s.truths[a.ts], s.net, traffic);
        }
        MovingKeepsNames(s.net, traffic);
      case Sampled(now) =>
        if !TooSoon(s.samples, now) {
          RecordingHolds(s.samples, Sample(now, s.net.counters));
          NewestIsLatest(s.samples, now);
          FollowsItself(s.net);
          assert forall a | a in t.samples :: a in s.samples || a == Sample(now, s.net.counters);
          forall a | a in t.samples ensures Known(t, a) {
            assert a in s.samples ==> Known(s, a);
          }
        }
    }
  }

  lemma MovingKeepsNames(n: Net, t: Traffic)
    requires n.counters.Keys <= n.moved.Keys
    ensures Moves(n, t).counters.Keys <= Moves(n, t).moved.Keys
  {
  }

  lemma {:induction false} RunIsSound(s: Sys, es: seq<Event>)
    requires Sound(s)
    ensures Sound(Run(s, es))
    decreases |es|
  {
    if es != [] {
      StepIsSound(s, es[0]);
      RunIsSound(Step(s, es[0]), es[1..]);
    }
  }

  /** A window is measured from the first sample in it, or the last there is, to
      the last: its span is the time between them, and its figures the deltas. */
  lemma {:induction false} ReportMeasures(samples: seq<Sample>, secs: real) returns (k: nat)
    requires samples != []
    ensures var last := samples[|samples| - 1];
            && k < |samples| && Report(samples, secs) == Window(last.ts - samples[k].ts, WindowDelta(samples[k].per, last.per))
            && (forall i | 0 <= i < k :: samples[i].ts < last.ts - secs) && (samples[k].ts >= last.ts - secs || k == |samples| - 1)
  {
    hide WindowDelta;
    var last := samples[|samples| - 1];
    k := OldestAt(samples, last.ts - secs);
  }

  lemma {:induction false} OldestAt(samples: seq<Sample>, cutoff: real) returns (k: nat)
    requires samples != []
    ensures k < |samples| && OldestWithin(samples, cutoff) == samples[k]
    ensures (forall i | 0 <= i < k :: samples[i].ts < cutoff) && (samples[k].ts >= cutoff || k == |samples| - 1)
  {
    if samples[0].ts >= cutoff || |samples| == 1 {
      k := 0;
    } else {
      var j := OldestAt(samples[1..], cutoff);
      k := j + 1;
      assert forall i | 0 < i < k :: samples[i] == samples[1..][i - 1];
    }
  }

  /** A counter seen to have restarted counts what moved since, and nothing of that is lost. */
  lemma RestartIsCounted(n: Net, name: Name, rx: nat, tx: nat)
    requires name in n.counters
    ensures var m := Moves(Moves(n, Restarted(name)), Carried(name, rx, tx));
            && (rx < RxOf(n.counters, name) ==> CounterDelta(RxOf(n.counters, name), RxOf(m.counters, name)) == rx)
            && (tx < TxOf(n.counters, name) ==> CounterDelta(TxOf(n.counters, name), TxOf(m.counters, name)) == tx)
  {
  }

  lemma {:induction false} DroppingIsMinimal(samples: seq<Sample>, cutoff: real) returns (k: nat)
    ensures k <= |samples| && DropOlder(samples, cutoff) == samples[k..]
    ensures (forall i | 0 <= i < k :: samples[i].ts < cutoff) && (k < |samples| ==> samples[k].ts >= cutoff)
  {
    if samples != [] && samples[0].ts < cutoff {
      var j := DroppingIsMinimal(samples[1..], cutoff);
      k := j + 1;
      assert forall i | 0 < i < k :: samples[i] == samples[1..][i - 1];
    } else {
      k := 0;
    }
  }

  /** A reading less than a quarter of a second after the last is not taken; any
      other is appended, and of the earlier ones only those at the front go that
      are more than 305 seconds old. */
  lemma RecordingTakes(samples: seq<Sample>, s: Sample) returns (k: nat)
    ensures samples != [] && s.ts - samples[|samples| - 1].ts < 0.25 ==> Recorded(samples, s) == samples
    ensures samples == [] || s.ts - samples[|samples| - 1].ts >= 0.25 ==>
              && k <= |samples| && Recorded(samples, s) == samples[k..] + [s]
              && (forall i | 0 <= i < k :: samples[i].ts < s.ts - 305.0) && (k < |samples| ==> samples[k].ts >= s.ts - 305.0)
  {
    k := 0;
    if !TooSoon(samples, s.ts) {
      var all := samples + [s];
      k := DroppingIsMinimal(all, s.ts - MAX_AGE_SECS);
      assert all[|all| - 1] == s && k <= |samples|;
      assert all[k..] == samples[k..] + [s];
      assert forall i | 0 <= i < |samples| :: all[i] == samples[i];
    }
  }

  lemma {:induction false} OldestIsWithin(samples: seq<Sample>, cutoff: real)
    requires samples != [] && samples[|samples| - 1].ts >= cutoff
    ensures OldestWithin(samples, cutoff).ts >= cutoff
    ensures exists k | 0 <= k < |samples| :: samples[k] == OldestWithin(samples, cutoff) && forall i | 0 <= i < k :: samples[i].ts < cutoff
  {
    if samples[0].ts >= cutoff || |samples| == 1 {
      assert samples[0] == OldestWithin(samples, cutoff);
    } else {
      OldestIsWithin(samples[1..], cutoff);
      var k :| 0 <= k < |samples[1..]| && samples[1..][k] == OldestWithin(samples[1..], cutoff)
               && forall i | 0 <= i < k :: samples[1..][i].ts < cutoff;
      assert samples[k + 1] == OldestWithin(samples, cutoff);
      assert forall i | 0 < i < k + 1 :: samples[i] == samples[1..][i - 1];
    }
  }

  /** A window against what truly moved between its two samples. */
  ghost predicate NeverOverstates(t: Sys, secs: real)
    requires t.samples != []
  {
    var latest := t.samples[|t.samples| - 1];
    var oldest := OldestWithin(t.samples, latest.ts - secs);
    var w := Report(t.samples, secs);
    && oldest.ts in t.truths && latest.ts in t.truths
    && var o, n := t.truths[oldest.ts], t.truths[latest.ts];
       && 0.0 <= w.span <= secs
       && w.moved.rx <= AllMoved(n).rx - AllMoved(o).rx && w.moved.tx <= AllMoved(n).tx - AllMoved(o).tx
       && (o.breaks == n.breaks ==>
             w.moved.rx == AllMoved(n).rx - AllMoved(o).rx && w.moved.tx == AllMoved(n).tx - AllMoved(o).tx)
  }

  /** For any run of traffic, restarts, appearances, disappearances and samples
      on any clock: a window never reports more bytes than truly moved between
      its two samples, and reports exactly those when no counter restarted and
      no interface vanished between them. */
  lemma ReportsNeverOverstate(s: Sys, es: seq<Event>, secs: real)
    requires s.samples == [] && s.net.counters.Keys <= s.net.moved.Keys && secs >= 0.0
    requires Run(s, es).samples != []
    ensures NeverOverstates(Run(s, es), secs)
  {
    assert Sound(s);
    RunIsSound(s, es);
    hide Run, Sound, NeverOverstates;
    ReportNeverOverstates(Run(s, es), secs);
  }

  lemma ReportNeverOverstates(t: Sys, secs: real)
    requires Sound(t) && t.samples != [] && secs >= 0.0
    ensures NeverOverstates(t, secs)
  {
    hide Follows, Sound, AllMoved, WindowDelta, OldestWithin;
    var latest := t.samples[|t.samples| - 1];
    var oldest := OldestWithin(t.samples, latest.ts - secs);
    WindowIsKnown(t, secs);
    DeltasNeverOverstate(t.truths[oldest.ts], t.truths[latest.ts]);
  }

  lemma DeltasNeverOverstate(o: Net, n: Net)
    requires Follows(o, n)
    ensures var d := WindowDelta(o.counters, n.counters);
            && d.rx <= AllMoved(n).rx - AllMoved(o).rx && d.tx <= AllMoved(n).tx - AllMoved(o).tx
            && (o.breaks == n.breaks ==> d.rx == AllMoved(n).rx - AllMoved(o).rx && d.tx == AllMoved(n).tx - AllMoved(o).tx)
  {
    RxNeverOverstates(o, n);
    TxNeverOverstates(o, n);
  }

  lemma WindowIsKnown(t: Sys, secs: real)
    requires Sound(t) && t.samples != [] && secs >= 0.0
    ensures var latest := t.samples[|t.samples| - 1];
            var oldest := OldestWithin(t.samples, latest.ts - secs);
            && oldest.ts in t.truths && latest.ts in t.truths
            && t.truths[oldest.ts].counters == oldest.per && t.truths[latest.ts].counters == latest.per
            && Follows(t.truths[oldest.ts], t.truths[latest.ts])
            && 0.0 <= latest.ts - oldest.ts <= secs
  {
    hide Follows, Sound, Held, OldestWithin;
    var latest := t.samples[|t.samples| - 1];
    HeldAreKnown(t, OldestWithin(t.samples, latest.ts - secs));
    HeldAreKnown(t, latest);
    SoundHolds(t);
    SpanIsWithin(t.samples, secs);
  }

  lemma SoundHolds(t: Sys)
    requires Sound(t)
    ensures Held(t.samples)
  {
  }

  lemma HeldAreKnown(t: Sys, a: Sample)
    requires Sound(t) && a in t.samples
    ensures var latest := t.samples[|t.samples| - 1];
            && a.ts in t.truths && latest.ts in t.truths
            && t.truths[a.ts].counters == a.per && Follows(t.truths[a.ts], t.truths[latest.ts])
  {
    hide Follows;
    assert Known(t, a) && FollowedBy(t, t.samples[|t.samples| - 1]);
  }

  lemma SpanIsWithin(samples: seq<Sample>, secs: real)
    requires Held(samples) && samples != [] && secs >= 0.0
    ensures var latest := samples[|samples| - 1];
            0.0 <= latest.ts - OldestWithin(samples, latest.ts - secs).ts <= secs
  {
    hide Held;
    var latest := samples[|samples| - 1];
    var oldest := OldestWithin(samples, latest.ts - secs);
    OldestIsWithin(samples, latest.ts - secs);
    var k :| 0 <= k < |samples| && samples[k] == oldest;
    LaterIsLater(samples, k);
  }

  /* The monitor. */

  class Monitor {
    var samples: seq<Sample>

    constructor ()
      ensures samples == []
    {
      samples := [];
    }

    /** Records one reading of every interface. */
    method Take(now: real, per: Reading)
      modifies this
      ensures samples == Recorded(old(samples), Sample(now, per))
    {
      if TooSoon(samples, now) {
        return;
      }
      samples := samples + [Sample(now, per)];
      ghost var all := samples;
      while samples != [] && samples[0].ts < now - MAX_AGE_SECS
        invariant DropOlder(samples, now - MAX_AGE_SECS) == DropOlder(all, now - MAX_AGE_SECS)
        decreases |samples|
      {
        samples := samples[1..];
      }
    }

    /** What each window reports, on a fresh reading. */
    method Rates(now: real, per: Reading, windows: seq<real>) returns (reports: seq<Window>)
      modifies this
      ensures samples == Recorded(old(samples), Sample(now, per))
      ensures if samples == [] then reports == []
              else |reports| == |windows| && forall i | 0 <= i < |windows| :: reports[i] == Report(samples, windows[i])
    {
      Take(now, per);
      reports := [];
      var held := samples;
      if held == [] {
        return;
      }
      var latest := held[|held| - 1];
      for i := 0 to |windows|
        invariant samples == held && |reports| == i && forall j | 0 <= j < i :: reports[j] == Report(held, windows[j])
      {
        var oldest := FindOldestWithin(held, latest.ts - windows[i]);
        var moved := SumDeltas(oldest.per, latest.per);
        reports := reports + [Window(latest.ts - oldest.ts, moved)];
      }
    }
  }

  method FindOldestWithin(samples: seq<Sample>, cutoff: real) returns (found: Sample)
    requires samples != []
    ensures found == OldestWithin(samples, cutoff)
  {
    for i := 0 to |samples| - 1
      invariant OldestWithin(samples[i..], cutoff) == OldestWithin(samples, cutoff)
    {
      assert samples[i..][1..] == samples[i + 1..];
      if samples[i].ts >= cutoff {
        return samples[i];
      }
    }
    return samples[|samples| - 1];
  }

  /** One pass over the interfaces, in any order. */
  method SumDeltas(older: Reading, newer: Reading) returns (moved: Counter)
    ensures moved == WindowDelta(older, newer)
  {
    var rx: nat, tx: nat := 0, 0;
    var left := newer.Keys;
    ghost var rxs, txs := RxDeltas(older, newer), TxDeltas(older, newer);
    assert rxs.Keys == newer.Keys && txs.Keys == newer.Keys;
    NothingSeen(rxs);
    NothingSeen(txs);
    hide Partial;
    while left != {}
      invariant left <= newer.Keys
      invariant Partial(rx, rxs, left) && Partial(tx, txs, left)
      decreases |left|
    {
      var name: Name := Least(left);
      OneMore(rx, rxs, left, name);
      OneMore(tx, txs, left, name);
      rx := rx + CounterDelta(RxOf(older, name), newer[name].rx);
      tx := tx + CounterDelta(TxOf(older, name), newer[name].tx);
      left := left - {name};
    }
    AllSeen(rx, rxs);
    AllSeen(tx, txs);
    moved := Counter(rx, tx);
  }

  /** A running total, with some interfaces still to come. */
  predicate Partial(total: nat, m: map<Name, nat>, left: set<Name>) {
    left <= m.Keys && total + Sum(m - (m.Keys - left)) == Sum(m)
  }

  lemma NothingSeen(m: map<Name, nat>)
    ensures Partial(0, m, m.Keys)
  {
    assert m - (m.Keys - m.Keys) == m;
  }

  lemma OneMore(total: nat, m: map<Name, nat>, left: set<Name>, name: Name)
    requires Partial(total, m, left) && name in left
    ensures Partial(total + m[name], m, left - {name})
  {
    var rest := m - (m.Keys - left);
    SumPicks(rest, name);
    assert rest - {name} == m - (m.Keys - (left - {name}));
  }

  lemma AllSeen(total: nat, m: map<Name, nat>)
    requires Partial(total, m, {})
    ensures total == Sum(m)
  {
    assert m - (m.Keys - {}) == map[];
  }
}
