/** The debounced change notification of the network map (trenchchat/core/network_map.py). */
module Debounce {
  import opened Prelude

  /** What the monitor holds, the timers the system has outstanding for it, and
      what an observer remembers: when it fired, and changes noted since. */
  datatype State = State(
    lastFire: Option<real>,
    pending: bool,                // a timer is set
    timers: seq<real>,            // due times of the timers started and not yet run
    fires: seq<real>,
    unseen: Option<real>)         // when the first change since the last fire was noted

  function Start(): State { State(None, false, [], [], None) }

  function Fired(s: State, now: real): State {
    s.(lastFire := Some(now), fires := s.fires + [now], unseen := None)
  }

  function Noted(interval: real, s: State, now: real): State {
    var noted := s.(unseen := if s.unseen.Some? then s.unseen else Some(now));
    if s.pending then noted
    else if s.lastFire.Some? && now - s.lastFire.value < interval
    then noted.(pending := true, timers := s.timers + [now + (interval - (now - s.lastFire.value))])
    else Fired(noted, now)
  }

  /** One of the outstanding timers runs. */
  function TimerRan(s: State, which: nat, now: real): State
    requires which < |s.timers|
  {
    Fired(s.(pending := false, timers := s.timers[..which] + s.timers[which + 1..]), now)
  }

  datatype Event = Note(now: real) | Runs(which: nat, now: real)

  function Step(interval: real, s: State, e: Event): State {
    match e
    case Note(now) => Noted(interval, s, now)
    case Runs(which, now) => if which < |s.timers| then TimerRan(s, which, now) else s
  }

  /** The clock does not go back, and no timer runs before it is due. */
  predicate OnTime(s: State, clock: real, e: Event) {
    && clock <= e.now
    && (e.Runs? ==> e.which < |s.timers| && s.timers[e.which] <= e.now)
  }

  function Run(interval: real, s: State, es: seq<Event>): State
    decreases |es|
  {
    if es == [] then s else Run(interval, Step(interval, s, es[0]), es[1..])
  }

  predicate AllOnTime(interval: real, s: State, clock: real, es: seq<Event>)
    decreases |es|
  {
    es == [] || (OnTime(s, clock, es[0]) && AllOnTime(interval, Step(interval, s, es[0]), es[0].now, es[1..]))
  }

  predicate Spaced(interval: real, fires: seq<real>) {
    forall i | 0 <= i < |fires| - 1 :: fires[i] + interval <= fires[i + 1]
  }

  /** At most one timer, due exactly an interval after the last fire, and set
      whenever a change is still to be told; fires an interval apart. */
  predicate Sound(interval: real, clock: real, s: State) {
    && |s.timers| == (if s.pending then 1 else 0)
    && (s.lastFire == if s.fires == [] then None else Some(s.fires[|s.fires| - 1]))
    && (s.lastFire.Some? ==> s.lastFire.value <= clock)
    && Spaced(interval, s.fires)
    && (s.pending <==> s.unseen.Some?)
    && (s.pending ==> s.lastFire.Some? && s.timers[0] == s.lastFire.value + interval
                      && s.unseen.value < s.timers[0] <= s.unseen.value + interval)
  }

  lemma FiringSpaces(interval: real, fires: seq<real>, now: real)
    requires Spaced(interval, fires) && (fires != [] ==> fires[|fires| - 1] + interval <= now)
    ensures Spaced(interval, fires + [now])
  {
  }

  lemma StepIsSound(interval: real, clock: real, s: State, e: Event)
    requires Sound(interval, clock, s) && OnTime(s, clock, e)
    ensures Sound(interval, e.now, Step(interval, s, e))
  {
    if e.Note? {
      if !s.pending && !(s.lastFire.Some? && e.now - s.lastFire.value < interval) {
        FiringSpaces(interval, s.fires, e.now);
      }
    } else {
      FiringSpaces(interval, s.fires, e.now);
    }
  }

  lemma {:induction false} RunIsSound(interval: real, s: State, clock: real, es: seq<Event>)
    requires Sound(interval, clock, s) && AllOnTime(interval, s, clock, es)
    ensures Sound(interval, if es == [] then clock else es[|es| - 1].now, Run(interval, s, es))
    decreases |es|
  {
    if es != [] {
      StepIsSound(interval, clock, s, es[0]);
      RunIsSound(interval, Step(interval, s, es[0]), es[0].now, es[1..]);
    }
  }

  /** Along every run of changes and timers: no two notifications come closer
      than the interval, at most one timer is outstanding, and a change not yet
      told has a timer due within an interval of when it was noted. */
  lemma NothingLostNothingClose(interval: real, clock: real, es: seq<Event>)
    requires AllOnTime(interval, Start(), clock, es)
    ensures var t := Run(interval, Start(), es);
            && Spaced(interval, t.fires)
            && |t.timers| <= 1
            && (t.unseen.Some? <==> t.timers != [])
            && (t.unseen.Some? ==> t.timers[0] <= t.unseen.value + interval)
  {
    RunIsSound(interval, Start(), clock, es);
  }

  /** A change is told at once exactly when no fire lies less than an interval
      back: otherwise it waits for the one timer. */
  lemma QuietChangeFiresAtOnce(interval: real, clock: real, es: seq<Event>, now: real)
    requires AllOnTime(interval, Start(), clock, es) && interval > 0.0
    requires (if es == [] then clock else es[|es| - 1].now) <= now
    ensures var t := Run(interval, Start(), es);
            var u := Noted(interval, t, now);
            u.unseen.None? <==> u.fires == t.fires + [now]
    ensures var t := Run(interval, Start(), es);
            t.timers == [] ==> (Noted(interval, t, now).fires == t.fires + [now]
                                <==> forall f | f in t.fires :: f + interval <= now)
  {
    RunIsSound(interval, Start(), clock, es);
    var t := Run(interval, Start(), es);
    hide Run;
    LastFireIsLatest(interval, t.fires);
    assert t.fires != [] ==> t.fires[|t.fires| - 1] in t.fires && t.lastFire == Some(t.fires[|t.fires| - 1]);
    assert |t.fires + [now]| == |t.fires| + 1;
  }

  lemma {:induction false} LastFireIsLatest(interval: real, fires: seq<real>)
    requires Spaced(interval, fires) && interval > 0.0
    ensures forall f | f in fires :: f <= fires[|fires| - 1]
  {
    if |fires| > 1 {
      var before := fires[..|fires| - 1];
      LastFireIsLatest(interval, before);
      assert fires == before + [fires[|fires| - 1]];
      assert fires[|fires| - 2] + interval <= fires[|fires| - 1];
    }
  }

  /** The monitor itself; timers are started through the system it runs on. */
  class Monitor {
    const interval: real
    var lastFire: Option<real>
    var timer: bool
    ghost var timers: seq<real>
    ghost var fires: seq<real>
    ghost var unseen: Option<real>

    ghost function View(): State
      reads this
    {
      State(lastFire, timer, timers, fires, unseen)
    }

    constructor (interval: real)
      ensures View() == Start() && this.interval == interval
    {
      this.interval := interval;
      lastFire, timer := None, false;
      timers, fires, unseen := [], [], None;
    }

    /** Notes that something moved; delay is set when a timer is to be started for it. */
    method NoteChange(now: real, ghost clock: real) returns (delay: Option<real>, fire: bool)
      modifies this
      ensures View() == Noted(interval, old(View()), now)
      ensures fire <==> fires == old(fires) + [now]
      ensures timers == old(timers) + if delay.Some? then [now + delay.value] else []
      ensures old(Sound(interval, clock, View())) && clock <= now ==>
                Sound(interval, now, View()) && (fire || (timer && unseen.Some?))
    {
      ghost var was := View();
      delay, fire := None, false;
      unseen := if unseen.Some? then unseen else Some(now);
      if timer {
      } else if lastFire.Some? && now - lastFire.value < interval {
        delay := Some(interval - (now - lastFire.value));
        timer, timers := true, timers + [now + delay.value];
      } else {
        lastFire, fire := Some(now), true;
        fires, unseen := fires + [now], None;
      }
      if Sound(interval, clock, was) && clock <= now {
        StepIsSound(interval, clock, was, Note(now));
      }
    }

    /** The timer runs. When it was due: every change noted is told, no timer is
        left, and the last notification lies an interval back. */
    method OnTimer(ghost which: nat, now: real, ghost clock: real)
      requires which < |timers|
      modifies this
      ensures View() == TimerRan(old(View()), which, now)
      ensures old(Sound(interval, clock, View())) && clock <= now && old(timers[which]) <= now ==>
                && Sound(interval, now, View())
                && unseen.None? && timers == [] && !timer
                && (old(lastFire).Some? ==> old(lastFire).value + interval <= now)
    {
      ghost var was := View();
      timer, lastFire := false, Some(now);
      timers := timers[..which] + timers[which + 1..];
      fires, unseen := fires + [now], None;
      if Sound(interval, clock, was) && clock <= now && was.timers[which] <= now {
        StepIsSound(interval, clock, was, Runs(which, now));
      }
    }
  }
}
