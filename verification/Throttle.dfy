/** The sliding-window throttle on emoji requests (trenchchat/core/reaction.py). */
module Throttle {
  import opened Prelude

  const EMOJI_REQUEST_WINDOW_SECS: real := 60.0
  const EMOJI_REQUEST_BURST: nat := 12
  const MAX_TRACKED_REQUESTERS: nat := 512

  type Peer = int

  /** The times less than a window ago. */
  function Recent(times: seq<real>, now: real): (r: seq<real>)
    ensures |r| <= |times|
  {
    if times == [] then []
    else (if now - times[0] < EMOJI_REQUEST_WINDOW_SECS then [times[0]] else []) + Recent(times[1..], now)
  }

  predicate Stale(times: seq<real>, now: real) {
    times == [] || now - times[|times| - 1] > EMOJI_REQUEST_WINDOW_SECS
  }

  type Table = map<Peer, seq<real>>

  function TimesOf(t: Table, who: Peer): seq<real> {
    if who in t then t[who] else []
  }

  function Evicted(t: Table, now: real): Table {
    map who | who in t && !Stale(t[who], now) :: t[who]
  }

  datatype Outcome = Outcome(table: Table, allowed: bool)

  function Ask(t: Table, who: Peer, now: real): Outcome {
    var recent := Recent(TimesOf(t, who), now);
    if |recent| >= EMOJI_REQUEST_BURST then Outcome(t[who := recent], false)
    else
      var noted := t[who := recent + [now]];
      Outcome(if |noted| > MAX_TRACKED_REQUESTERS then Evicted(noted, now) else noted, true)
  }

  /* Runs. */

  datatype Request = Request(who: Peer, at: real)

  function Run(rs: seq<Request>): Table {
    if rs == [] then map[] else Ask(Run(rs[..|rs| - 1]), rs[|rs| - 1].who, rs[|rs| - 1].at).table
  }

  /** The times at which one requester was let through, as an observer of the answers would note them. */
  function Granted(rs: seq<Request>, who: Peer): seq<real> {
    if rs == [] then []
    else
      var before, r := rs[..|rs| - 1], rs[|rs| - 1];
      Granted(before, who) + if r.who == who && Ask(Run(before), who, r.at).allowed then [r.at] else []
  }

  predicate ClockRuns(rs: seq<Request>) {
    forall i, j | 0 <= i < j < |rs| :: rs[i].at <= rs[j].at
  }

  predicate NotAfter(times: seq<real>, now: real) {
    forall t | t in times :: t <= now
  }

  lemma {:induction false} RecentAppends(times: seq<real>, more: seq<real>, now: real)
    ensures Recent(times + more, now) == Recent(times, now) + Recent(more, now)
  {
    if times == [] {
      assert times + more == more;
    } else {
      assert (times + more)[1..] == times[1..] + more;
      RecentAppends(times[1..], more, now);
    }
  }

  /** Looking again later drops nothing that an earlier look had dropped already. */
  lemma {:induction false} RecentLater(times: seq<real>, earlier: real, now: real)
    requires earlier <= now
    ensures Recent(Recent(times, earlier), now) == Recent(times, now)
  {
    if times != [] {
      RecentLater(times[1..], earlier, now);
      var kept := if earlier - times[0] < EMOJI_REQUEST_WINDOW_SECS then [times[0]] else [];
      RecentAppends(kept, Recent(times[1..], earlier), now);
    }
  }

  predicate Ascends(times: seq<real>) {
    forall i, j | 0 <= i < j < |times| :: times[i] <= times[j]
  }

  lemma {:induction false} StaleIsForgotten(times: seq<real>, earlier: real, now: real)
    requires Stale(times, earlier) && earlier <= now && Ascends(times)
    ensures Recent(times, now) == []
  {
    if times != [] {
      StaleIsForgotten(times[1..], earlier, now);
    }
  }

  lemma {:induction false} RecentIsSorted(times: seq<real>, now: real)
    requires Ascends(times)
    ensures Ascends(Recent(times, now))
    ensures forall t | t in Recent(times, now) :: t in times
  {
    if times != [] {
      var rest := Recent(times[1..], now);
      RecentIsSorted(times[1..], now);
      assert times == [times[0]] + times[1..];
      assert forall j | 0 <= j < |rest| :: rest[j] in rest && rest[j] in times[1..];
    }
  }

  /** What the table holds agrees with the answers given, as far as any later moment can tell. */
  ghost predicate Agrees(times: seq<real>, granted: seq<real>, clock: real) {
    && Ascends(times) && NotAfter(times, clock)
    && forall now | clock <= now :: Recent(times, now) == Recent(granted, now)
  }

  lemma PrunedAgrees(times: seq<real>, granted: seq<real>, clock: real, at: real)
    requires Agrees(times, granted, clock) && clock <= at
    ensures Agrees(times, granted, at) && Agrees(Recent(times, at), granted, at)
  {
    RecentIsSorted(times, at);
    forall now | at <= now ensures Recent(Recent(times, at), now) == Recent(granted, now) && Recent(times, now) == Recent(granted, now) {
      RecentLater(times, at, now);
    }
    assert forall t | t in times :: t <= at;
  }

  lemma NotedAgrees(times: seq<real>, granted: seq<real>, at: real)
    requires Agrees(times, granted, at)
    ensures Agrees(times + [at], granted + [at], at)
  {
    forall now | at <= now ensures Recent(times + [at], now) == Recent(granted + [at], now) {
      RecentAppends(times, [at], now);
      RecentAppends(granted, [at], now);
    }
    forall i | 0 <= i < |times| ensures times[i] <= at {
      assert times[i] in times;
    }
    assert Ascends(times + [at]);
  }

  lemma ForgottenAgrees(times: seq<real>, granted: seq<real>, at: real)
    requires Agrees(times, granted, at) && Stale(times, at)
    ensures Agrees([], granted, at)
  {
    forall now | at <= now ensures Recent(times, now) == [] {
      StaleIsForgotten(times, at, now);
    }
  }

  lemma AskAgrees(rs: seq<Request>, r: Request, who: Peer, clock: real)
    requires Agrees(TimesOf(Run(rs), who), Granted(rs, who), clock) && clock <= r.at
    ensures Agrees(TimesOf(Run(rs + [r]), who), Granted(rs + [r], who), r.at)
  {
    hide Agrees, Recent, Ask;
    assert (rs + [r])[..|rs|] == rs;
    var times, granted := TimesOf(Run(rs), who), Granted(rs, who);
    var recent := Recent(times, r.at);
    PrunedAgrees(times, granted, clock, r.at);
    NotedAgrees(recent, granted, r.at);
    var allowed := Ask(Run(rs), who, r.at).allowed;
    var noted := if r.who != who then times else if allowed then recent + [r.at] else recent;
    var granted' := if r.who == who && allowed then granted + [r.at] else granted;
    assert granted + [] == granted;
    assert Granted(rs + [r], who) == granted';
    AskLeaves(Run(rs), r, who);
    hide Run, Granted;
    if TimesOf(Run(rs + [r]), who) != noted {
      ForgottenAgrees(noted, granted', r.at);
    }
  }

  /** A requester's entry after a request: as noted, or forgotten if that is stale. */
  lemma AskLeaves(t: Table, r: Request, who: Peer)
    ensures var recent := Recent(TimesOf(t, who), r.at);
            var noted := if r.who != who then TimesOf(t, who) else if Ask(t, who, r.at).allowed then recent + [r.at] else recent;
            var left := TimesOf(Ask(t, r.who, r.at).table, who);
            left == noted || (left == [] && Stale(noted, r.at))
  {
    hide Recent;
  }

  function Clock(rs: seq<Request>): real
    requires rs != []
  {
    rs[|rs| - 1].at
  }

  lemma {:induction false} RunAgrees(rs: seq<Request>, who: Peer)
    requires rs != [] && ClockRuns(rs)
    ensures Agrees(TimesOf(Run(rs), who), Granted(rs, who), Clock(rs))
  {
    var before, r := rs[..|rs| - 1], rs[|rs| - 1];
    assert rs == before + [r];
    if before != [] {
      RunAgrees(before, who);
    }
    hide Ask, Run, Granted, Recent;
    AskAgrees(before, r, who, if before == [] then r.at else Clock(before));
  }

  /** A request is let through exactly when fewer than a burst of that
      requester's were let through in the window before it: forgetting stale
      requesters neither weakens nor tightens the limit. */
  lemma AllowedExactlyBelowBurst(rs: seq<Request>, who: Peer, now: real)
    requires ClockRuns(rs) && (rs != [] ==> Clock(rs) <= now)
    ensures Ask(Run(rs), who, now).allowed <==> |Recent(Granted(rs, who), now)| < 12
  {
    if rs != [] {
      RunAgrees(rs, who);
    }
  }

  /** The times in the window that ends at an instant. */
  function Within(times: seq<real>, end: real): (r: seq<real>) {
    if times == [] then []
    else (if end - EMOJI_REQUEST_WINDOW_SECS < times[0] <= end then [times[0]] else []) + Within(times[1..], end)
  }

  lemma {:induction false} WithinAppends(times: seq<real>, more: seq<real>, end: real)
    ensures Within(times + more, end) == Within(times, end) + Within(more, end)
  {
    if times == [] {
      assert times + more == more;
    } else {
      assert (times + more)[1..] == times[1..] + more;
      WithinAppends(times[1..], more, end);
    }
  }

  lemma {:induction false} WithinIsRecent(times: seq<real>, now: real, end: real)
    requires now <= end
    ensures |Within(times, end)| <= |Recent(times, now)|
  {
    if times != [] {
      WithinIsRecent(times[1..], now, end);
    }
  }

  lemma {:induction false} RecentAre(times: seq<real>, now: real)
    ensures forall t :: t in Recent(times, now) <==> t in times && now - t < 60.0
  {
    if times != [] {
      assert times == [times[0]] + times[1..];
      RecentAre(times[1..], now);
    }
  }

  /** A granted request that leaves more than 512 requesters noted forgets exactly
      those whose last one lies more than a minute back, and never the asker. */
  lemma CrowdedTableForgets(t: Table, who: Peer, now: real, p: Peer)
    requires Ask(t, who, now).allowed && |t.Keys + {who}| > 512
    ensures var u := Ask(t, who, now).table;
            && who in u && (p in t && p != who ==>
                  (p in u <==> t[p] != [] && now - t[p][|t[p]| - 1] <= 60.0) && (p in u ==> u[p] == t[p]))
  {
    hide Recent;
    var noted := t[who := Recent(TimesOf(t, who), now) + [now]];
    assert noted.Keys == t.Keys + {who} && |noted| == |noted.Keys|;
  }

  /** Up to that many, nobody else's entry is touched. */
  lemma QuietTableForgetsNobody(t: Table, who: Peer, now: real, p: Peer)
    requires p != who && (!Ask(t, who, now).allowed || |t.Keys + {who}| <= 512)
    ensures var u := Ask(t, who, now).table; (p in u <==> p in t) && (p in t ==> u[p] == t[p])
  {
    hide Recent;
    var noted := t[who := Recent(TimesOf(t, who), now) + [now]];
    assert noted.Keys == t.Keys + {who} && |noted| == |noted.Keys|;
  }

  /** For every requester and every instant, at most a burst of requests is let
      through in the window that ends there, whatever others ask in between. */
  lemma {:induction false} BurstIsNeverExceeded(rs: seq<Request>, who: Peer, end: real)
    requires ClockRuns(rs)
    ensures |Within(Granted(rs, who), end)| <= 12
  {
    if rs != [] {
      var before, r := rs[..|rs| - 1], rs[|rs| - 1];
      BurstIsNeverExceeded(before, who, end);
      AllowedExactlyBelowBurst(before, who, r.at);
      hide Ask, Run, ClockRuns;
      if r.who == who && Ask(Run(before), who, r.at).allowed {
        WithinAppends(Granted(before, who), [r.at], end);
        AtMostOneMore(r.at, end);
        if r.at <= end {
          WithinIsRecent(Granted(before, who), r.at, end);
        }
      } else {
        assert Granted(before, who) + [] == Granted(before, who);
      }
    }
  }

  lemma AtMostOneMore(at: real, end: real)
    ensures |Within([at], end)| <= 1 && (end < at ==> Within([at], end) == [])
  {
    assert [at][1..] == [];
  }

  /** The throttle itself. */
  class Limiter {
    var table: Table

    constructor ()
      ensures table == map[]
    {
      table := map[];
    }

    method Allow(who: Peer, now: real) returns (allowed: bool)
      modifies this
      ensures Outcome(table, allowed) == Ask(old(table), who, now)
    {
      var times := if who in table then table[who] else [];
      var recent := Prune(times, now);
      if |recent| >= EMOJI_REQUEST_BURST {
        table := table[who := recent];
        return false;
      }
      table := table[who := recent + [now]];
      if |table| > MAX_TRACKED_REQUESTERS {
        ForgetStale(now);
      }
      return true;
    }

    method ForgetStale(now: real)
      modifies this
      ensures table == Evicted(old(table), now)
    {
      var stale := set who | who in table && Stale(table[who], now);
      var left := stale;
      while left != {}
        invariant left <= stale
        invariant table == old(table) - (stale - left)
      {
        var who: Peer := Least(left);
        table := table - {who};
        left := left - {who};
      }
    }
  }

  method Prune(times: seq<real>, now: real) returns (kept: seq<real>)
    ensures kept == Recent(times, now)
  {
    hide Recent;
    kept := [];
    assert times[0..] == times;
    for i := 0 to |times|
      invariant kept + Recent(times[i..], now) == Recent(times, now)
    {
      RecentStep(times, i, now);
      if now - times[i] < EMOJI_REQUEST_WINDOW_SECS {
        ConcatAssoc(kept, [times[i]], Recent(times[i + 1..], now));
        kept := kept + [times[i]];
      }
    }
    RecentEnds(times, now);
  }

  lemma RecentStep(times: seq<real>, i: nat, now: real)
    requires i < |times|
    ensures Recent(times[i..], now)
            == if now - times[i] < EMOJI_REQUEST_WINDOW_SECS then [times[i]] + Recent(times[i + 1..], now) else Recent(times[i + 1..], now)
  {
    assert times[i..][1..] == times[i + 1..];
  }

  lemma RecentEnds(times: seq<real>, now: real)
    ensures Recent(times[|times|..], now) == []
  {
    assert times[|times|..] == [];
  }
}
