// The wake throttle: a pruned list of recent wakes that must still bound every hour of the whole history.
module LoopGuard {

  // Length of the closed sliding window: one hour, in microseconds.
  const WAKE_WINDOW := 3_600_000_000

  // Entries not older than the window that ends at `now`.
  function Pruned(times: seq<int>, now: int): seq<int> {
    if times == [] then []
    else if times[0] >= now - WAKE_WINDOW then [times[0]] + Pruned(times[1..], now)
    else Pruned(times[1..], now)
  }

  // Stored wakes of one agent, and the history: every wake it was ever granted.
  datatype Guard = Guard(kept: seq<int>, history: seq<int>)

  predicate Skips(kept: seq<int>, limit: int, now: int) {
    limit > 0 && |Pruned(kept, now)| >= limit
  }

  // One attempt to wake the agent: should_skip_wake, then record_wake at the same instant unless it said skip.
  function Attempt(g: Guard, limit: int, now: int): Guard {
    if Skips(g.kept, limit, now) then g.(kept := Pruned(g.kept, now))
    else
      var checked := if limit > 0 then Pruned(g.kept, now) else g.kept;
      Guard(Pruned(checked + [now], now), g.history + [now])
  }

  function Run(g: Guard, limit: int, times: seq<int>): Guard
    decreases |times|
  {
    if times == [] then g else Run(Attempt(g, limit, times[0]), limit, times[1..])
  }

  predicate Ascending(times: seq<int>) {
    forall i, j :: 0 <= i < j < |times| ==> times[i] <= times[j]
  }

  // How many entries fall in the closed interval.
  function Within(times: seq<int>, from: int, to: int): nat {
    if times == [] then 0
    else (if from <= times[|times| - 1] <= to then 1 else 0) + Within(times[..|times| - 1], from, to)
  }

  // --- pruning loses nothing a later check needs ---

  lemma {:induction false} PrunedConcat(a: seq<int>, b: seq<int>, now: int)
    ensures Pruned(a + b, now) == Pruned(a, now) + Pruned(b, now)
  {
    if a == [] {
      assert a + b == b;
    } else {
      assert (a + b)[1..] == a[1..] + b;
      PrunedConcat(a[1..], b, now);
    }
  }

  lemma {:induction false} PrunedTwice(times: seq<int>, earlier: int, now: int)
    requires earlier <= now
    ensures Pruned(Pruned(times, earlier), now) == Pruned(times, now)
  {
    if times != [] {
      PrunedTwice(times[1..], earlier, now);
      if times[0] >= earlier - WAKE_WINDOW {
        PrunedConcat([times[0]], Pruned(times[1..], earlier), now);
        assert Pruned([times[0]], now) == if times[0] >= now - WAKE_WINDOW then [times[0]] else [];
      }
    }
  }

  lemma {:induction false} PrunedCounts(times: seq<int>, now: int)
    requires forall i :: 0 <= i < |times| ==> times[i] <= now
    ensures |Pruned(times, now)| == Within(times, now - WAKE_WINDOW, now)
  {
    if times != [] {
      var k := |times| - 1;
      PrunedCounts(times[..k], now);
      assert times == times[..k] + [times[k]];
      PrunedConcat(times[..k], [times[k]], now);
    }
  }

  // What is stored stands for the whole history, for every check from now on.
  ghost predicate Stands(g: Guard, clock: int) {
    && Ascending(g.history)
    && (forall i :: 0 <= i < |g.history| ==> g.history[i] <= clock)
    && forall now :: now >= clock ==> Pruned(g.kept, now) == Pruned(g.history, now)
  }

  // A wake is refused exactly when the hour that ends now already holds `limit` wakes of the whole history,
  // although most of that history has been forgotten.
  lemma SkipsExactly(g: Guard, limit: int, now: int)
    requires Stands(g, now) && limit > 0
    ensures Skips(g.kept, limit, now) <==> Within(g.history, now - WAKE_WINDOW, now) >= limit
  {
    PrunedCounts(g.history, now);
  }

  // An attempt adds exactly one wake, now, if and only if there is no limit or the hour that ends now has room.
  lemma WakesExactly(g: Guard, limit: int, now: int)
    requires Stands(g, now)
    ensures Attempt(g, limit, now).history
            == if limit <= 0 || Within(g.history, now - WAKE_WINDOW, now) < limit then g.history + [now] else g.history
  {
    if limit > 0 {
      SkipsExactly(g, limit, now);
    }
  }

  lemma AttemptStands(g: Guard, limit: int, clock: int, now: int)
    requires Stands(g, clock) && clock <= now
    ensures Stands(Attempt(g, limit, now), now)
  {
    var next := Attempt(g, limit, now);
    forall later | later >= now ensures Pruned(next.kept, later) == Pruned(next.history, later) {
      PrunedTwice(g.kept, now, later);
      if next.history != g.history {
        var checked := if limit > 0 then Pruned(g.kept, now) else g.kept;
        PrunedTwice(checked + [now], now, later);
        PrunedConcat(checked, [now], later);
        PrunedConcat(g.history, [now], later);
      }
    }
  }

  // --- every hour of the history ---

  // Wakes in the closed hour that begins at `from`.
  function Hour(history: seq<int>, from: int): nat {
    Within(history, from, from + WAKE_WINDOW)
  }

  ghost predicate Bounded(history: seq<int>, limit: int) {
    forall from :: Hour(history, from) <= limit
  }

  lemma {:induction false} WithinShrinks(times: seq<int>, from: int, to: int, wider: int, end: int)
    requires forall i :: 0 <= i < |times| && from <= times[i] <= to ==> wider <= times[i] <= end
    ensures Within(times, from, to) <= Within(times, wider, end)
  {
    if times != [] {
      WithinShrinks(times[..|times| - 1], from, to, wider, end);
    }
  }

  lemma AttemptBounded(g: Guard, limit: int, now: int)
    requires Stands(g, now) && Bounded(g.history, limit) && limit > 0
    ensures Bounded(Attempt(g, limit, now).history, limit)
  {
    var next := Attempt(g, limit, now);
    SkipsExactly(g, limit, now);
    if next.history != g.history {
      forall from ensures Hour(next.history, from) <= limit {
        assert next.history[..|g.history|] == g.history;
        if from <= now <= from + WAKE_WINDOW {
          WithinShrinks(g.history, from, from + WAKE_WINDOW, now - WAKE_WINDOW, now);
        } else {
          assert Hour(g.history, from) <= limit;
        }
      }
    }
  }

  lemma {:induction false} RunBounded(g: Guard, limit: int, times: seq<int>, clock: int)
    requires Stands(g, clock) && Bounded(g.history, limit) && limit > 0
    requires Ascending([clock] + times)
    ensures Bounded(Run(g, limit, times).history, limit)
    decreases |times|
  {
    if times != [] {
      assert ([clock] + times)[0] == clock && ([clock] + times)[1] == times[0];
      assert forall i :: 0 <= i < |g.history| ==> g.history[i] <= times[0];
      AttemptStands(g, limit, clock, times[0]);
      AttemptBounded(g, limit, times[0]);
      assert [times[0]] + times[1..] == ([clock] + times)[1..];
      RunBounded(Attempt(g, limit, times[0]), limit, times[1..], times[0]);
    }
  }

  // Whatever the attempts, no closed hour of the whole history holds more than `limit` wakes.
  lemma EveryHourIsBounded(limit: int, times: seq<int>, from: int)
    requires limit > 0 && Ascending(times)
    ensures Hour(Run(Guard([], []), limit, times).history, from) <= limit
  {
    if times != [] {
      var clock := times[0];
      forall i, j | 0 <= i < j < |times| + 1 ensures ([clock] + times)[i] <= ([clock] + times)[j] {
        assert i > 0 ==> times[i - 1] <= times[j - 1];
        assert j > 1 ==> times[0] <= times[j - 1];
      }
      RunBounded(Guard([], []), limit, times, clock);
    }
  }

  // A limit of zero or less throttles nothing: every attempt wakes the agent.
  lemma {:induction false} NoLimitNoThrottle(g: Guard, limit: int, times: seq<int>)
    requires limit <= 0
    ensures Run(g, limit, times).history == g.history + times
    decreases |times|
  {
    if times != [] {
      NoLimitNoThrottle(Attempt(g, limit, times[0]), limit, times[1..]);
      assert [times[0]] + times[1..] == times;
    }
  }

  lemma PrunedSmall(a: int, b: int, now: int)
    ensures Pruned([a], now) == if a >= now - WAKE_WINDOW then [a] else []
    ensures Pruned([a, b], now) == Pruned([a], now) + Pruned([b], now)
    ensures Pruned([], now) == []
  {
    assert [a][1..] == [];
    assert [a, b] == [a] + [b];
    PrunedConcat([a], [b], now);
  }

  lemma RunFirst(g: Guard, limit: int, now: int, times: seq<int>)
    ensures Run(g, limit, [now] + times) == Run(Attempt(g, limit, now), limit, times)
  {
    assert ([now] + times)[1..] == times;
  }

  lemma WithinSnoc(times: seq<int>, t: int, from: int, to: int)
    ensures Within(times + [t], from, to) == Within(times, from, to) + if from <= t <= to then 1 else 0
  {
    assert (times + [t])[..|times|] == times;
  }

  // Four attempts under a limit of two, the last one after the clock stepped back.
  lemma TwoAttempts()
    ensures Attempt(Guard([], []), 2, 0) == Guard([0], [0])
    ensures Attempt(Guard([0], [0]), 2, 0) == Guard([0, 0], [0, 0])
  {
    PrunedSmall(0, 0, 0);
    assert [] + [0] == [0] && [0] + [0] == [0, 0];
  }

  lemma TwoMoreAttempts(late: int)
    requires late == 2 * WAKE_WINDOW
    ensures Attempt(Guard([0, 0], [0, 0]), 2, late) == Guard([late], [0, 0, late])
    ensures Attempt(Guard([late], [0, 0, late]), 2, 1) == Guard([late, 1], [0, 0, late, 1])
  {
    PrunedSmall(0, 0, late);
    PrunedSmall(late, 0, late);
    PrunedSmall(late, 1, 1);
    PrunedSmall(1, 1, 1);
    assert [] + [late] == [late] && [late] + [1] == [late, 1];
  }

  lemma ThreeInTheFirstHour(late: int)
    requires late == 2 * WAKE_WINDOW
    ensures Hour([0, 0, late, 1], 0) == 3
  {
    WithinSnoc([0, 0, late], 1, 0, WAKE_WINDOW);
    WithinSnoc([0, 0], late, 0, WAKE_WINDOW);
    WithinSnoc([0], 0, 0, WAKE_WINDOW);
    WithinSnoc([], 0, 0, WAKE_WINDOW);
    assert [0, 0, late] + [1] == [0, 0, late, 1] && [0, 0] + [late] == [0, 0, late] && [0] + [0] == [0, 0];
  }

  // The clock must not step back: here the wakes of the first hour are pruned two hours later, and a third wake is
  // granted inside that hour under a limit of two.
  lemma SteppingBackOverfillsAnHour()
    ensures Hour(Run(Guard([], []), 2, [0, 0, 2 * WAKE_WINDOW, 1]).history, 0) == 3
  {
    var late := 2 * WAKE_WINDOW;
    TwoAttempts();
    TwoMoreAttempts(late);
    ThreeInTheFirstHour(late);
    assert [0, 0, late, 1] == [0] + ([0] + ([late] + ([1] + [])));
    RunFirst(Guard([], []), 2, 0, [0] + ([late] + ([1] + [])));
    RunFirst(Guard([0], [0]), 2, 0, [late] + ([1] + []));
    RunFirst(Guard([0, 0], [0, 0]), 2, late, [1] + []);
    RunFirst(Guard([late], [0, 0, late]), 2, 1, []);
  }

  // --- the stored state of all agents ---

  class LoopState {
    var wakes: map<string, seq<int>>
    ghost var granted: map<string, seq<int>>

    ghost function View(agent: string): Guard
      reads this
    {
      Guard(if agent in wakes then wakes[agent] else [], if agent in granted then granted[agent] else [])
    }

    constructor ()
      ensures forall agent: string :: View(agent) == Guard([], [])
    {
      wakes, granted := map[], map[];
    }

    method PruneWindow(times: seq<int>, now: int) returns (pruned: seq<int>)
      ensures pruned == Pruned(times, now)
    {
      pruned := [];
      for i := 0 to |times|
        invariant pruned == Pruned(times[..i], now)
      {
        assert times[..i + 1] == times[..i] + [times[i]];
        PrunedConcat(times[..i], [times[i]], now);
        if times[i] >= now - WAKE_WINDOW {
          pruned := pruned + [times[i]];
        }
      }
      assert times[..|times|] == times;
    }

    method WakeCount(agent: string, now: int) returns (count: nat)
      modifies this
      ensures granted == old(granted)
      ensures wakes == old(wakes)[agent := Pruned(old(View(agent)).kept, now)]
      ensures count == |Pruned(old(View(agent)).kept, now)|
    {
      var recent := PruneWindow(if agent in wakes then wakes[agent] else [], now);
      wakes := wakes[agent := recent];
      count := |recent|;
    }

    method ShouldSkipWake(agent: string, limit: int, now: int) returns (skip: bool)
      modifies this
      ensures granted == old(granted)
      ensures wakes == if limit <= 0 then old(wakes) else old(wakes)[agent := Pruned(old(View(agent)).kept, now)]
      ensures skip == Skips(old(View(agent)).kept, limit, now)
    {
      if limit <= 0 {
        return false;
      }
      var count := WakeCount(agent, now);
      skip := count >= limit;
    }

    method RecordWake(agent: string, now: int)
      modifies this
      ensures wakes == old(wakes)[agent := Pruned(old(View(agent)).kept + [now], now)]
      ensures granted == old(granted)[agent := old(View(agent)).history + [now]]
    {
      granted := granted[agent := (if agent in granted then granted[agent] else []) + [now]];
      var recent := PruneWindow((if agent in wakes then wakes[agent] else []) + [now], now);
      wakes := wakes[agent := recent];
    }

    // How the supervisor wakes an agent.
    method Wake(agent: string, limit: int, now: int) returns (woken: bool)
      modifies this
      ensures View(agent) == Attempt(old(View(agent)), limit, now)
      ensures woken == !Skips(old(View(agent)).kept, limit, now)
      ensures wakes - {agent} == old(wakes) - {agent} && granted - {agent} == old(granted) - {agent}
    {
      var skip := ShouldSkipWake(agent, limit, now);
      if !skip {
        RecordWake(agent, now);
      }
      woken := !skip;
    }
  }
}
