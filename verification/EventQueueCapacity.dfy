// How far the pending directory can outgrow its limit when threads check and write at the same time.
module EventQueueCapacity {
  import opened Text
  import opened EventQueue
  import opened EventQueueCrashes

  // Threads that passed the capacity check and have not written yet.
  function Admitted(handlers: map<nat, Handler>): set<nat> {
    set t | t in handlers && handlers[t].Roomy?
  }

  // What can be pending under limit `max` with at most `threads` enqueues in flight.
  function Bound(max: int, threads: nat): int {
    if max <= 0 || threads == 0 then 0 else max + threads - 1
  }

  ghost predicate Bounded(w: World, max: int, threads: nat) {
    |w.f.pending| + |Admitted(w.handlers)| <= Bound(max, threads)
  }

  predicate Caps(e: Event, max: int) {
    e.Handle? ==> e.maxPending == max
  }

  // Never more than `threads` enqueues in flight, under one limit.
  ghost predicate Busy(w: World, events: seq<Event>, max: int, threads: nat)
    decreases |events|
  {
    && |w.handlers| <= threads
    && (events == [] || (Caps(events[0], max) && Busy(Step(w, events[0]), events[1..], max, threads)))
  }

  lemma AdmittedDrops(handlers: map<nat, Handler>, t: nat)
    ensures |Admitted(handlers - {t})| <= |Admitted(handlers)|
    ensures t in Admitted(handlers) ==> |Admitted(handlers - {t})| == |Admitted(handlers)| - 1
  {
    assert Admitted(handlers - {t}) == Admitted(handlers) - {t};
  }

  lemma AdmittedChanges(handlers: map<nat, Handler>, t: nat, h: Handler)
    ensures Admitted(handlers[t := h]) == if h.Roomy? then Admitted(handlers) + {t} else Admitted(handlers) - {t}
  {
  }

  lemma AdmittedFewer(handlers: map<nat, Handler>, t: nat)
    requires t in handlers && !handlers[t].Roomy?
    ensures |Admitted(handlers)| < |handlers|
  {
    assert Admitted(handlers) + {t} <= handlers.Keys && t !in Admitted(handlers);
    SubsetIsNoLarger(Admitted(handlers) + {t}, handlers.Keys);
    assert |handlers.Keys| == |handlers|;
  }

  lemma OneMore(pending: map<Name, Record>, n: Name, r: Record)
    ensures |pending[n := r]| <= |pending| + 1
  {
    assert pending[n := r].Keys == pending.Keys + {n};
    assert |pending[n := r]| == |pending[n := r].Keys| && |pending| == |pending.Keys|;
  }

  lemma HandlerBounded(w: World, t: nat, max: int, threads: nat)
    requires Bounded(w, max, threads) && t in w.handlers && |w.handlers| <= threads
    ensures Bounded(AdvanceHandler(w, t, max), max, threads)
  {
    AdmittedDrops(w.handlers, t);
    var v := AdvanceHandler(w, t, max);
    match w.handlers[t]
    case Arrived(key, now, since) =>
      if t in v.handlers {
        AdmittedChanges(w.handlers, t, v.handlers[t]);
      }
    case Unseen(key, now, since, at) =>
      AdmittedFewer(w.handlers, t);
      if t in v.handlers {
        AdmittedChanges(w.handlers, t, v.handlers[t]);
      }
    case Roomy(key, now, since, at) =>
      var n := Name(now, |w.accepted|);
      OneMore(w.f.pending, n, Record(key, now, None, false));
      if t in v.handlers {
        AdmittedChanges(w.handlers, t, v.handlers[t]);
        assert t in Admitted(w.handlers);
      }
    case Written(name, now, index) => AdmittedChanges(w.handlers, t, v.handlers[t]);
    case Loaded(name, now, index, base, loaded) =>
  }

  lemma StepBounded(w: World, e: Event, max: int, threads: nat)
    requires Bounded(w, max, threads) && |w.handlers| <= threads && Caps(e, max) && Enabled(w, e)
    ensures Bounded(Step(w, e), max, threads)
  {
    match e
    case Arrive(t, key, now) => AdmittedChanges(w.handlers, t, Arrived(key, now, |w.accepted|));
    case Handle(t, maxPending) => HandlerBounded(w, t, max, threads);
    case Die(t) => AdmittedDrops(w.handlers, t);
    case ListenerCrash => assert Admitted(map[]) == {};
    case Advance(now, readable, succeeded, staleAfter) => FewerPending(w, e);
    case _ =>
  }

  lemma FewerPending(w: World, e: Event)
    requires e.Advance?
    ensures |Step(w, e).f.pending| <= |w.f.pending| && Step(w, e).handlers == w.handlers
  {
    var v := Step(w, e);
    SupervisorAddsNone(w, e);
    SubsetIsNoLarger(v.f.pending.Keys, w.f.pending.Keys);
    assert |v.f.pending| == |v.f.pending.Keys| && |w.f.pending| == |w.f.pending.Keys|;
  }

  lemma {:induction false} RunBounded(w: World, events: seq<Event>, max: int, threads: nat)
    requires Bounded(w, max, threads) && Possible(w, events) && Busy(w, events, max, threads)
    ensures Bounded(Run(w, events), max, threads)
    decreases |events|
  {
    if events != [] {
      StepBounded(w, events[0], max, threads);
      RunBounded(Step(w, events[0]), events[1..], max, threads);
    }
  }

  // With at most `threads` enqueues in flight, crashes included, no more than max + threads - 1 events are ever pending;
  // with one at a time, never more than the limit.
  lemma NeverOverCapacity(events: seq<Event>, max: int, threads: nat)
    requires Possible(START, events) && Busy(START, events, max, threads)
    ensures |Run(START, events).f.pending| <= Bound(max, threads)
    ensures threads == 1 && max >= 0 ==> |Run(START, events).f.pending| <= max
  {
    assert Admitted(START.handlers) == {};
    RunBounded(START, events, max, threads);
  }
}
