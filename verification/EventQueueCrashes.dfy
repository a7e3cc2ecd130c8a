// The inbox as it runs: a listener that handles requests in threads, and a supervisor. Threads interleave between any
// two file operations, and either process may crash there.
module EventQueueCrashes {
  import opened Text
  import opened EventQueue

  // Where the supervisor is inside a drain or a sweep.
  datatype Phase = Next | Renamed(n: Name) | Stamped(n: Name) | Running(n: Name) | FailWritten(n: Name)
  datatype Supervisor = Idle | Draining(todo: seq<Name>, at: Phase) | Sweeping(todo: seq<Name>, at: Phase)

  // Where a thread is inside an enqueue: its stamp is taken; the duplicate check passed, when `at` stores of the memory
  // had been made; the capacity check passed; the event is written; the memory is read, when `base` stores had been made.
  // `since` is how many events had been written when it took its stamp, `index` which one it wrote.
  datatype Handler =
    | Arrived(key: Option<string>, now: nat, since: nat)
    | Unseen(key: Option<string>, now: nat, since: nat, at: nat)
    | Roomy(key: Option<string>, now: nat, since: nat, at: nat)
    | Written(name: string, now: nat, index: nat)
    | Loaded(name: string, now: nat, index: nat, base: nat, loaded: map<string, nat>)

  // An event that was written. Its id is its index; `stored` is the number of the store that remembered its key.
  datatype Acceptance = Acceptance(name: Name, key: Option<string>, since: nat, at: nat, stored: Option<nat>)

  // One store of the memory.
  datatype Stored = Stored(key: string, time: nat, base: nat)

  // The files, both processes, the clock, and the history: accepted events, stores of the memory, events yielded for
  // execution, events completed.
  datatype World = World(f: Files, sup: Supervisor, handlers: map<nat, Handler>, clock: nat,
                         accepted: seq<Acceptance>, stores: seq<Stored>, executed: seq<Name>, completed: set<Name>)

  datatype Event =
    | Arrive(t: nat, key: Option<string>, now: nat)
    | Handle(t: nat, maxPending: int)
    | Die(t: nat)
    | ListenerCrash
    | StartDrain(todo: seq<Name>, limit: nat)
    | StartSweep(listing: seq<Name>)
    | Advance(now: nat, readable: bool, succeeded: bool, staleAfter: nat)
    | SupervisorCrash

  // Whether the event can happen now. Stamps only ever come from the clock.
  ghost predicate Enabled(w: World, e: Event) {
    match e
    case Arrive(t, _, now) => t !in w.handlers && now >= w.clock
    case Handle(t, _) => t in w.handlers
    case Die(_) => true
    case ListenerCrash => true
    case StartDrain(todo, limit) => w.sup == Idle && FirstPending(w.f, todo, limit)
    case StartSweep(listing) => w.sup == Idle
    case Advance(_, _, _, _) => w.sup != Idle
    case SupervisorCrash => true
  }

  function Gone(w: World, t: nat): World {
    w.(handlers := w.handlers - {t})
  }

  function MarkStored(accepted: seq<Acceptance>, index: nat, n: nat): seq<Acceptance> {
    if index < |accepted| then accepted[index := accepted[index].(stored := Some(n))] else accepted
  }

  // The thread's event is on disk; without a key the enqueue is over.
  function WriteNext(w: World, t: nat, key: Option<string>, now: nat, since: nat, at: nat): World {
    var n := Name(now, |w.accepted|);
    var v := w.(f := WritePending(w.f, n, Record(key, now, None, false)),
                accepted := w.accepted + [Acceptance(n, key, since, at, None)]);
    if Keyed(key) then v.(handlers := w.handlers[t := Written(key.value, now, |w.accepted|)]) else Gone(v, t)
  }

  function AdvanceHandler(w: World, t: nat, maxPending: int): World
    requires t in w.handlers
  {
    match w.handlers[t]
    case Arrived(key, now, since) =>
      if Delivered(w.f, key) then Gone(w, t)
      else w.(handlers := w.handlers[t := Unseen(key, now, since, |w.stores|)])
    case Unseen(key, now, since, at) =>
      if Full(w.f, maxPending) then Gone(w, t) else w.(handlers := w.handlers[t := Roomy(key, now, since, at)])
    case Roomy(key, now, since, at) => WriteNext(w, t, key, now, since, at)
    case Written(name, now, index) =>
      w.(handlers := w.handlers[t := Loaded(name, now, index, |w.stores|, w.f.seen)])
    case Loaded(name, now, index, base, loaded) =>
      Gone(w, t).(f := StoreSeen(w.f, loaded, name, now), stores := w.stores + [Stored(name, now, base)],
                  accepted := MarkStored(w.accepted, index, |w.stores| + 1))
  }

  function AdvanceDrain(w: World, todo: seq<Name>, at: Phase, now: nat, readable: bool, succeeded: bool): World {
    match at
    case Next =>
      if todo == [] then w.(sup := Idle)
      else if todo[0] in w.f.pending then
        w.(f := RenameToProcessing(w.f, todo[0]), sup := Draining(todo[1..], Renamed(todo[0])))
      else w.(sup := Draining(todo[1..], Next))
    case Renamed(n) =>
      if readable && n in w.f.processing then w.(f := StampClaim(w.f, n, now), sup := Draining(todo, Stamped(n)))
      else w.(sup := Draining(todo, Next))
    case Stamped(n) => w.(executed := w.executed + [n], sup := Draining(todo, Running(n)))
    case Running(n) =>
      if succeeded then w.(f := Unlink(w.f, n), completed := w.completed + {n}, sup := Draining(todo, Next))
      else w.(f := WriteFailed(w.f, n), sup := Draining(todo, FailWritten(n)))
    case FailWritten(n) => w.(f := Unlink(w.f, n), sup := Draining(todo, Next))
  }

  function AdvanceSweep(w: World, todo: seq<Name>, at: Phase, now: nat, staleAfter: nat): World {
    match at
    case FailWritten(n) => w.(f := Unlink(w.f, n), sup := Sweeping(todo, Next))
    case _ =>
      if todo == [] then w.(sup := Idle)
      else if todo[0] in w.f.processing && Stale(w.f.processing[todo[0]], now, staleAfter) then
        w.(f := WriteFailed(w.f, todo[0]), sup := Sweeping(todo[1..], FailWritten(todo[0])))
      else w.(sup := Sweeping(todo[1..], Next))
  }

  function Step(w: World, e: Event): World {
    match e
    case Arrive(t, key, now) => w.(handlers := w.handlers[t := Arrived(key, now, |w.accepted|)], clock := now)
    case Handle(t, maxPending) => if t in w.handlers then AdvanceHandler(w, t, maxPending) else w
    case Die(t) => Gone(w, t)
    case ListenerCrash => w.(handlers := map[])
    case StartDrain(todo, limit) => w.(sup := Draining(todo, Next))
    case StartSweep(listing) => w.(sup := Sweeping(listing, Next))
    case Advance(now, readable, succeeded, staleAfter) =>
      (match w.sup
       case Idle => w
       case Draining(todo, at) => AdvanceDrain(w, todo, at, now, readable, succeeded)
       case Sweeping(todo, at) => AdvanceSweep(w, todo, at, now, staleAfter))
    case SupervisorCrash => w.(sup := Idle)
  }

  const START := World(Files(map[], map[], map[], map[]), Idle, map[], 0, [], [], [], {})

  ghost predicate Possible(w: World, events: seq<Event>)
    decreases |events|
  {
    events == [] || (Enabled(w, events[0]) && Possible(Step(w, events[0]), events[1..]))
  }

  function Run(w: World, events: seq<Event>): World
    decreases |events|
  {
    if events == [] then w else Run(Step(w, events[0]), events[1..])
  }

  lemma RunOne(w: World, e: Event, rest: seq<Event>)
    ensures Run(w, [e] + rest) == Run(Step(w, e), rest)
    ensures Possible(w, [e] + rest) <==> Enabled(w, e) && Possible(Step(w, e), rest)
  {
    assert ([e] + rest)[1..] == rest;
  }

  // A thread starts only when no other is at work.
  predicate Alone(w: World, e: Event) {
    e.Arrive? ==> w.handlers == map[]
  }

  ghost predicate AllAlone(w: World, events: seq<Event>)
    decreases |events|
  {
    events == [] || (Alone(w, events[0]) && AllAlone(Step(w, events[0]), events[1..]))
  }

  // --- at most once, and never lost ---

  predicate Known(w: World, n: Name) {
    n in w.f.pending || n in w.f.processing || n in w.f.failed || n in w.executed
  }

  predicate Present(f: Files, n: Name) {
    n in f.pending || n in f.processing || n in f.failed
  }

  // The event the supervisor has in hand but has not yielded, or has yielded and not settled.
  predicate InHand(w: World) {
    match w.sup
    case Idle => true
    case Draining(todo, at) =>
      (match at
       case Next => true
       case Renamed(n) => n in w.f.processing && n !in w.f.pending && n !in w.executed
       case Stamped(n) => n in w.f.processing && n !in w.f.pending && n !in w.executed
       case Running(n) => n in w.f.processing && n !in w.f.pending && n in w.executed
       case FailWritten(n) => n in w.f.failed && n !in w.f.pending)
    case Sweeping(todo, at) =>
      (match at
       case FailWritten(n) => n in w.f.failed && n !in w.f.pending
       case _ => true)
  }

  ghost predicate Safe(w: World) {
    && (forall n :: Known(w, n) ==> n.id < |w.accepted| && w.accepted[n.id].name == n)
    && (forall i :: 0 <= i < |w.accepted| ==> w.accepted[i].name.id == i)
    && (forall n :: n in w.f.pending ==> n !in w.f.processing && n !in w.f.failed && n !in w.executed)
    && (forall i, j :: 0 <= i < j < |w.executed| ==> w.executed[i] != w.executed[j])
    && (forall i :: 0 <= i < |w.accepted| ==> Present(w.f, w.accepted[i].name) || w.accepted[i].name in w.completed)
    && (forall n :: n in w.completed ==> n in w.executed)
    && InHand(w)
  }

  lemma StepSafe(w: World, e: Event)
    requires Safe(w) && Enabled(w, e)
    ensures Safe(Step(w, e))
  {
    match e
    case Handle(t, maxPending) => HandlerSafe(w, t, maxPending);
    case Advance(now, readable, succeeded, staleAfter) =>
      if w.sup.Draining? {
        DrainSafe(w, w.sup.todo, w.sup.at, now, readable, succeeded);
      } else {
        SweepSafe(w, w.sup.todo, w.sup.at, now, staleAfter);
      }
    case _ =>
  }

  lemma HandlerSafe(w: World, t: nat, maxPending: int)
    requires Safe(w) && t in w.handlers
    ensures Safe(AdvanceHandler(w, t, maxPending))
  {
    match w.handlers[t]
    case Roomy(key, now, since, at) => WriteSafe(w, t, key, now, since, at);
    case Loaded(name, now, index, base, loaded) =>
      var v := AdvanceHandler(w, t, maxPending);
      assert forall i :: 0 <= i < |v.accepted| ==> v.accepted[i].name == w.accepted[i].name;
    case _ =>
  }

  lemma WriteSafe(w: World, t: nat, key: Option<string>, now: nat, since: nat, at: nat)
    requires Safe(w)
    ensures Safe(WriteNext(w, t, key, now, since, at))
  {
    var v := WriteNext(w, t, key, now, since, at);
    forall i | 0 <= i < |v.accepted|
      ensures Present(v.f, v.accepted[i].name) || v.accepted[i].name in v.completed
    {
      if i < |w.accepted| {
        assert v.accepted[i] == w.accepted[i];
      }
    }
  }

  lemma DrainSafe(w: World, todo: seq<Name>, at: Phase, now: nat, readable: bool, succeeded: bool)
    requires Safe(w) && w.sup == Draining(todo, at)
    ensures Safe(AdvanceDrain(w, todo, at, now, readable, succeeded))
  {
  }

  lemma SweepSafe(w: World, todo: seq<Name>, at: Phase, now: nat, staleAfter: nat)
    requires Safe(w) && w.sup == Sweeping(todo, at)
    ensures Safe(AdvanceSweep(w, todo, at, now, staleAfter))
  {
  }

  lemma {:induction false} RunSafe(w: World, events: seq<Event>)
    requires Safe(w) && Possible(w, events)
    ensures Safe(Run(w, events))
    decreases |events|
  {
    if events != [] {
      StepSafe(w, events[0]);
      RunSafe(Step(w, events[0]), events[1..]);
    }
  }

  // However the listener's threads interleave and wherever either process crashes: no event is executed twice, and every
  // accepted event is on disk until it was executed and completed.
  lemma AtMostOnceNeverLost(events: seq<Event>)
    requires Possible(START, events)
    ensures var w := Run(START, events);
            && (forall i, j :: 0 <= i < j < |w.executed| ==> w.executed[i] != w.executed[j])
            && (forall i :: 0 <= i < |w.accepted| ==>
                  Present(w.f, w.accepted[i].name)
                  || (w.accepted[i].name in w.completed && w.accepted[i].name in w.executed))
  {
    RunSafe(START, events);
  }

  // Once claimed, whatever happened to it, an event never goes back to pending.
  lemma {:induction false} NeverPendingAgain(w: World, events: seq<Event>, n: Name)
    requires Safe(w) && Possible(w, events) && n.id < |w.accepted| && n !in w.f.pending
    ensures n !in Run(w, events).f.pending
    decreases |events|
  {
    if events != [] {
      StepSafe(w, events[0]);
      StaysClaimed(w, events[0], n);
      NeverPendingAgain(Step(w, events[0]), events[1..], n);
    }
  }

  lemma StaysClaimed(w: World, e: Event, n: Name)
    requires n.id < |w.accepted| && n !in w.f.pending
    ensures n.id < |Step(w, e).accepted| && n !in Step(w, e).f.pending
  {
    match e
    case Handle(t, maxPending) =>
      if t in w.handlers {
        HandlerAddsNewest(w, t, maxPending);
      }
    case Advance(now, readable, succeeded, staleAfter) => SupervisorAddsNone(w, e);
    case _ =>
  }

  lemma HandlerAddsNewest(w: World, t: nat, maxPending: int)
    requires t in w.handlers
    ensures var v := AdvanceHandler(w, t, maxPending);
            && |v.accepted| >= |w.accepted|
            && forall n :: n in v.f.pending ==> n in w.f.pending || n.id == |w.accepted|
  {
  }

  lemma SupervisorAddsNone(w: World, e: Event)
    requires e.Advance?
    ensures Step(w, e).accepted == w.accepted
    ensures Step(w, e).handlers == w.handlers
    ensures Step(w, e).f.pending.Keys <= w.f.pending.Keys
  {
    if w.sup.Draining? {
      DrainAddsNone(w, w.sup.todo, w.sup.at, e.now, e.readable, e.succeeded);
    }
  }

  lemma DrainAddsNone(w: World, todo: seq<Name>, at: Phase, now: nat, readable: bool, succeeded: bool)
    ensures var v := AdvanceDrain(w, todo, at, now, readable, succeeded);
            v.accepted == w.accepted && v.handlers == w.handlers && v.f.pending.Keys <= w.f.pending.Keys
  {
  }

  // --- what is on disk is what arrived ---

  // A record still says which event it is: its key and its arrival stamp; only a failed one is marked so.
  predicate Intact(w: World, n: Name, r: Record, failed: bool) {
    n.id < |w.accepted| && r.key == w.accepted[n.id].key && r.received == n.stamp && r.failed == failed
  }

  ghost predicate AllIntact(w: World) {
    && (forall n :: n in w.f.pending ==> Intact(w, n, w.f.pending[n], false) && w.f.pending[n].claimed == None)
    && (forall n :: n in w.f.processing ==> Intact(w, n, w.f.processing[n], false))
    && (forall n :: n in w.f.failed ==> Intact(w, n, w.f.failed[n], true))
  }

  lemma StepIntact(w: World, e: Event)
    requires Safe(w) && AllIntact(w) && Enabled(w, e)
    ensures AllIntact(Step(w, e))
  {
    match e
    case Handle(t, maxPending) => HandlerIntact(w, t, maxPending);
    case Advance(now, readable, succeeded, staleAfter) =>
      if w.sup.Draining? {
        DrainIntact(w, w.sup.todo, w.sup.at, now, readable, succeeded);
      } else {
        SweepIntact(w, w.sup.todo, w.sup.at, now, staleAfter);
      }
    case _ =>
  }

  lemma HandlerIntact(w: World, t: nat, maxPending: int)
    requires Safe(w) && AllIntact(w) && t in w.handlers
    ensures AllIntact(AdvanceHandler(w, t, maxPending))
  {
    match w.handlers[t]
    case Roomy(key, now, since, at) => WriteIntact(w, t, key, now, since, at);
    case Loaded(name, now, index, base, loaded) =>
      var v := AdvanceHandler(w, t, maxPending);
      assert |v.accepted| == |w.accepted|;
      assert forall i :: 0 <= i < |w.accepted| ==> v.accepted[i].key == w.accepted[i].key;
      IntactElsewhere(w, v);
    case _ => IntactElsewhere(w, AdvanceHandler(w, t, maxPending));
  }

  // Steps that leave the three directories and what was accepted alone.
  lemma IntactElsewhere(w: World, v: World)
    requires AllIntact(w) && |v.accepted| >= |w.accepted|
    requires v.f.pending == w.f.pending && v.f.processing == w.f.processing && v.f.failed == w.f.failed
    requires forall i :: 0 <= i < |w.accepted| ==> v.accepted[i].key == w.accepted[i].key
    ensures AllIntact(v)
  {
  }

  lemma WriteIntact(w: World, t: nat, key: Option<string>, now: nat, since: nat, at: nat)
    requires AllIntact(w)
    ensures AllIntact(WriteNext(w, t, key, now, since, at))
  {
    var v := WriteNext(w, t, key, now, since, at);
    assert forall i :: 0 <= i < |w.accepted| ==> v.accepted[i] == w.accepted[i];
    assert v.accepted[|w.accepted|].key == key;
  }

  lemma DrainIntact(w: World, todo: seq<Name>, at: Phase, now: nat, readable: bool, succeeded: bool)
    requires Safe(w) && AllIntact(w) && w.sup == Draining(todo, at)
    ensures AllIntact(AdvanceDrain(w, todo, at, now, readable, succeeded))
  {
    var v := AdvanceDrain(w, todo, at, now, readable, succeeded);
    assert v.accepted == w.accepted;
    match at
    case Next =>
      if todo != [] && todo[0] in w.f.pending {
        RenamedIntact(w, todo[0], v);
      }
    case Renamed(n) =>
      if readable && n in w.f.processing {
        StampedIntact(w, n, now, v);
      }
    case Stamped(n) => IntactElsewhere(w, v);
    case Running(n) =>
      assert n in w.f.processing;
      if succeeded {
        UnlinkedIntact(w, n, v);
      } else {
        FailedIntact(w, n, v);
      }
    case FailWritten(n) => UnlinkedIntact(w, n, v);
  }

  lemma RenamedIntact(w: World, n: Name, v: World)
    requires AllIntact(w) && n in w.f.pending && v.f == RenameToProcessing(w.f, n) && v.accepted == w.accepted
    ensures AllIntact(v)
  {
  }

  lemma StampedIntact(w: World, n: Name, now: nat, v: World)
    requires AllIntact(w) && n in w.f.processing && v.f == StampClaim(w.f, n, now) && v.accepted == w.accepted
    ensures AllIntact(v)
  {
  }

  lemma UnlinkedIntact(w: World, n: Name, v: World)
    requires AllIntact(w) && v.f == Unlink(w.f, n) && v.accepted == w.accepted
    ensures AllIntact(v)
  {
  }

  lemma FailedIntact(w: World, n: Name, v: World)
    requires AllIntact(w) && n in w.f.processing && v.f == WriteFailed(w.f, n) && v.accepted == w.accepted
    ensures AllIntact(v)
  {
  }

  lemma SweepIntact(w: World, todo: seq<Name>, at: Phase, now: nat, staleAfter: nat)
    requires AllIntact(w) && w.sup == Sweeping(todo, at)
    ensures AllIntact(AdvanceSweep(w, todo, at, now, staleAfter))
  {
  }

  lemma {:induction false} RunIntact(w: World, events: seq<Event>)
    requires Safe(w) && AllIntact(w) && Possible(w, events)
    ensures AllIntact(Run(w, events))
    decreases |events|
  {
    if events != [] {
      StepSafe(w, events[0]);
      StepIntact(w, events[0]);
      RunIntact(Step(w, events[0]), events[1..]);
    }
  }

  // However threads interleave and processes crash, whatever is pending, claimed or failed is the event that arrived,
  // with the key and the stamp it arrived with, and failed entries alone are marked failed.
  lemma EntriesStayIntact(events: seq<Event>)
    requires Possible(START, events)
    ensures AllIntact(Run(START, events))
  {
    RunIntact(START, events);
  }

  // A sweep takes a claimed event exactly when its claim is older than the threshold, or when a crash left it without
  // the time of its claim.
  lemma SweptExactly(f: Files, n: Name, now: nat, later: nat, staleAfter: nat)
    requires n in f.pending && f.pending[n].claimed == None
    ensures var renamed := RenameToProcessing(f, n);
            && Stale(renamed.processing[n], later, staleAfter)
            && (Stale(StampClaim(renamed, n, now).processing[n], later, staleAfter) <==> later > now + staleAfter)
  {
  }
}
