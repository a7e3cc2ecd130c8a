// In which order accepted events are executed.
module EventQueueOrder {
  import opened Text
  import opened EventQueue
  import opened EventQueueCrashes

  // Event `a` was on disk before the enqueue of `b` took its stamp.
  predicate Preceded(w: World, a: Name, b: Name) {
    a.id < |w.accepted| && b.id < |w.accepted| && a.id < w.accepted[b.id].since
  }

  // --- stamps ---

  // Whatever was written before `since` has a smaller stamp.
  predicate Newer(w: World, since: nat, stamp: nat) {
    since <= |w.accepted| && stamp <= w.clock && forall i :: 0 <= i < since ==> w.accepted[i].name.stamp < stamp
  }

  predicate Stamped1(w: World, h: Handler) {
    match h
    case Arrived(_, now, since) => Newer(w, since, now)
    case Unseen(_, now, since, _) => Newer(w, since, now)
    case Roomy(_, now, since, _) => Newer(w, since, now)
    case _ => true
  }

  ghost predicate StampsAgree(w: World) {
    && (forall t :: t in w.handlers ==> Stamped1(w, w.handlers[t]))
    && (forall i :: 0 <= i < |w.accepted| ==>
          Newer(w, w.accepted[i].since, w.accepted[i].name.stamp) && w.accepted[i].since <= i)
  }

  // Arrival stamps strictly increase.
  predicate Later(w: World, e: Event) {
    e.Arrive? ==> e.now > w.clock
  }

  lemma StepStamps(w: World, e: Event)
    requires StampsAgree(w) && Enabled(w, e) && Later(w, e)
    ensures StampsAgree(Step(w, e))
  {
    var v := Step(w, e);
    OnlyGrows(w, e);
    ThreadsKeepStamps(w, e);
    forall t | t in v.handlers ensures Stamped1(v, v.handlers[t]) {
      assert t in w.handlers ==> Stamped1(w, w.handlers[t]);
    }
    forall i | 0 <= i < |v.accepted|
      ensures Newer(v, v.accepted[i].since, v.accepted[i].name.stamp) && v.accepted[i].since <= i
    {
      if i < |w.accepted| {
        assert Newer(w, w.accepted[i].since, w.accepted[i].name.stamp);
      } else {
        assert Stamped1(w, w.handlers[e.t]);
      }
    }
  }

  predicate SameStamp(h: Handler, g: Handler) {
    g == h
    || (h.Arrived? && g.Unseen? && g.now == h.now && g.since == h.since)
    || (h.Unseen? && g.Roomy? && g.now == h.now && g.since == h.since)
    || g.Written? || g.Loaded?
  }

  // A thread keeps the stamp it took.
  lemma ThreadsKeepStamps(w: World, e: Event)
    requires Enabled(w, e)
    ensures Step(w, e).clock >= w.clock
    ensures forall t :: t in Step(w, e).handlers ==>
              (t in w.handlers && SameStamp(w.handlers[t], Step(w, e).handlers[t]))
              || (e.Arrive? && Step(w, e).handlers[t] == Arrived(e.key, e.now, |w.accepted|) && Step(w, e).clock == e.now)
  {
    match e
    case Handle(t, maxPending) => ThreadKeepsStamp(w, t, maxPending);
    case Advance(now, readable, succeeded, staleAfter) => SupervisorLeavesThreads(w, e);
    case _ =>
  }

  lemma ThreadKeepsStamp(w: World, t: nat, maxPending: int)
    requires t in w.handlers
    ensures var v := AdvanceHandler(w, t, maxPending);
            && v.clock == w.clock
            && forall u :: u in v.handlers ==> u in w.handlers && SameStamp(w.handlers[u], v.handlers[u])
  {
  }

  lemma SupervisorLeavesThreads(w: World, e: Event)
    requires e.Advance?
    ensures var v := Step(w, e);
            && v.handlers == w.handlers && v.clock == w.clock && v.accepted == w.accepted
            && v.f.pending.Keys <= w.f.pending.Keys
  {
    match w.sup
    case Idle =>
    case Draining(todo, at) => DrainLeavesThreads(w, todo, at, e.now, e.readable, e.succeeded);
    case Sweeping(todo, at) =>
  }

  lemma DrainLeavesThreads(w: World, todo: seq<Name>, at: Phase, now: nat, readable: bool, succeeded: bool)
    ensures var v := AdvanceDrain(w, todo, at, now, readable, succeeded);
            && v.handlers == w.handlers && v.clock == w.clock && v.accepted == w.accepted
            && v.f.pending.Keys <= w.f.pending.Keys
  {
  }

  // What was accepted keeps its name and since; at most one event is added, by a thread that had passed both checks.
  predicate Grows(w: World, v: World, t: nat) {
    && |w.accepted| <= |v.accepted| <= |w.accepted| + 1
    && (forall i :: 0 <= i < |w.accepted| ==>
          v.accepted[i].name == w.accepted[i].name && v.accepted[i].since == w.accepted[i].since)
    && (|v.accepted| > |w.accepted| ==>
          && t in w.handlers && w.handlers[t].Roomy?
          && v.accepted[|w.accepted|].since == w.handlers[t].since
          && v.accepted[|w.accepted|].name == Name(w.handlers[t].now, |w.accepted|)
          && v.f.pending.Keys == w.f.pending.Keys + {v.accepted[|w.accepted|].name})
    && (|v.accepted| == |w.accepted| ==> v.f.pending.Keys <= w.f.pending.Keys)
  }

  lemma OnlyGrows(w: World, e: Event)
    requires e.Handle? ==> e.t in w.handlers
    ensures Grows(w, Step(w, e), if e.Handle? then e.t else 0)
    ensures !e.Handle? ==> Step(w, e).accepted == w.accepted
  {
    match e
    case Handle(t, maxPending) => HandlerGrows(w, t, maxPending);
    case Advance(now, readable, succeeded, staleAfter) => SupervisorLeavesThreads(w, e);
    case _ =>
  }

  lemma HandlerGrows(w: World, t: nat, maxPending: int)
    requires t in w.handlers
    ensures var v := AdvanceHandler(w, t, maxPending);
            Grows(w, v, t) && v.executed == w.executed && v.sup == w.sup
  {
    match w.handlers[t]
    case Roomy(key, now, since, at) => WriteGrows(w, t, key, now, since, at);
    case Loaded(name, now, index, base, loaded) => MarkKeeps(w.accepted, index, |w.stores| + 1);
    case _ =>
  }

  lemma WriteGrows(w: World, t: nat, key: Option<string>, now: nat, since: nat, at: nat)
    requires t in w.handlers && w.handlers[t] == Roomy(key, now, since, at)
    ensures var v := WriteNext(w, t, key, now, since, at);
            Grows(w, v, t) && v.executed == w.executed && v.sup == w.sup
  {
  }

  lemma MarkKeeps(accepted: seq<Acceptance>, index: nat, n: nat)
    ensures var after := MarkStored(accepted, index, n);
            && |after| == |accepted|
            && forall i :: 0 <= i < |accepted| ==> after[i].name == accepted[i].name && after[i].since == accepted[i].since
  {
  }

  // --- execution order ---

  // No pending event precedes an executed one.
  ghost predicate NoneOvertaken(w: World) {
    && (forall n, m :: n in w.executed && m in w.f.pending ==> !Preceded(w, m, n))
    && (forall p, q :: 0 <= p < q < |w.executed| ==> !Preceded(w, w.executed[q], w.executed[p]))
  }

  // A pending event that precedes a listed one is listed before it.
  predicate ListedInOrder(w: World, todo: seq<Name>) {
    && (forall i :: 0 <= i < |todo| ==> todo[i].id < |w.accepted|)
    && forall m, i :: m in w.f.pending && 0 <= i < |todo| && Preceded(w, m, todo[i]) ==> m in todo[..i]
  }

  // The claimed event precedes no executed one, and no pending one precedes it.
  ghost predicate NextInLine(w: World, n: Name) {
    && n.id < |w.accepted|
    && (forall e :: e in w.executed ==> !Preceded(w, n, e))
    && (forall m :: m in w.f.pending ==> !Preceded(w, m, n))
  }

  ghost predicate Ordered(w: World) {
    && NoneOvertaken(w)
    && (w.sup.Draining? ==>
          && ListedInOrder(w, w.sup.todo)
          && (w.sup.at.Renamed? || w.sup.at.Stamped? ==> NextInLine(w, w.sup.at.n)))
  }

  // Steps of the listener: an event that is newly written precedes nothing that was there.
  lemma ListenerOrdered(w: World, e: Event)
    requires Safe(w) && StampsAgree(w) && Ordered(w) && Enabled(w, e)
    requires e.Handle? || e.Arrive? || e.Die? || e.ListenerCrash?
    ensures Ordered(Step(w, e))
  {
    var v := Step(w, e);
    OnlyGrows(w, e);
    assert v.executed == w.executed && v.sup == w.sup;
    forall a: Name, b: Name | b.id < |w.accepted|
      ensures Preceded(v, a, b) ==> Preceded(w, a, b)
    {
      assert v.accepted[b.id].since == w.accepted[b.id].since <= b.id;
    }
    forall n, m | n in v.executed && m in v.f.pending ensures !Preceded(v, m, n) {
      assert Known(w, n);
      if m !in w.f.pending {
        assert m.id == |w.accepted|;
      }
    }
    forall p, q | 0 <= p < q < |v.executed| ensures !Preceded(v, v.executed[q], v.executed[p]) {
      assert Known(w, w.executed[p]) && Known(w, w.executed[q]);
    }
    if w.sup.Draining? {
      ListingStays(w, v, w.sup.todo);
      if w.sup.at.Renamed? || w.sup.at.Stamped? {
        NextStays(w, v, w.sup.at.n);
      }
    }
  }

  predicate NothingNewPrecedes(w: World, v: World) {
    && |v.accepted| >= |w.accepted|
    && (forall i :: 0 <= i < |w.accepted| ==> v.accepted[i].since == w.accepted[i].since <= i)
    && (forall m :: m in v.f.pending ==> m in w.f.pending || m.id >= |w.accepted|)
    && v.executed == w.executed
  }

  lemma ListingStays(w: World, v: World, todo: seq<Name>)
    requires ListedInOrder(w, todo) && NothingNewPrecedes(w, v)
    ensures ListedInOrder(v, todo)
  {
    forall m, i | m in v.f.pending && 0 <= i < |todo| && Preceded(v, m, todo[i]) ensures m in todo[..i] {
      assert v.accepted[todo[i].id].since == w.accepted[todo[i].id].since;
      assert Preceded(w, m, todo[i]);
    }
  }

  lemma NextStays(w: World, v: World, n: Name)
    requires NextInLine(w, n) && NothingNewPrecedes(w, v)
    requires forall e :: e in w.executed ==> e.id < |w.accepted|
    ensures NextInLine(v, n)
  {
    forall e | e in v.executed ensures !Preceded(v, n, e) {
      assert v.accepted[e.id].since == w.accepted[e.id].since;
      assert !Preceded(w, n, e);
    }
    forall m | m in v.f.pending ensures !Preceded(v, m, n) {
      assert v.accepted[n.id].since == w.accepted[n.id].since;
      if m in w.f.pending {
        assert !Preceded(w, m, n);
      }
    }
  }

  // A drain lists the first pending names in name order.
  lemma ListingOrdered(w: World, todo: seq<Name>, limit: nat)
    requires Safe(w) && StampsAgree(w) && FirstPending(w.f, todo, limit)
    ensures ListedInOrder(w, todo)
  {
    forall m, i | m in w.f.pending && 0 <= i < |todo| && Preceded(w, m, todo[i]) ensures m in todo[..i] {
      assert Known(w, m) && Known(w, todo[i]);
      assert Newer(w, w.accepted[todo[i].id].since, todo[i].stamp);
      assert m.stamp < todo[i].stamp && !Before(todo[i], m);
      var k :| 0 <= k < |todo| && todo[k] == m;
    }
  }

  lemma DrainOrdered(w: World, todo: seq<Name>, at: Phase, now: nat, readable: bool, succeeded: bool)
    requires Safe(w) && Ordered(w) && w.sup == Draining(todo, at)
    ensures Ordered(AdvanceDrain(w, todo, at, now, readable, succeeded))
  {
    var v := AdvanceDrain(w, todo, at, now, readable, succeeded);
    match at
    case Next => NextOrdered(w, v, todo);
    case Renamed(n) => SameOrder(w, v, todo, n, readable && n in w.f.processing);
    case Stamped(n) =>
      YieldedLast(w, v, n);
      SameListing(w, v, todo);
    case Running(n) => SameOrder(w, v, todo, n, false);
    case FailWritten(n) => SameOrder(w, v, todo, n, false);
  }

  lemma NextOrdered(w: World, v: World, todo: seq<Name>)
    requires Safe(w) && Ordered(w) && w.sup == Draining(todo, Next)
    requires v.accepted == w.accepted && v.executed == w.executed
    requires forall m :: m in v.f.pending ==> m in w.f.pending && (todo != [] ==> m != todo[0])
    requires v.sup == if todo == [] then Idle
                      else Draining(todo[1..], if todo[0] in w.f.pending then Renamed(todo[0]) else Next)
    ensures Ordered(v)
  {
    if todo != [] {
      ShorterListing(w, v, todo);
      if todo[0] in w.f.pending {
        HeadIsNext(w, v, todo);
      }
    }
  }

  lemma SameListing(w: World, v: World, todo: seq<Name>)
    requires ListedInOrder(w, todo) && v.accepted == w.accepted && v.f.pending == w.f.pending
    ensures ListedInOrder(v, todo)
  {
  }

  // Nothing became pending or was yielded; `claimed` says whether the event in hand stays in hand.
  lemma SameOrder(w: World, v: World, todo: seq<Name>, n: Name, claimed: bool)
    requires Ordered(w) && w.sup.Draining? && w.sup.todo == todo
    requires v.accepted == w.accepted && v.executed == w.executed && v.f.pending == w.f.pending
    requires v.sup.Draining? && v.sup.todo == todo
    requires v.sup.at.Renamed? || v.sup.at.Stamped? ==> claimed && v.sup.at.n == n && w.sup.at == Renamed(n)
    ensures Ordered(v)
  {
    SameListing(w, v, todo);
  }

  lemma YieldedLast(w: World, v: World, n: Name)
    requires NoneOvertaken(w) && NextInLine(w, n) && v.accepted == w.accepted
    requires v.executed == w.executed + [n] && v.f.pending == w.f.pending
    ensures NoneOvertaken(v)
  {
    forall p, q | 0 <= p < q < |v.executed| ensures !Preceded(v, v.executed[q], v.executed[p]) {
      if q == |w.executed| {
        assert w.executed[p] in w.executed && !Preceded(w, n, w.executed[p]);
      } else {
        assert !Preceded(w, w.executed[q], w.executed[p]);
      }
    }
    forall e, m | e in v.executed && m in v.f.pending ensures !Preceded(v, m, e) {
      assert !Preceded(w, m, e);
    }
  }

  lemma ShorterListing(w: World, v: World, todo: seq<Name>)
    requires ListedInOrder(w, todo) && todo != [] && v.accepted == w.accepted
    requires forall m :: m in v.f.pending ==> m in w.f.pending && m != todo[0]
    ensures ListedInOrder(v, todo[1..])
  {
    forall m, i | m in v.f.pending && 0 <= i < |todo| - 1 && Preceded(v, m, todo[1..][i]) ensures m in todo[1..][..i] {
      assert Preceded(w, m, todo[i + 1]);
      assert todo[..i + 1] == [todo[0]] + todo[1..][..i];
    }
  }

  lemma HeadIsNext(w: World, v: World, todo: seq<Name>)
    requires Safe(w) && Ordered(w) && ListedInOrder(w, todo) && todo != [] && todo[0] in w.f.pending
    requires v.accepted == w.accepted && v.executed == w.executed
    requires forall m :: m in v.f.pending ==> m in w.f.pending
    ensures NextInLine(v, todo[0])
  {
    assert todo[..0] == [];
    forall m | m in v.f.pending ensures !Preceded(v, m, todo[0]) {
      assert !Preceded(w, m, todo[0]);
    }
    forall e | e in v.executed ensures !Preceded(v, todo[0], e) {
      assert !Preceded(w, todo[0], e);
    }
  }

  lemma StepOrdered(w: World, e: Event)
    requires Safe(w) && StampsAgree(w) && Ordered(w) && Enabled(w, e) && Later(w, e)
    ensures Ordered(Step(w, e))
  {
    match e
    case Handle(_, _) => ListenerOrdered(w, e);
    case Arrive(_, _, _) => ListenerOrdered(w, e);
    case Die(_) => ListenerOrdered(w, e);
    case ListenerCrash => ListenerOrdered(w, e);
    case StartDrain(todo, limit) =>
      ListingOrdered(w, todo, limit);
      SameOrderElsewhere(w, Step(w, e), todo);
    case StartSweep(listing) => SameOrderElsewhere(w, Step(w, e), []);
    case SupervisorCrash => SameOrderElsewhere(w, Step(w, e), []);
    case Advance(now, readable, succeeded, staleAfter) =>
      if w.sup.Draining? {
        DrainOrdered(w, w.sup.todo, w.sup.at, now, readable, succeeded);
      } else {
        SweepOrdered(w, w.sup.todo, w.sup.at, now, staleAfter);
      }
  }

  lemma SameOrderElsewhere(w: World, v: World, todo: seq<Name>)
    requires NoneOvertaken(w) && ListedInOrder(w, todo)
    requires v.accepted == w.accepted && v.executed == w.executed && v.f.pending == w.f.pending
    requires v.sup.Draining? ==> v.sup == Draining(todo, Next)
    ensures Ordered(v)
  {
    SameListing(w, v, todo);
  }

  lemma SweepOrdered(w: World, todo: seq<Name>, at: Phase, now: nat, staleAfter: nat)
    requires Ordered(w) && w.sup == Sweeping(todo, at)
    ensures Ordered(AdvanceSweep(w, todo, at, now, staleAfter))
  {
    var v := AdvanceSweep(w, todo, at, now, staleAfter);
    assert v.accepted == w.accepted && v.executed == w.executed && v.f.pending == w.f.pending && !v.sup.Draining?;
  }

  ghost predicate Increasing(w: World, events: seq<Event>)
    decreases |events|
  {
    events == [] || (Later(w, events[0]) && Increasing(Step(w, events[0]), events[1..]))
  }

  lemma {:induction false} RunOrdered(w: World, events: seq<Event>)
    requires Safe(w) && StampsAgree(w) && Ordered(w) && Possible(w, events) && Increasing(w, events)
    ensures Safe(Run(w, events)) && Ordered(Run(w, events))
    decreases |events|
  {
    if events != [] {
      StepSafe(w, events[0]);
      StepStamps(w, events[0]);
      StepOrdered(w, events[0]);
      RunOrdered(Step(w, events[0]), events[1..]);
    }
  }

  // Across threads, drains, limits, sweeps and crashes, with strictly increasing arrival stamps: an event that was
  // written before another one arrived is never executed after it.
  lemma ExecutedInArrivalOrder(events: seq<Event>, p: nat, q: nat, i: nat, j: nat)
    requires Possible(START, events) && Increasing(START, events)
    requires var w := Run(START, events);
             p < q < |w.executed| && i < |w.accepted| && j < |w.accepted|
             && w.executed[p] == w.accepted[i].name && w.executed[q] == w.accepted[j].name
    ensures !(j < Run(START, events).accepted[i].since)
  {
    RunOrdered(START, events);
    var w := Run(START, events);
    assert !Preceded(w, w.executed[q], w.executed[p]);
  }

  // --- one thread at a time ---

  // The only thread arrived after everything that is written.
  predicate Last(w: World, h: Handler) {
    match h
    case Arrived(_, _, since) => since == |w.accepted|
    case Unseen(_, _, since, _) => since == |w.accepted|
    case Roomy(_, _, since, _) => since == |w.accepted|
    case _ => true
  }

  ghost predicate Solo(w: World) {
    && (forall t :: t in w.handlers ==> w.handlers.Keys == {t} && Last(w, w.handlers[t]))
    && (forall i :: 0 <= i < |w.accepted| ==> w.accepted[i].since == i)
  }

  lemma StepSolo(w: World, e: Event)
    requires Solo(w) && Enabled(w, e) && Alone(w, e)
    ensures Solo(Step(w, e))
  {
    var v := Step(w, e);
    OnlyGrows(w, e);
    ThreadsKeepStamps(w, e);
    match e
    case Handle(t, maxPending) =>
      assert w.handlers.Keys == {t} && Last(w, w.handlers[t]);
      HandlerGrows(w, t, maxPending);
      OnlyThisThread(w, t, maxPending);
    case Advance(_, _, _, _) => SupervisorLeavesThreads(w, e);
    case _ =>
  }

  lemma OnlyThisThread(w: World, t: nat, maxPending: int)
    requires w.handlers.Keys == {t} && Last(w, w.handlers[t])
    ensures var v := AdvanceHandler(w, t, maxPending);
            forall u :: u in v.handlers ==> v.handlers.Keys == {u} && Last(v, v.handlers[u])
  {
    var v := AdvanceHandler(w, t, maxPending);
    forall u | u in v.handlers ensures v.handlers.Keys == {u} && Last(v, v.handlers[u]) {
      assert v.handlers.Keys <= {t};
    }
  }

  lemma {:induction false} RunSolo(w: World, events: seq<Event>)
    requires Solo(w) && Possible(w, events) && AllAlone(w, events)
    ensures Solo(Run(w, events))
    decreases |events|
  {
    if events != [] {
      StepSolo(w, events[0]);
      RunSolo(Step(w, events[0]), events[1..]);
    }
  }

  // With one request at a time, events are executed exactly in the order they were accepted.
  lemma OneAtATimeInOrder(events: seq<Event>, p: nat, q: nat, i: nat, j: nat)
    requires Possible(START, events) && Increasing(START, events) && AllAlone(START, events)
    requires var w := Run(START, events);
             p < q < |w.executed| && i < |w.accepted| && j < |w.accepted|
             && w.executed[p] == w.accepted[i].name && w.executed[q] == w.accepted[j].name
    ensures i < j
  {
    RunSolo(START, events);
    ExecutedInArrivalOrder(events, p, q, i, j);
    RunSafe(START, events);
  }
}
