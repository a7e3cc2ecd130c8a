// Where the inbox's guarantees end: short runs with overlapping requests, and one with a crash.
module EventQueueRaces {
  import opened Text
  import opened EventQueue
  import opened EventQueueCrashes

  function Pending(time: nat, key: Option<string>): Record {
    Record(key, time, None, false)
  }

  // Two requests have arrived at an empty inbox.
  function Both(a: Option<string>, b: Option<string>): World {
    START.(clock := 1, handlers := map[0 := Arrived(a, 0, 0), 1 := Arrived(b, 1, 0)])
  }

  lemma BothArrive(a: Option<string>, b: Option<string>)
    ensures Possible(START, [Arrive(0, a, 0), Arrive(1, b, 1)]) && Run(START, [Arrive(0, a, 0), Arrive(1, b, 1)]) == Both(a, b)
  {
    var w1 := Step(START, Arrive(0, a, 0));
    assert Step(w1, Arrive(1, b, 1)).handlers == Both(a, b).handlers;
    RunOne(w1, Arrive(1, b, 1), []);
    RunOne(START, Arrive(0, a, 0), [Arrive(1, b, 1)] + []);
    assert [Arrive(0, a, 0), Arrive(1, b, 1)] == [Arrive(0, a, 0)] + ([Arrive(1, b, 1)] + []);
  }

  // Each thread takes its next step.
  function Each(): seq<Event> {
    [Handle(0, 1), Handle(1, 1)]
  }

  lemma EachSteps(w: World)
    requires 0 in w.handlers && 1 in w.handlers && 1 in Step(w, Handle(0, 1)).handlers
    ensures Run(w, Each()) == Step(Step(w, Handle(0, 1)), Handle(1, 1)) && Possible(w, Each())
  {
    var w1 := Step(w, Handle(0, 1));
    RunOne(w1, Handle(1, 1), []);
    RunOne(w, Handle(0, 1), [Handle(1, 1)] + []);
    assert Each() == [Handle(0, 1)] + ([Handle(1, 1)] + []);
  }

  // Both pass both checks, under a limit of one.
  lemma BothPass(a: Option<string>, b: Option<string>)
    ensures Run(Run(Both(a, b), Each()), Each())
            == Both(a, b).(handlers := map[0 := Roomy(a, 0, 0, 0), 1 := Roomy(b, 1, 0, 0)])
    ensures Possible(Both(a, b), Each()) && Possible(Run(Both(a, b), Each()), Each())
  {
    var w := Both(a, b);
    EachSteps(w);
    var v := Run(w, Each());
    assert v.handlers == map[0 := Unseen(a, 0, 0, 0), 1 := Unseen(b, 1, 0, 0)] && v == w.(handlers := v.handlers);
    EachSteps(v);
    assert Run(v, Each()).handlers == map[0 := Roomy(a, 0, 0, 0), 1 := Roomy(b, 1, 0, 0)];
  }

  lemma BothPassTheChecks(a: Option<string>, b: Option<string>)
    ensures Possible(START, Checks(a, b))
    ensures Run(START, Checks(a, b)) == Both(a, b).(handlers := map[0 := Roomy(a, 0, 0, 0), 1 := Roomy(b, 1, 0, 0)])
  {
    BothArrive(a, b);
    BothPass(a, b);
    RunSplits(START, [Arrive(0, a, 0), Arrive(1, b, 1)], Each());
    RunSplits(START, [Arrive(0, a, 0), Arrive(1, b, 1)] + Each(), Each());
  }

  lemma {:induction false} RunSplits(w: World, a: seq<Event>, b: seq<Event>)
    ensures Run(w, a + b) == Run(Run(w, a), b)
    ensures Possible(w, a) && Possible(Run(w, a), b) ==> Possible(w, a + b)
    decreases |a|
  {
    if a == [] {
      assert a + b == b;
    } else {
      assert (a + b)[1..] == a[1..] + b;
      RunSplits(Step(w, a[0]), a[1..], b);
    }
  }

  function Checks(a: Option<string>, b: Option<string>): seq<Event> {
    [Arrive(0, a, 0), Arrive(1, b, 1)] + Each() + Each()
  }

  lemma BothWrite(a: string, b: string)
    requires a != "" && b != ""
    ensures var w := Run(START, Checks(Some(a), Some(b)) + Each());
            && Possible(START, Checks(Some(a), Some(b)) + Each())
            && w.f == Files(map[Name(0, 0) := Pending(0, Some(a)), Name(1, 1) := Pending(1, Some(b))], map[], map[], map[])
            && w.handlers == map[0 := Written(a, 0, 0), 1 := Written(b, 1, 1)] && w.stores == [] && w.clock == 1
            && w.accepted == [Acceptance(Name(0, 0), Some(a), 0, 0, None), Acceptance(Name(1, 1), Some(b), 0, 0, None)]
  {
    var w0 := Run(START, Checks(Some(a), Some(b)));
    BothPassTheChecks(Some(a), Some(b));
    var w1 := Step(w0, Handle(0, 1));
    assert w1.handlers == map[0 := Written(a, 0, 0), 1 := Roomy(Some(b), 1, 0, 0)];
    assert w1.f.pending == map[Name(0, 0) := Pending(0, Some(a))];
    assert w1.accepted == [Acceptance(Name(0, 0), Some(a), 0, 0, None)];
    var w2 := Step(w1, Handle(1, 1));
    assert w2.f.pending == map[Name(0, 0) := Pending(0, Some(a)), Name(1, 1) := Pending(1, Some(b))];
    EachSteps(w0);
    RunSplits(START, Checks(Some(a), Some(b)), Each());
  }

  // With no crash at all, two deliveries of one key one tick apart are both accepted; and under a limit of one, two
  // events are pending.
  lemma TwoAtOncePassTheGuards()
    ensures var events := Checks(Some("k"), Some("k")) + Each();
            var w := Run(START, events);
            && Possible(START, events)
            && |w.accepted| == 2 && w.accepted[0].key == w.accepted[1].key == Some("k")
            && w.accepted[1].name.stamp == w.accepted[0].name.stamp + 1
            && |w.f.pending| == 2
  {
    BothWrite("k", "k");
    var p := Run(START, Checks(Some("k"), Some("k")) + Each()).f.pending;
    assert p.Keys == {Name(0, 0), Name(1, 1)};
    assert |p| == |p.Keys|;
  }

  // Two overlapping stores: the first key is remembered, and forgotten when the second thread stores what it had read.
  lemma OverlapLosesAKey()
    ensures var events := Checks(Some("a"), Some("b")) + Each() + Each() + Each();
            var w := Run(START, events);
            && Possible(START, events) && |w.accepted| == 2
            && w.accepted[0].key == Some("a") && w.accepted[0].stored == Some(1)
            && "a" !in w.f.seen && "b" in w.f.seen
  {
    var events := Checks(Some("a"), Some("b")) + Each();
    BothWrite("a", "b");
    var w0 := Run(START, events);
    EachSteps(w0);
    var w2 := Run(w0, Each());
    assert w2.handlers == map[0 := Loaded("a", 0, 0, 0, map[]), 1 := Loaded("b", 1, 1, 0, map[])];
    EachSteps(w2);
    RunSplits(START, events, Each());
    RunSplits(START, events + Each(), Each());
  }

  // One request, accepted: its event is on disk, its key not yet remembered.
  function Accepting(t: nat, now: nat): seq<Event> {
    [Arrive(t, Some("k"), now), Handle(t, 500), Handle(t, 500), Handle(t, 500)]
  }

  lemma Accepted(w: World, t: nat, now: nat)
    requires t !in w.handlers && now >= w.clock && "k" !in w.f.seen && |w.f.pending| < 500
    ensures var v := Run(w, Accepting(t, now));
            && Possible(w, Accepting(t, now))
            && v.accepted == w.accepted + [Acceptance(Name(now, |w.accepted|), Some("k"), |w.accepted|, |w.stores|, None)]
            && v.f == WritePending(w.f, Name(now, |w.accepted|), Pending(now, Some("k")))
            && v.handlers == w.handlers[t := Written("k", now, |w.accepted|)] && v.clock == now
  {
    var k := Some("k");
    var w1 := Step(w, Arrive(t, k, now));
    var w2 := Step(w1, Handle(t, 500));
    assert w2.handlers == w.handlers[t := Unseen(k, now, |w.accepted|, |w.stores|)];
    var w3 := Step(w2, Handle(t, 500));
    assert w3.handlers == w.handlers[t := Roomy(k, now, |w.accepted|, |w.stores|)];
    var w4 := Step(w3, Handle(t, 500));
    assert w4.handlers == w.handlers[t := Written("k", now, |w.accepted|)];
    RunOne(w3, Handle(t, 500), []);
    RunOne(w2, Handle(t, 500), [Handle(t, 500)] + []);
    RunOne(w1, Handle(t, 500), [Handle(t, 500)] + ([Handle(t, 500)] + []));
    RunOne(w, Arrive(t, k, now), [Handle(t, 500)] + ([Handle(t, 500)] + ([Handle(t, 500)] + [])));
    assert Accepting(t, now) == [Arrive(t, k, now)] + ([Handle(t, 500)] + ([Handle(t, 500)] + ([Handle(t, 500)] + [])));
  }

  // A crash right after the write forgets the key: a retry one tick later is accepted a second time.
  lemma CrashForgetsTheKey()
    ensures var events := Accepting(0, 0) + [ListenerCrash] + Accepting(0, 1);
            var w := Run(START, events);
            && Possible(START, events) && |w.accepted| == 2 && w.accepted[0].key == w.accepted[1].key == Some("k")
            && w.accepted[1].name.stamp == w.accepted[0].name.stamp + 1
  {
    var w1 := Run(START, Accepting(0, 0));
    Accepted(START, 0, 0);
    assert |w1.f.pending| == 1 by {
      assert w1.f.pending == map[Name(0, 0) := Pending(0, Some("k"))];
    }
    var w2 := Step(w1, ListenerCrash);
    RunOne(w1, ListenerCrash, []);
    assert [ListenerCrash] == [ListenerCrash] + [];
    RunSplits(START, Accepting(0, 0), [ListenerCrash]);
    Accepted(w2, 0, 1);
    RunSplits(START, Accepting(0, 0) + [ListenerCrash], Accepting(0, 1));
  }

  // One drain of the only pending event: claimed and yielded, then completed.
  function Claiming(n: Name): seq<Event> {
    [StartDrain([n], 9), Advance(9, true, true, 0), Advance(9, true, true, 0), Advance(9, true, true, 0)]
  }

  function Completing(): seq<Event> {
    [Advance(9, true, true, 0), Advance(9, true, true, 0)]
  }

  lemma OnlyPendingIsFirst(f: Files, n: Name, r: Record)
    requires f.pending == map[n := r]
    ensures FirstPending(f, [n], 9)
  {
  }

  lemma Claimed(w: World, n: Name, r: Record)
    requires w.sup == Idle && w.f.pending == map[n := r]
    ensures var v := Run(w, Claiming(n));
            && Possible(w, Claiming(n)) && v.sup == Draining([], Running(n))
            && v.f.pending == map[] && v.f.processing.Keys == w.f.processing.Keys + {n}
            && v == w.(f := v.f, sup := v.sup, executed := w.executed + [n])
            && v.f.seen == w.f.seen
  {
    var go := Advance(9, true, true, 0);
    OnlyPendingIsFirst(w.f, n, r);
    var w1 := Step(w, StartDrain([n], 9));
    var w2 := Step(w1, go);
    assert [n][1..] == [] && w2.sup == Draining([], Renamed(n)) && w2.f.pending == map[];
    var w3 := Step(w2, go);
    assert w3.sup == Draining([], Stamped(n));
    RunOne(w3, go, []);
    RunOne(w2, go, [go] + []);
    RunOne(w1, go, [go] + ([go] + []));
    RunOne(w, StartDrain([n], 9), [go] + ([go] + ([go] + [])));
    assert Claiming(n) == [StartDrain([n], 9)] + ([go] + ([go] + ([go] + [])));
  }

  lemma Completed(w: World, n: Name)
    requires w.sup == Draining([], Running(n))
    ensures var v := Run(w, Completing());
            && Possible(w, Completing())
            && v == w.(f := Unlink(w.f, n), sup := Idle, completed := w.completed + {n})
  {
    var go := Advance(9, true, true, 0);
    var w1 := Step(w, go);
    RunOne(w1, go, []);
    RunOne(w, go, [go] + []);
    assert Completing() == [go] + ([go] + []);
  }

  function Draining1(n: Name): seq<Event> {
    Claiming(n) + Completing()
  }

  lemma Drained(w: World, n: Name, r: Record)
    requires w.sup == Idle && w.f.pending == map[n := r] && w.f.processing == map[]
    ensures var v := Run(w, Draining1(n));
            && Possible(w, Draining1(n)) && v.sup == Idle && v.f.pending == map[] && v.f.processing == map[]
            && v.executed == w.executed + [n] && v.handlers == w.handlers && v.accepted == w.accepted
            && v.clock == w.clock && v.f.seen == w.f.seen && v.stores == w.stores
  {
    Claimed(w, n, r);
    Completed(Run(w, Claiming(n)), n);
    RunSplits(w, Claiming(n), Completing());
    assert Unlink(Run(w, Claiming(n)).f, n).processing.Keys == {};
  }

  // The rest of a request without a key.
  function Finishing(t: nat): seq<Event> {
    [Handle(t, 500), Handle(t, 500), Handle(t, 500)]
  }

  lemma Finished(w: World, t: nat, now: nat, since: nat)
    requires t in w.handlers && w.handlers[t] == Arrived(None, now, since) && w.f.pending == map[]
    ensures var v := Run(w, Finishing(t));
            && Possible(w, Finishing(t)) && v.sup == w.sup && v.executed == w.executed
            && v.f == w.f.(pending := map[Name(now, |w.accepted|) := Pending(now, None)])
            && v.handlers == w.handlers - {t} && v.clock == w.clock && v.stores == w.stores
            && v.accepted == w.accepted + [Acceptance(Name(now, |w.accepted|), None, since, |w.stores|, None)]
  {
    var go := Handle(t, 500);
    var w1 := Step(w, go);
    var w2 := Step(w1, go);
    var w3 := Step(w2, go);
    assert w3.handlers == w.handlers - {t};
    RunOne(w2, go, []);
    RunOne(w1, go, [go] + []);
    RunOne(w, go, [go] + ([go] + []));
    assert Finishing(t) == [go] + ([go] + ([go] + []));
  }

  // Two overlapping requests: the one that arrived first writes last, and is executed after the other.
  lemma LateWriterIsOvertaken()
    ensures var events := [Arrive(0, None, 1), Arrive(1, None, 2)] + Finishing(1) + Draining1(Name(2, 0))
                          + Finishing(0) + Draining1(Name(1, 1));
            Possible(START, events) && Run(START, events).executed == [Name(2, 0), Name(1, 1)]
  {
    var a, b := Arrive(0, None, 1), Arrive(1, None, 2);
    var w1 := Step(START, a);
    var w2 := Step(w1, b);
    assert w2.handlers == map[0 := Arrived(None, 1, 0), 1 := Arrived(None, 2, 0)];
    RunOne(w1, b, []);
    RunOne(START, a, [b] + []);
    assert [a, b] == [a] + ([b] + []);
    Finished(w2, 1, 2, 0);
    RunSplits(START, [a, b], Finishing(1));
    var w3 := Run(w2, Finishing(1));
    Drained(w3, Name(2, 0), Pending(2, None));
    RunSplits(START, [a, b] + Finishing(1), Draining1(Name(2, 0)));
    var w4 := Run(w3, Draining1(Name(2, 0)));
    Finished(w4, 0, 1, 0);
    RunSplits(START, [a, b] + Finishing(1) + Draining1(Name(2, 0)), Finishing(0));
    var w5 := Run(w4, Finishing(0));
    Drained(w5, Name(1, 1), Pending(1, None));
    RunSplits(START, [a, b] + Finishing(1) + Draining1(Name(2, 0)) + Finishing(0), Draining1(Name(1, 1)));
  }
}
