// When a repeated delivery is recognised: the memory of keys, rewritten by threads that may overlap.
module EventQueueDedup {
  import opened Text
  import opened EventQueue
  import opened EventQueueCrashes

  // --- the memory is what one chain of stores made it ---

  // What the first n stores left: each store builds on the memory that its own thread had read.
  function MemAt(stores: seq<Stored>, n: nat): map<string, nat>
    requires n <= |stores|
  {
    if n == 0 then map[]
    else
      var x := stores[n - 1];
      Pruned(if x.base < n then MemAt(stores, x.base) else map[], x.time)[x.key := x.time]
  }

  // From the n-th store back along what each had read, the m-th is met with its key still in the memory: no store on the
  // way wrote that key, and none was more than the window younger.
  predicate Survives(stores: seq<Stored>, n: nat, m: nat)
    requires 0 < m <= |stores| && n <= |stores|
    decreases n
  {
    n == m
    || (m < n
        && var x := stores[n - 1];
           x.base < n && x.key != stores[m - 1].key && x.time <= stores[m - 1].time + DEDUP_RETENTION
           && Survives(stores, x.base, m))
  }

  ghost predicate Remembers(stores: seq<Stored>, n: nat, key: string)
    requires n <= |stores|
  {
    exists m :: 0 < m <= n && stores[m - 1].key == key && Survives(stores, n, m)
  }

  // A key is in the memory if and only if some store of it survives.
  lemma {:induction false} InMemoryExactly(stores: seq<Stored>, n: nat, key: string)
    requires n <= |stores| && forall i :: 0 <= i < |stores| ==> stores[i].base <= i
    ensures key in MemAt(stores, n) <==> Remembers(stores, n, key)
    ensures forall m :: 0 < m <= n && stores[m - 1].key == key && Survives(stores, n, m) ==>
              key in MemAt(stores, n) && MemAt(stores, n)[key] == stores[m - 1].time
    decreases n
  {
    if n > 0 {
      var x := stores[n - 1];
      InMemoryExactly(stores, x.base, key);
      forall m | 0 < m <= n && stores[m - 1].key == key && Survives(stores, n, m)
        ensures key in MemAt(stores, n) && MemAt(stores, n)[key] == stores[m - 1].time
      {
        if m != n {
          SurvivesBelow(stores, x.base, m);
        }
      }
      if x.key == key {
        assert Survives(stores, n, n);
      } else if key in MemAt(stores, n) {
        var m :| 0 < m <= x.base && stores[m - 1].key == key && Survives(stores, x.base, m);
        assert Survives(stores, n, m);
      }
    }
  }

  lemma SurvivesBelow(stores: seq<Stored>, n: nat, m: nat)
    requires 0 < m <= |stores| && n <= |stores| && Survives(stores, n, m)
    ensures m <= n
  {
  }

  lemma {:induction false} MemStays(stores: seq<Stored>, x: Stored, n: nat)
    requires n <= |stores|
    ensures MemAt(stores + [x], n) == MemAt(stores, n)
    decreases n
  {
    if n > 0 {
      assert (stores + [x])[n - 1] == stores[n - 1];
      if stores[n - 1].base < n {
        MemStays(stores, x, stores[n - 1].base);
      }
    }
  }

  // --- what every step keeps ---

  predicate Checked(stores: seq<Stored>, key: Option<string>, at: nat) {
    at <= |stores| && (Keyed(key) ==> key.value !in MemAt(stores, at))
  }

  predicate HandlerAgrees(w: World, h: Handler) {
    match h
    case Arrived(key, now, since) => now <= w.clock
    case Unseen(key, now, since, at) => Checked(w.stores, key, at) && now <= w.clock
    case Roomy(key, now, since, at) => Checked(w.stores, key, at) && now <= w.clock
    case Written(name, now, index) =>
      index < |w.accepted| && w.accepted[index].key == Some(name) && w.accepted[index].name.stamp == now
    case Loaded(name, now, index, base, loaded) =>
      && index < |w.accepted| && w.accepted[index].key == Some(name) && w.accepted[index].name.stamp == now
      && base <= |w.stores| && loaded == MemAt(w.stores, base)
  }

  // Its key had no surviving store when it was checked; the store it names is of its key and its stamp.
  predicate AcceptanceAgrees(w: World, a: Acceptance) {
    && Checked(w.stores, a.key, a.at) && a.name.stamp <= w.clock
    && (a.stored.Some? ==>
          0 < a.stored.value <= |w.stores|
          && w.stores[a.stored.value - 1].time == a.name.stamp
          && a.key == Some(w.stores[a.stored.value - 1].key))
  }

  ghost predicate Agrees(w: World) {
    && (forall i :: 0 <= i < |w.stores| ==> w.stores[i].base <= i)
    && w.f.seen == MemAt(w.stores, |w.stores|)
    && (forall t :: t in w.handlers ==> HandlerAgrees(w, w.handlers[t]))
    && (forall i :: 0 <= i < |w.accepted| ==> AcceptanceAgrees(w, w.accepted[i]))
  }

  lemma StepAgrees(w: World, e: Event)
    requires Agrees(w) && Enabled(w, e)
    ensures Agrees(Step(w, e))
  {
    match e
    case Handle(t, maxPending) => HandlerStepAgrees(w, t, maxPending);
    case _ =>
      OthersLeaveTheMemory(w, e);
      SameMemory(w, Step(w, e));
  }

  lemma OthersLeaveTheMemory(w: World, e: Event)
    requires !e.Handle? && Enabled(w, e)
    ensures var v := Step(w, e);
            && v.stores == w.stores && v.f.seen == w.f.seen && v.accepted == w.accepted && v.clock >= w.clock
            && (!e.Arrive? ==> v.clock == w.clock)
            && forall t :: t in v.handlers ==>
                 (t in w.handlers && v.handlers[t] == w.handlers[t])
                 || (e.Arrive? && t == e.t && v.handlers[t] == Arrived(e.key, e.now, |w.accepted|) && v.clock == e.now)
  {
    if e.Advance? && w.sup.Draining? {
      DrainLeavesTheMemory(w, w.sup.todo, w.sup.at, e.now, e.readable, e.succeeded);
    }
  }

  lemma DrainLeavesTheMemory(w: World, todo: seq<Name>, at: Phase, now: nat, readable: bool, succeeded: bool)
    ensures var v := AdvanceDrain(w, todo, at, now, readable, succeeded);
            && v.stores == w.stores && v.f.seen == w.f.seen && v.accepted == w.accepted && v.clock == w.clock
            && v.handlers == w.handlers
  {
  }

  // Steps that leave the history alone and drop or start threads only.
  lemma SameMemory(w: World, v: World)
    requires Agrees(w) && v.stores == w.stores && v.f.seen == w.f.seen && v.accepted == w.accepted && v.clock >= w.clock
    requires forall t :: t in v.handlers ==>
               (t in w.handlers && v.handlers[t] == w.handlers[t]) || (v.handlers[t].Arrived? && v.handlers[t].now <= v.clock)
    ensures Agrees(v)
  {
    forall t | t in v.handlers ensures HandlerAgrees(v, v.handlers[t]) {
      if t in w.handlers {
        assert HandlerAgrees(w, w.handlers[t]);
      }
    }
    forall i | 0 <= i < |v.accepted| ensures AcceptanceAgrees(v, v.accepted[i]) {
      assert AcceptanceAgrees(w, w.accepted[i]);
    }
  }

  lemma HandlerStepAgrees(w: World, t: nat, maxPending: int)
    requires Agrees(w) && t in w.handlers
    ensures Agrees(AdvanceHandler(w, t, maxPending))
  {
    assert HandlerAgrees(w, w.handlers[t]);
    match w.handlers[t]
    case Roomy(key, now, since, at) => WriteAgrees(w, t, key, now, since, at);
    case Loaded(name, now, index, base, loaded) => StoreAgrees(w, t, maxPending);
    case _ => OtherAgrees(w, t, maxPending);
  }

  lemma OtherAgrees(w: World, t: nat, maxPending: int)
    requires Agrees(w) && t in w.handlers && !w.handlers[t].Roomy? && !w.handlers[t].Loaded?
    ensures Agrees(AdvanceHandler(w, t, maxPending))
  {
    var v := AdvanceHandler(w, t, maxPending);
    assert HandlerAgrees(w, w.handlers[t]);
    forall u | u in v.handlers ensures HandlerAgrees(v, v.handlers[u]) {
      if u != t {
        assert HandlerAgrees(w, w.handlers[u]);
      }
    }
    forall i | 0 <= i < |v.accepted| ensures AcceptanceAgrees(v, v.accepted[i]) {
      assert AcceptanceAgrees(w, w.accepted[i]);
    }
  }

  lemma WriteAgrees(w: World, t: nat, key: Option<string>, now: nat, since: nat, at: nat)
    requires Agrees(w) && Checked(w.stores, key, at) && now <= w.clock
    ensures Agrees(WriteNext(w, t, key, now, since, at))
  {
    var v := WriteNext(w, t, key, now, since, at);
    forall u | u in v.handlers ensures HandlerAgrees(v, v.handlers[u]) {
      if u in w.handlers {
        assert HandlerAgrees(w, w.handlers[u]);
      }
    }
    forall i | 0 <= i < |v.accepted| ensures AcceptanceAgrees(v, v.accepted[i]) {
      if i < |w.accepted| {
        assert v.accepted[i] == w.accepted[i] && AcceptanceAgrees(w, w.accepted[i]);
      }
    }
  }

  lemma StoreAgrees(w: World, t: nat, maxPending: int)
    requires Agrees(w) && t in w.handlers && w.handlers[t].Loaded?
    ensures Agrees(AdvanceHandler(w, t, maxPending))
  {
    var v := AdvanceHandler(w, t, maxPending);
    var h := w.handlers[t];
    var x := Stored(h.name, h.now, h.base);
    var k := |w.stores|;
    assert HandlerAgrees(w, h);
    assert v.stores == w.stores + [x];
    MemStays(w.stores, x, h.base);
    assert v.f.seen == MemAt(v.stores, k + 1);
    forall u | u in v.handlers ensures HandlerAgrees(v, v.handlers[u]) {
      assert HandlerAgrees(w, w.handlers[u]);
      HandlerStays(w, v, x, w.handlers[u]);
    }
    forall i | 0 <= i < |v.accepted| ensures AcceptanceAgrees(v, v.accepted[i]) {
      assert AcceptanceAgrees(w, w.accepted[i]);
      MemStays(w.stores, x, w.accepted[i].at);
    }
  }

  lemma HandlerStays(w: World, v: World, x: Stored, h: Handler)
    requires HandlerAgrees(w, h) && v.stores == w.stores + [x] && v.clock == w.clock && |v.accepted| == |w.accepted|
    requires forall i :: 0 <= i < |w.accepted| ==>
               v.accepted[i].key == w.accepted[i].key && v.accepted[i].name == w.accepted[i].name
    ensures HandlerAgrees(v, h)
  {
    match h
    case Unseen(_, _, _, at) => MemStays(w.stores, x, at);
    case Roomy(_, _, _, at) => MemStays(w.stores, x, at);
    case Loaded(_, _, _, base, _) => MemStays(w.stores, x, base);
    case _ =>
  }

  lemma {:induction false} RunAgrees(w: World, events: seq<Event>)
    requires Agrees(w) && Possible(w, events)
    ensures Agrees(Run(w, events))
    decreases |events|
  {
    if events != [] {
      StepAgrees(w, events[0]);
      RunAgrees(Step(w, events[0]), events[1..]);
    }
  }

  // A delivery is refused as a duplicate if and only if its key was stored by an enqueue that the present memory was
  // built on, and no store since then, on that chain, was more than 48 hours younger.
  lemma DuplicateExactly(events: seq<Event>, key: string)
    requires Possible(START, events) && key != ""
    ensures var w := Run(START, events); Delivered(w.f, Some(key)) <==> Remembers(w.stores, |w.stores|, key)
  {
    RunAgrees(START, events);
    var w := Run(START, events);
    InMemoryExactly(w.stores, |w.stores|, key);
  }

  // --- spacing ---

  // Back along what each had read, the m-th store is met, and every store on the way is of an enqueue that started after
  // the m-th one's and no later than `limit`.
  predicate Quiet(stores: seq<Stored>, n: nat, m: nat, limit: nat)
    requires 0 < m <= |stores| && n <= |stores|
    decreases n
  {
    n == m
    || (m < n
        && var x := stores[n - 1];
           x.base < n && stores[m - 1].time <= x.time <= limit && Quiet(stores, x.base, m, limit))
  }

  lemma {:induction false} QuietKeepsTheKey(stores: seq<Stored>, n: nat, m: nat, limit: nat)
    requires 0 < m <= |stores| && n <= |stores| && Quiet(stores, n, m, limit)
    requires limit <= stores[m - 1].time + DEDUP_RETENTION
    ensures stores[m - 1].key in MemAt(stores, n) && MemAt(stores, n)[stores[m - 1].key] >= stores[m - 1].time
    decreases n
  {
    if n != m {
      QuietKeepsTheKey(stores, stores[n - 1].base, m, limit);
    }
  }

  // However threads interleave and crash: once an event's key was stored, an event of the same key that is accepted is
  // more than 48 hours younger, unless an overlapping enqueue disturbed the memory between that store and its check.
  lemma SameKeyIsApart(events: seq<Event>, i: nat, j: nat)
    requires Possible(START, events)
    requires var w := Run(START, events);
             && i < |w.accepted| && j < |w.accepted|
             && w.accepted[i].stored.Some? && Keyed(w.accepted[i].key) && w.accepted[j].key == w.accepted[i].key
             && 0 < w.accepted[i].stored.value <= |w.stores| && w.accepted[j].at <= |w.stores|
             && Quiet(w.stores, w.accepted[j].at, w.accepted[i].stored.value, w.accepted[j].name.stamp)
    ensures Run(START, events).accepted[j].name.stamp > Run(START, events).accepted[i].name.stamp + DEDUP_RETENTION
  {
    RunAgrees(START, events);
    var w := Run(START, events);
    var a, b := w.accepted[i], w.accepted[j];
    assert AcceptanceAgrees(w, a) && AcceptanceAgrees(w, b);
    if b.name.stamp <= a.name.stamp + DEDUP_RETENTION {
      QuietKeepsTheKey(w.stores, b.at, a.stored.value, b.name.stamp);
    }
  }

  // Nothing overlaps: whoever stored after the m-th store had read after it and started after it, and whoever stored
  // before the check had started before the checking enqueue.
  predicate NoOverlap(stores: seq<Stored>, n: nat, m: nat, limit: nat) {
    && 0 < m <= n <= |stores|
    && forall i :: m <= i < n ==> m <= stores[i].base <= i && stores[m - 1].time <= stores[i].time <= limit
  }

  lemma {:induction false} NoOverlapIsQuiet(stores: seq<Stored>, n: nat, m: nat, limit: nat)
    requires NoOverlap(stores, n, m, limit)
    ensures Quiet(stores, n, m, limit)
    decreases n
  {
    if n != m {
      assert m <= n - 1 < n;
      NoOverlapIsQuiet(stores, stores[n - 1].base, m, limit);
    }
  }

  // --- one thread at a time ---

  // How far the only thread has come agrees with the history.
  predicate Newest(w: World, h: Handler) {
    match h
    case Arrived(_, now, _) => now == w.clock
    case Unseen(_, now, _, at) => now == w.clock && at == |w.stores|
    case Roomy(_, now, _, at) => now == w.clock && at == |w.stores|
    case Written(_, now, index) => now == w.clock && index == |w.accepted| - 1
    case Loaded(_, now, index, base, _) => now == w.clock && index == |w.accepted| - 1 && base == |w.stores|
  }

  ghost predicate Serial(w: World) {
    && (forall t :: t in w.handlers ==> w.handlers.Keys == {t} && Newest(w, w.handlers[t]))
    && (forall i :: 0 <= i < |w.stores| ==> w.stores[i].base == i && w.stores[i].time <= w.clock)
    && (forall i, j :: 0 <= i < j < |w.stores| ==> w.stores[i].time <= w.stores[j].time)
    && (forall j :: 0 <= j < |w.accepted| ==> w.accepted[j].at <= |w.stores|)
    && (forall j, k :: 0 <= j < |w.accepted| && 0 <= k < w.accepted[j].at ==> w.stores[k].time <= w.accepted[j].name.stamp)
    && (forall i, j :: 0 <= i < j < |w.accepted| && w.accepted[i].stored.Some? ==>
          w.accepted[i].stored.value <= w.accepted[j].at)
    && (forall i :: 0 <= i < |w.accepted| && w.accepted[i].stored.Some? ==> 0 < w.accepted[i].stored.value <= |w.stores|)
  }

  lemma StepSerial(w: World, e: Event)
    requires Serial(w) && Enabled(w, e) && Alone(w, e)
    ensures Serial(Step(w, e))
  {
    match e
    case Handle(t, maxPending) =>
      if w.handlers[t].Roomy? {
        var h := w.handlers[t];
        WriteSerial(w, t, h.key, h.now, h.since, h.at);
      } else if w.handlers[t].Loaded? {
        StoreSerial(w, t, maxPending);
      } else {
        CheckSerial(w, t, maxPending);
      }
    case _ =>
      OthersLeaveTheMemory(w, e);
      SameSerial(w, Step(w, e), e);
  }

  lemma SameSerial(w: World, v: World, e: Event)
    requires Serial(w) && v.stores == w.stores && v.accepted == w.accepted && v.clock >= w.clock
    requires !e.Arrive? ==> v.clock == w.clock && forall t :: t in v.handlers ==> t in w.handlers && v.handlers[t] == w.handlers[t]
    requires e.Arrive? ==> w.handlers == map[] && v.handlers == map[e.t := Arrived(e.key, e.now, |w.accepted|)] && v.clock == e.now
    ensures Serial(v)
  {
    forall t | t in v.handlers ensures v.handlers.Keys == {t} && Newest(v, v.handlers[t]) {
      if !e.Arrive? {
        assert w.handlers.Keys == {t} && Newest(w, w.handlers[t]);
        assert v.handlers.Keys <= w.handlers.Keys;
      }
    }
  }

  lemma CheckSerial(w: World, t: nat, maxPending: int)
    requires Serial(w) && t in w.handlers && !w.handlers[t].Roomy? && !w.handlers[t].Loaded?
    ensures Serial(AdvanceHandler(w, t, maxPending))
  {
    assert w.handlers.Keys == {t} && Newest(w, w.handlers[t]);
    var v := AdvanceHandler(w, t, maxPending);
    assert v.stores == w.stores && v.accepted == w.accepted && v.clock == w.clock;
    forall u | u in v.handlers ensures v.handlers.Keys == {u} && Newest(v, v.handlers[u]) {
      assert u == t;
    }
  }

  lemma WriteSerial(w: World, t: nat, key: Option<string>, now: nat, since: nat, at: nat)
    requires Serial(w) && t in w.handlers && w.handlers[t] == Roomy(key, now, since, at)
    ensures Serial(WriteNext(w, t, key, now, since, at))
  {
    var v := WriteNext(w, t, key, now, since, at);
    assert Newest(w, w.handlers[t]);
    assert v.accepted[..|w.accepted|] == w.accepted;
    forall j | 0 <= j < |w.accepted| ensures v.accepted[j] == w.accepted[j] {
    }
  }

  lemma StoreSerial(w: World, t: nat, maxPending: int)
    requires Serial(w) && t in w.handlers && w.handlers[t].Loaded?
    ensures Serial(AdvanceHandler(w, t, maxPending))
  {
    var v := AdvanceHandler(w, t, maxPending);
    assert Newest(w, w.handlers[t]);
    forall i | 0 <= i < |w.stores| ensures v.stores[i] == w.stores[i] {
    }
  }

  lemma {:induction false} RunSerial(w: World, events: seq<Event>)
    requires Serial(w) && Possible(w, events) && AllAlone(w, events)
    ensures Serial(Run(w, events))
    decreases |events|
  {
    if events != [] {
      StepSerial(w, events[0]);
      RunSerial(Step(w, events[0]), events[1..]);
    }
  }

  // With one request at a time nothing overlaps, crashes included: every later accepted event of a stored key is more
  // than 48 hours younger.
  lemma OneAtATimeIsApart(events: seq<Event>, i: nat, j: nat)
    requires Possible(START, events) && AllAlone(START, events)
    requires var w := Run(START, events);
             && i < j < |w.accepted| && w.accepted[i].stored.Some?
             && Keyed(w.accepted[i].key) && w.accepted[j].key == w.accepted[i].key
    ensures Run(START, events).accepted[j].name.stamp > Run(START, events).accepted[i].name.stamp + DEDUP_RETENTION
  {
    RunSerial(START, events);
    var w := Run(START, events);
    NoOverlapIsQuiet(w.stores, w.accepted[j].at, w.accepted[i].stored.value, w.accepted[j].name.stamp);
    SameKeyIsApart(events, i, j);
  }
}
