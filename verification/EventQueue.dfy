// The durable inbox for pushed events: what each file operation does, and the operations the runtime composes.
module EventQueue {
  import opened Text

  // 48 hours, in seconds.
  const DEDUP_RETENTION := 172800

  // File names sort by arrival stamp, then by the random id.
  datatype Name = Name(stamp: nat, id: nat)

  predicate Before(a: Name, b: Name) {
    a.stamp < b.stamp || (a.stamp == b.stamp && a.id < b.id)
  }

  datatype Record = Record(key: Option<string>, received: nat, claimed: Option<nat>, failed: bool)

  // The three directories, and the remembered idempotency keys with their times.
  datatype Files = Files(pending: map<Name, Record>, processing: map<Name, Record>, failed: map<Name, Record>,
                         seen: map<string, nat>)

  // --- single file operations: each is atomic, a crash falls between two of them ---

  function WritePending(f: Files, n: Name, r: Record): Files {
    f.(pending := f.pending[n := r])
  }

  // Keys older than the retention window are dropped, the new one is kept.
  function Pruned(seen: map<string, nat>, now: nat): map<string, nat> {
    map k | k in seen && seen[k] + DEDUP_RETENTION >= now :: seen[k]
  }

  // `loaded` is the memory as the same thread read it before.
  function StoreSeen(f: Files, loaded: map<string, nat>, key: string, now: nat): Files {
    f.(seen := Pruned(loaded, now)[key := now])
  }

  function RenameToProcessing(f: Files, n: Name): Files
    requires n in f.pending
  {
    f.(pending := f.pending - {n}, processing := f.processing[n := f.pending[n]])
  }

  function StampClaim(f: Files, n: Name, now: nat): Files
    requires n in f.processing
  {
    f.(processing := f.processing[n := f.processing[n].(claimed := Some(now))])
  }

  function WriteFailed(f: Files, n: Name): Files {
    var r := if n in f.processing then f.processing[n] else Record(None, 0, None, false);
    f.(failed := f.failed[n := r.(failed := true)])
  }

  function Unlink(f: Files, n: Name): Files {
    f.(processing := f.processing - {n})
  }

  // --- decisions ---

  datatype Reception = Duplicate | QueueFull | Accepted(name: Name)

  predicate Delivered(f: Files, key: Option<string>) {
    Keyed(key) && key.value in f.seen
  }

  predicate Full(f: Files, maxPending: int) {
    |f.pending| >= maxPending
  }

  // The whole of an enqueue that no other one interrupts.
  function Receive(f: Files, key: Option<string>, now: nat, maxPending: int, id: nat): Reception {
    if Delivered(f, key) then Duplicate
    else if Full(f, maxPending) then QueueFull
    else Accepted(Name(now, id))
  }

  predicate Keyed(key: Option<string>) {
    key.Some? && key.value != ""
  }

  predicate Stale(r: Record, now: nat, staleAfter: nat) {
    !(r.claimed.Some? && r.claimed.value + staleAfter >= now)
  }

  // `sorted(glob)[:limit]`: the first `limit` pending names in name order.
  ghost predicate FirstPending(f: Files, todo: seq<Name>, limit: nat) {
    && (forall i :: 0 <= i < |todo| ==> todo[i] in f.pending)
    && (forall i, j :: 0 <= i < j < |todo| ==> Before(todo[i], todo[j]))
    && (forall n, i :: n in f.pending && n !in todo && 0 <= i < |todo| ==> Before(todo[i], n))
    && |todo| <= limit
    && (|todo| < limit ==> forall n :: n in f.pending ==> n in todo)
  }

  // --- the queue as the runtime rewrites it ---

  class Inbox {
    var pending: map<Name, Record>
    var processing: map<Name, Record>
    var failed: map<Name, Record>
    var seen: map<string, nat>

    function View(): Files
      reads this
    {
      Files(pending, processing, failed, seen)
    }

    constructor ()
      ensures View() == Files(map[], map[], map[], map[])
    {
      pending, processing, failed, seen := map[], map[], map[], map[];
    }

    method AlreadyDelivered(key: Option<string>) returns (known: bool)
      ensures known == Delivered(View(), key)
    {
      known := Keyed(key) && key.value in seen;
    }

    method WriteRecord(name: Name, key: Option<string>)
      modifies this`pending
      ensures View() == WritePending(old(View()), name, Record(key, name.stamp, None, false))
    {
      pending := pending[name := Record(key, name.stamp, None, false)];
    }

    // The second half of remembering a key: keys past the window are forgotten one by one, the new one is recorded,
    // and the file is replaced, whatever other threads stored since `loaded` was read.
    method Store(loaded: map<string, nat>, key: string, now: nat)
      modifies this`seen
      ensures View() == StoreSeen(old(View()), loaded, key, now)
    {
      var keys := loaded.Keys;
      var kept: map<string, nat> := map[];
      while keys != {}
        invariant keys <= loaded.Keys && kept.Keys <= loaded.Keys - keys
        invariant forall k :: k in loaded && k !in keys ==> (k in kept <==> loaded[k] + DEDUP_RETENTION >= now)
        invariant forall k :: k in kept ==> kept[k] == loaded[k]
        decreases |keys|
      {
        var k :| k in keys;
        keys := keys - {k};
        if loaded[k] + DEDUP_RETENTION >= now {
          kept := kept[k := loaded[k]];
        }
      }
      assert kept == Pruned(loaded, now);
      seen := kept[key := now];
    }

    method Remember(key: string, now: nat)
      modifies this`seen
      ensures View() == StoreSeen(old(View()), old(seen), key, now)
    {
      var loaded := seen;
      Store(loaded, key, now);
    }

    // An enqueue that no other thread interrupts.
    method Enqueue(key: Option<string>, now: nat, maxPending: int, id: nat) returns (r: Reception)
      modifies this
      ensures r == Receive(old(View()), key, now, maxPending, id)
      ensures r.Accepted? ==>
        var written := WritePending(old(View()), r.name, Record(key, now, None, false));
        View() == if Keyed(key) then StoreSeen(written, old(seen), key.value, now) else written
      ensures !r.Accepted? ==> View() == old(View())
    {
      var known := AlreadyDelivered(key);
      if known {
        return Duplicate;
      }
      if |pending| >= maxPending {
        return QueueFull;
      }
      var name := Name(now, id);
      WriteRecord(name, key);
      if Keyed(key) {
        Remember(key.value, now);
      }
      r := Accepted(name);
    }

    // One turn of the claiming generator: the move comes before anything runs.
    method Claim(n: Name, now: nat, readable: bool) returns (yielded: bool)
      modifies this`pending, this`processing
      ensures n !in old(pending) ==> !yielded && View() == old(View())
      ensures n in old(pending) ==>
        yielded == readable
        && View() == if readable then StampClaim(RenameToProcessing(old(View()), n), n, now)
                     else RenameToProcessing(old(View()), n)
    {
      if n !in pending {
        return false;
      }
      processing := processing[n := pending[n]];
      pending := pending - {n};
      if !readable {
        return false;
      }
      processing := processing[n := processing[n].(claimed := Some(now))];
      yielded := true;
    }

    method Complete(n: Name)
      modifies this`processing
      ensures View() == Unlink(old(View()), n)
    {
      processing := processing - {n};
    }

    method Fail(n: Name)
      modifies this`processing, this`failed
      ensures View() == Unlink(WriteFailed(old(View()), n), n)
    {
      var r := if n in processing then processing[n] else Record(None, 0, None, false);
      failed := failed[n := r.(failed := true)];
      processing := processing - {n};
    }

    // `order` is the directory listing the sweep walks.
    method SweepStaleProcessing(order: seq<Name>, now: nat, staleAfter: nat) returns (swept: seq<Name>)
      requires forall n :: n in processing <==> n in order
      modifies this`processing, this`failed
      ensures pending == old(pending) && seen == old(seen)
      ensures forall n :: n in processing <==> n in old(processing) && !Stale(old(processing)[n], now, staleAfter)
      ensures forall n :: n in processing ==> processing[n] == old(processing)[n]
      ensures forall n :: n in swept <==> n in old(processing) && Stale(old(processing)[n], now, staleAfter)
      ensures failed.Keys == old(failed).Keys + set n | n in swept
      ensures forall n :: n in swept ==> failed[n] == old(processing)[n].(failed := true)
      ensures forall n :: n in old(failed) && n !in swept ==> failed[n] == old(failed)[n]
    {
      swept := [];
      for i := 0 to |order|
        invariant forall n :: n in processing <==> n in old(processing) && n !in swept
        invariant forall n :: n in processing ==> processing[n] == old(processing)[n]
        invariant forall n :: n in swept <==> n in old(processing) && n in order[..i] && Stale(old(processing)[n], now, staleAfter)
        invariant failed.Keys == old(failed).Keys + set n | n in swept
        invariant forall n :: n in swept ==> failed[n] == old(processing)[n].(failed := true)
        invariant forall n :: n in old(failed) && n !in swept ==> failed[n] == old(failed)[n]
      {
        var n := order[i];
        assert order[..i + 1] == order[..i] + [n];
        if n in processing && Stale(processing[n], now, staleAfter) {
          Fail(n);
          swept := swept + [n];
        }
      }
      assert order[..|order|] == order;
    }
  }
}
