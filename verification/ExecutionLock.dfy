// The execution lock of one home: a kernel lock, and in each process a table that makes taking it re-entrant.
module ExecutionLock {
  import opened Text

  // A `with` block that asked for the lock: it rides along, it owns the kernel lock, or it was told "busy".
  datatype Block = Nested | Outer | Refused

  // A process: its depth table, its open blocks from the outermost in, and the tasks its agent run still has to claim.
  datatype Proc = Proc(depth: nat, blocks: seq<Block>, run: seq<nat>)

  datatype World = World(procs: map<nat, Proc>, holder: Option<nat>, pending: set<nat>)

  const IDLE := Proc(0, [], [])
  const START := World(map[], None, {})

  function Of(w: World, p: nat): Proc {
    if p in w.procs then w.procs[p] else IDLE
  }

  function Put(w: World, p: nat, proc: Proc): World {
    w.(procs := w.procs[p := proc])
  }

  // Entering a block; `free` says whether the kernel granted its lock, which is asked for only at depth zero.
  function Entered(proc: Proc, free: bool): Proc {
    if proc.depth > 0 then proc.(depth := proc.depth + 1, blocks := proc.blocks + [Nested])
    else if free then proc.(depth := 1, blocks := proc.blocks + [Outer])
    else proc.(blocks := proc.blocks + [Refused])
  }

  // Leaving the innermost block; the outermost exit forgets the table entry, and no run outlives it.
  function Left(proc: Proc): Proc
    requires proc.blocks != []
  {
    var last := |proc.blocks| - 1;
    match proc.blocks[last]
    case Nested => proc.(depth := if proc.depth > 0 then proc.depth - 1 else 0, blocks := proc.blocks[..last])
    case Outer => Proc(0, proc.blocks[..last], [])
    case Refused => proc.(blocks := proc.blocks[..last])
  }

  datatype Step =
    | Enter(p: nat, patient: bool)  // one attempt; a patient caller polls again while the lock is taken
    | Exit(p: nat)
    | Crash(p: nat)                 // the kernel drops what the process held
    | StartRun(p: nat, tasks: seq<nat>)
    | Claim(p: nat)
    | File(task: nat)               // the task becomes pending: created, requeued, handed on
    | Withdraw(task: nat)           // it stops being pending without a claim: archived, blocked

  predicate Distinct(tasks: seq<nat>) {
    forall i, j :: 0 <= i < j < |tasks| ==> tasks[i] != tasks[j]
  }

  // An agent run lists its pending tasks under the lock.
  predicate MayStart(w: World, p: nat, tasks: seq<nat>) {
    && Of(w, p).depth > 0 && Of(w, p).run == []
    && Distinct(tasks) && forall i :: 0 <= i < |tasks| ==> tasks[i] in w.pending
  }

  function Next(w: World, s: Step): World {
    match s
    case Enter(p, patient) =>
      var proc := Of(w, p);
      if proc.depth > 0 then Put(w, p, Entered(proc, false))
      else if w.holder.None? then Put(w, p, Entered(proc, true)).(holder := Some(p))
      else if patient then w
      else Put(w, p, Entered(proc, false))
    case Exit(p) =>
      var proc := Of(w, p);
      if proc.blocks == [] then w
      else Put(w, p, Left(proc)).(holder := if proc.blocks[|proc.blocks| - 1] == Outer then None else w.holder)
    case Crash(p) => Put(w, p, IDLE).(holder := if w.holder == Some(p) then None else w.holder)
    case StartRun(p, tasks) =>
      if MayStart(w, p, tasks) then Put(w, p, Of(w, p).(run := tasks)) else w
    case Claim(p) =>
      var proc := Of(w, p);
      if proc.run == [] then w
      else Put(w, p, proc.(run := proc.run[1..])).(pending := w.pending - {proc.run[0]})
    case File(task) => w.(pending := w.pending + {task})
    case Withdraw(task) => w.(pending := w.pending - {task})
  }

  function Run(w: World, steps: seq<Step>): World
    decreases |steps|
  {
    if steps == [] then w else Run(Next(w, steps[0]), steps[1..])
  }

  // --- what every step keeps ---

  // Blocks are properly nested: refused ones outside, then the one that took the lock, then those riding along.
  predicate Shaped(proc: Proc) {
    && proc.depth <= |proc.blocks|
    && (forall i :: 0 <= i < |proc.blocks| - proc.depth ==> proc.blocks[i] == Refused)
    && (proc.depth > 0 ==> proc.blocks[|proc.blocks| - proc.depth] == Outer)
    && (forall i :: |proc.blocks| - proc.depth < i < |proc.blocks| ==> proc.blocks[i] == Nested)
  }

  predicate Kept(proc: Proc, holds: bool) {
    && Shaped(proc) && (proc.depth > 0 <==> holds)
    && Distinct(proc.run) && (proc.run != [] ==> proc.depth > 0)
  }

  ghost predicate Good(w: World) {
    forall p: nat :: Kept(Of(w, p), w.holder == Some(p))
  }

  lemma EnteredShaped(proc: Proc, free: bool)
    requires Shaped(proc)
    ensures Shaped(Entered(proc, free))
  {
  }

  lemma LeftShaped(proc: Proc)
    requires Shaped(proc) && proc.blocks != []
    ensures Shaped(Left(proc))
    ensures Left(proc).depth > 0 <==> proc.depth > 0 && proc.blocks[|proc.blocks| - 1] != Outer
    ensures proc.blocks[|proc.blocks| - 1] == Outer ==> proc.depth == 1
  {
  }

  lemma EnterGood(w: World, p: nat, patient: bool, q: nat)
    requires Good(w)
    ensures var v := Next(w, Enter(p, patient)); Kept(Of(v, q), v.holder == Some(q))
  {
    assert Kept(Of(w, q), w.holder == Some(q)) && Kept(Of(w, p), w.holder == Some(p));
    EnteredShaped(Of(w, p), w.holder.None?);
  }

  lemma ExitGood(w: World, p: nat, q: nat)
    requires Good(w)
    ensures var v := Next(w, Exit(p)); Kept(Of(v, q), v.holder == Some(q))
  {
    assert Kept(Of(w, q), w.holder == Some(q)) && Kept(Of(w, p), w.holder == Some(p));
    if Of(w, p).blocks != [] {
      LeftShaped(Of(w, p));
    }
  }

  lemma NextGood(w: World, s: Step)
    requires Good(w)
    ensures Good(Next(w, s))
  {
    forall q: nat ensures Kept(Of(Next(w, s), q), Next(w, s).holder == Some(q)) {
      assert Kept(Of(w, q), w.holder == Some(q));
      match s
      case Enter(p, patient) => EnterGood(w, p, patient, q);
      case Exit(p) => ExitGood(w, p, q);
      case _ =>
    }
  }

  lemma {:induction false} RunGood(w: World, steps: seq<Step>)
    requires Good(w)
    ensures Good(Run(w, steps))
    decreases |steps|
  {
    if steps != [] {
      NextGood(w, steps[0]);
      RunGood(Next(w, steps[0]), steps[1..]);
    }
  }

  // --- safety over whole runs ---

  predicate Inside(w: World, p: nat) {
    Of(w, p).depth > 0
  }

  // Whatever is entered, left and killed in whatever order, at most one process is inside.
  lemma MutualExclusion(steps: seq<Step>, p: nat, q: nat)
    requires Inside(Run(START, steps), p) && Inside(Run(START, steps), q)
    ensures p == q
  {
    RunGood(START, steps);
    assert Kept(Of(Run(START, steps), p), Run(START, steps).holder == Some(p));
    assert Kept(Of(Run(START, steps), q), Run(START, steps).holder == Some(q));
  }

  // Blocks that were let in.
  function Acquired(blocks: seq<Block>): nat {
    if blocks == [] then 0
    else (if blocks[|blocks| - 1] == Refused then 0 else 1) + Acquired(blocks[..|blocks| - 1])
  }

  lemma {:induction false} ShapedCounts(proc: Proc)
    requires Shaped(proc)
    ensures Acquired(proc.blocks) == proc.depth
    decreases |proc.blocks|
  {
    if proc.blocks != [] {
      LeftShaped(proc);
      ShapedCounts(Left(proc));
    }
  }

  // The depth table counts the open blocks that were let in, whatever crashes came before.
  lemma DepthCountsOpenBlocks(steps: seq<Step>, p: nat)
    ensures Of(Run(START, steps), p).depth == Acquired(Of(Run(START, steps), p).blocks)
  {
    RunGood(START, steps);
    assert Kept(Of(Run(START, steps), p), Run(START, steps).holder == Some(p));
    ShapedCounts(Of(Run(START, steps), p));
  }

  // A caller is told "busy" if and only if it would not wait and another process is inside: in particular, never
  // inside a block of its own.
  lemma BusyExactly(steps: seq<Step>, p: nat, patient: bool)
    ensures var w := Run(START, steps);
            Of(Next(w, Enter(p, patient)), p).blocks == Of(w, p).blocks + [Refused]
            <==> !patient && exists q: nat :: q != p && Inside(w, q)
  {
    var w := Run(START, steps);
    RunGood(START, steps);
    assert Kept(Of(w, p), w.holder == Some(p));
    if w.holder.Some? {
      assert Kept(Of(w, w.holder.value), true);
      assert Inside(w, w.holder.value);
    }
    forall q: nat | Inside(w, q) ensures w.holder == Some(q) {
      assert Kept(Of(w, q), w.holder == Some(q));
    }
    var blocks := Of(w, p).blocks;
    assert (blocks + [Refused])[|blocks|] == Refused;
    assert (blocks + [Outer])[|blocks|] == Outer && (blocks + [Nested])[|blocks|] == Nested;
  }

  // Asking gets a process inside if and only if no other one is; a patient caller that has to wait changes nothing; and
  // no other process is touched.
  lemma EntersExactly(steps: seq<Step>, p: nat, patient: bool)
    ensures var w := Run(START, steps);
            var v := Next(w, Enter(p, patient));
            var taken := exists q: nat :: q != p && Inside(w, q);
            && (Inside(v, p) <==> !taken)
            && (!taken ==> Of(v, p).depth == Of(w, p).depth + 1)
            && (taken && patient ==> v == w)
            && (forall q: nat :: q != p ==> Of(v, q) == Of(w, q))
            && v.pending == w.pending && Of(v, p).run == Of(w, p).run
  {
    var w := Run(START, steps);
    RunGood(START, steps);
    assert Kept(Of(w, p), w.holder == Some(p));
    if w.holder.Some? {
      assert Kept(Of(w, w.holder.value), true);
      assert Inside(w, w.holder.value);
    }
    forall q: nat | Inside(w, q) ensures w.holder == Some(q) {
      assert Kept(Of(w, q), w.holder == Some(q));
    }
  }

  // is_locked: what a process is told before it enters anything.
  function IsLocked(w: World, p: nat): bool {
    if Of(w, p).depth > 0 then false else w.holder.Some?
  }

  lemma IsLockedExactly(steps: seq<Step>, p: nat)
    ensures IsLocked(Run(START, steps), p) <==> exists q: nat :: q != p && Inside(Run(START, steps), q)
  {
    var w := Run(START, steps);
    RunGood(START, steps);
    assert Kept(Of(w, p), w.holder == Some(p));
    if w.holder.Some? {
      assert Kept(Of(w, w.holder.value), true);
      assert Inside(w, w.holder.value);
    }
    forall q: nat | Inside(w, q) ensures w.holder == Some(q) {
      assert Kept(Of(w, q), w.holder == Some(q));
    }
  }

  // The kernel lock changes hands exactly when its holder leaves its outermost admitted block or dies.
  lemma ReleasedExactly(steps: seq<Step>, s: Step, p: nat)
    requires Run(START, steps).holder == Some(p)
    ensures Next(Run(START, steps), s).holder != Some(p)
            <==> s == Crash(p) || (s == Exit(p) && Acquired(Of(Run(START, steps), p).blocks) == 1)
  {
    var w := Run(START, steps);
    RunGood(START, steps);
    assert Kept(Of(w, p), true);
    ShapedCounts(Of(w, p));
    if s.Exit? && s.p != p {
      assert Kept(Of(w, s.p), false);
      if Of(w, s.p).blocks != [] {
        LeftShaped(Of(w, s.p));
      }
    }
  }

  // --- claims ---

  predicate Claims(w: World, s: Step, task: nat) {
    s.Claim? && Of(w, s.p).run != [] && Of(w, s.p).run[0] == task
  }

  predicate Files(w: World, s: Step, task: nat) {
    s == File(task) && task !in w.pending
  }

  function ClaimCount(w: World, steps: seq<Step>, task: nat): nat
    decreases |steps|
  {
    if steps == [] then 0
    else (if Claims(w, steps[0], task) then 1 else 0) + ClaimCount(Next(w, steps[0]), steps[1..], task)
  }

  function FileCount(w: World, steps: seq<Step>, task: nat): nat
    decreases |steps|
  {
    if steps == [] then 0
    else (if Files(w, steps[0], task) then 1 else 0) + FileCount(Next(w, steps[0]), steps[1..], task)
  }

  // The task can still be claimed: it is pending, or the process inside has it on its list.
  predicate Claimable(w: World, task: nat) {
    task in w.pending || (w.holder.Some? && task in Of(w, w.holder.value).run)
  }

  lemma StepClaims(w: World, s: Step, task: nat)
    requires Good(w)
    ensures (if Claims(w, s, task) then 1 else 0) + (if Claimable(Next(w, s), task) then 1 else 0)
            <= (if Claimable(w, task) then 1 else 0) + (if Files(w, s, task) then 1 else 0)
  {
    match s
    case Claim(p) =>
      assert Kept(Of(w, p), w.holder == Some(p));
      var run := Of(w, p).run;
      if run != [] && run[0] == task {
        assert task !in run[1..];
      }
    case Enter(p, patient) =>
      assert Kept(Of(w, p), w.holder == Some(p));
    case Exit(p) =>
      assert Kept(Of(w, p), w.holder == Some(p));
    case _ =>
  }

  lemma {:induction false} RunClaims(w: World, steps: seq<Step>, task: nat)
    requires Good(w)
    ensures ClaimCount(w, steps, task) <= (if Claimable(w, task) then 1 else 0) + FileCount(w, steps, task)
    decreases |steps|
  {
    if steps != [] {
      StepClaims(w, steps[0], task);
      NextGood(w, steps[0]);
      RunClaims(Next(w, steps[0]), steps[1..], task);
    }
  }

  // However the processes interleave, crash and restart, a task is claimed at most as often as it became pending: no
  // two runs ever answer the same request.
  lemma OneClaimPerFiling(steps: seq<Step>, task: nat)
    ensures ClaimCount(START, steps, task) <= FileCount(START, steps, task)
  {
    RunClaims(START, steps, task);
  }

  // --- one process ---

  class LockTable {
    var depth: nat
    var blocks: seq<Block>
    var run: seq<nat>

    function View(): Proc
      reads this
    {
      Proc(depth, blocks, run)
    }

    constructor ()
      ensures View() == IDLE
    {
      depth, blocks, run := 0, [], [];
    }

    // `attempts` is what the kernel would answer to each try; the caller gives up after `patience` retries.
    method EnterBlock(attempts: seq<bool>, patience: nat) returns (acquired: bool, tries: nat)
      requires |attempts| > patience
      modifies this
      ensures acquired <==> old(depth) > 0 || exists i :: 0 <= i <= patience && attempts[i]
      ensures View() == Entered(old(View()), acquired)
      ensures tries == 0 <==> old(depth) > 0
      ensures tries > 0 ==> tries <= patience + 1 && forall i :: 0 <= i < tries - 1 ==> !attempts[i]
    {
      tries := 0;
      if depth > 0 {
        depth := depth + 1;
        blocks := blocks + [Nested];
        return true, 0;
      }
      while true
        invariant tries <= patience && forall i :: 0 <= i < tries ==> !attempts[i]
        invariant View() == old(View())
        decreases patience - tries
      {
        tries := tries + 1;
        if attempts[tries - 1] {
          break;
        }
        if tries > patience {
          blocks := blocks + [Refused];
          return false, tries;
        }
      }
      depth := 1;
      blocks := blocks + [Outer];
      acquired := true;
    }

    // Leaving the innermost block; says whether the kernel lock is released with it.
    method LeaveBlock() returns (released: bool)
      requires blocks != []
      modifies this
      ensures View() == Left(old(View()))
      ensures released == (old(blocks)[|old(blocks)| - 1] == Outer)
    {
      var last := blocks[|blocks| - 1];
      blocks := blocks[..|blocks| - 1];
      released := false;
      if last == Nested {
        depth := if depth > 0 then depth - 1 else 0;
      } else if last == Outer {
        depth := 0;
        run := [];
        released := true;
      }
    }
  }
}
