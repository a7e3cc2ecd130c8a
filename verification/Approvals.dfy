// The approval queue: one-shot permissions for one action of one task.
module Approvals {
  import opened Text

  datatype Status = Pending | Approved | Denied

  datatype Approval = Approval(id: nat, code: string, status: Status, task: string, action: string, consumed: bool)

  // `at` is where the new file's random name sorts among the existing ones.
  datatype Op =
    | Request(at: nat, id: nat, code: string, task: string, action: string)
    | Resolve(code: string, approved: bool)
    | TakeApproved(task: string, action: string)
    | TakeDenied(task: string, action: string)

  predicate Awaits(r: Approval, code: string) {
    r.status == Pending && r.code == code
  }

  predicate Usable(r: Approval, status: Status, task: string, action: string) {
    r.status == status && !r.consumed && r.task == task && r.action == action
  }

  // The first record, in file-name order, that the code still resolves.
  function FindByCode(rs: seq<Approval>, code: string): (i: nat)
    ensures i <= |rs|
    ensures i < |rs| ==> Awaits(rs[i], code)
    ensures forall j :: 0 <= j < i ==> !Awaits(rs[j], code)
  {
    if rs == [] then 0
    else if Awaits(rs[0], code) then 0
    else 1 + FindByCode(rs[1..], code)
  }

  function FindUsable(rs: seq<Approval>, status: Status, task: string, action: string): (i: nat)
    ensures i <= |rs|
    ensures i < |rs| ==> Usable(rs[i], status, task, action)
    ensures forall j :: 0 <= j < i ==> !Usable(rs[j], status, task, action)
  {
    if rs == [] then 0
    else if Usable(rs[0], status, task, action) then 0
    else 1 + FindUsable(rs[1..], status, task, action)
  }

  function Resolved(rs: seq<Approval>, code: string, approved: bool): seq<Approval> {
    var i := FindByCode(rs, code);
    if i == |rs| then rs else rs[i := rs[i].(status := if approved then Approved else Denied)]
  }

  function Taken(rs: seq<Approval>, status: Status, task: string, action: string): seq<Approval> {
    var i := FindUsable(rs, status, task, action);
    if i == |rs| then rs else rs[i := rs[i].(consumed := true)]
  }

  predicate Takes(rs: seq<Approval>, status: Status, task: string, action: string) {
    FindUsable(rs, status, task, action) < |rs|
  }

  function Inserted(rs: seq<Approval>, at: nat, r: Approval): seq<Approval> {
    var k := if at < |rs| then at else |rs|;
    rs[..k] + [r] + rs[k..]
  }

  function Step(rs: seq<Approval>, op: Op): seq<Approval> {
    match op
    case Request(at, id, code, task, action) => Inserted(rs, at, Approval(id, code, Pending, task, action, false))
    case Resolve(code, approved) => Resolved(rs, code, approved)
    case TakeApproved(task, action) => Taken(rs, Approved, task, action)
    case TakeDenied(task, action) => Taken(rs, Denied, task, action)
  }

  function Run(rs: seq<Approval>, ops: seq<Op>): seq<Approval>
    decreases |ops|
  {
    if ops == [] then rs else Run(Step(rs, ops[0]), ops[1..])
  }

  // --- conservation ---

  // Approved and not yet used, for this task and action.
  function Open(rs: seq<Approval>, task: string, action: string): nat {
    if rs == [] then 0
    else (if Usable(rs[0], Approved, task, action) then 1 else 0) + Open(rs[1..], task, action)
  }

  lemma {:induction false} OpenConcat(a: seq<Approval>, b: seq<Approval>, task: string, action: string)
    ensures Open(a + b, task, action) == Open(a, task, action) + Open(b, task, action)
  {
    if a == [] {
      assert a + b == b;
    } else {
      assert (a + b)[1..] == a[1..] + b;
      OpenConcat(a[1..], b, task, action);
    }
  }

  function Worth(r: Approval, task: string, action: string): nat {
    if Usable(r, Approved, task, action) then 1 else 0
  }

  lemma OpenUpdate(rs: seq<Approval>, i: nat, r: Approval, task: string, action: string)
    requires i < |rs|
    ensures Open(rs[i := r], task, action) + Worth(rs[i], task, action) == Open(rs, task, action) + Worth(r, task, action)
  {
    assert rs == rs[..i] + ([rs[i]] + rs[i + 1..]);
    assert rs[i := r] == rs[..i] + ([r] + rs[i + 1..]);
    OpenConcat(rs[..i], [rs[i]] + rs[i + 1..], task, action);
    OpenConcat(rs[..i], [r] + rs[i + 1..], task, action);
    OpenConcat([rs[i]], rs[i + 1..], task, action);
    OpenConcat([r], rs[i + 1..], task, action);
  }

  lemma InsertedAddsOne(rs: seq<Approval>, at: nat, r: Approval)
    ensures multiset(Inserted(rs, at, r)) == multiset(rs) + multiset{r}
  {
    var k := if at < |rs| then at else |rs|;
    assert rs == rs[..k] + rs[k..];
  }

  // The gate finds an approval exactly when one is open.
  lemma {:induction false} GateOpensExactly(rs: seq<Approval>, task: string, action: string)
    ensures Takes(rs, Approved, task, action) <==> Open(rs, task, action) > 0
  {
    if rs != [] {
      GateOpensExactly(rs[1..], task, action);
    }
  }

  predicate Grants(rs: seq<Approval>, op: Op, task: string, action: string) {
    op.Resolve? && op.approved &&
    var i := FindByCode(rs, op.code);
    i < |rs| && rs[i].task == task && rs[i].action == action && !rs[i].consumed
  }

  predicate Spends(rs: seq<Approval>, op: Op, task: string, action: string) {
    op == TakeApproved(task, action) && Takes(rs, Approved, task, action)
  }

  lemma StepConserves(rs: seq<Approval>, op: Op, task: string, action: string)
    ensures Open(Step(rs, op), task, action) + (if Spends(rs, op, task, action) then 1 else 0)
            == Open(rs, task, action) + (if Grants(rs, op, task, action) then 1 else 0)
  {
    match op
    case Request(at, id, code, t, a) =>
      var k := if at < |rs| then at else |rs|;
      var r := Approval(id, code, Pending, t, a, false);
      assert rs == rs[..k] + rs[k..];
      OpenConcat(rs[..k], rs[k..], task, action);
      OpenConcat(rs[..k] + [r], rs[k..], task, action);
      OpenConcat(rs[..k], [r], task, action);
    case Resolve(code, approved) =>
      var i := FindByCode(rs, code);
      if i < |rs| {
        OpenUpdate(rs, i, rs[i].(status := if approved then Approved else Denied), task, action);
      }
    case TakeApproved(t, a) =>
      var i := FindUsable(rs, Approved, t, a);
      if i < |rs| {
        OpenUpdate(rs, i, rs[i].(consumed := true), task, action);
      }
    case TakeDenied(t, a) =>
      var i := FindUsable(rs, Denied, t, a);
      if i < |rs| {
        OpenUpdate(rs, i, rs[i].(consumed := true), task, action);
      }
  }

  // No pending record carries the code.
  predicate Unused(rs: seq<Approval>, code: string) {
    forall i :: 0 <= i < |rs| ==> !(rs[i].status == Pending && rs[i].code == code)
  }

  function Asked(rs: seq<Approval>, at: nat, id: nat, code: string, task: string, action: string): seq<Approval> {
    Step(rs, Request(at, id, code, task, action))
  }

  // The new record is the one its code resolves, and the only one that changes.
  lemma AskedIsFound(rs: seq<Approval>, at: nat, id: nat, code: string, task: string, action: string) returns (k: nat)
    requires Unused(rs, code)
    ensures var asked := Asked(rs, at, id, code, task, action);
            && k < |asked| && FindByCode(asked, code) == k
            && asked[k] == Approval(id, code, Pending, task, action, false)
  {
    var asked := Asked(rs, at, id, code, task, action);
    k := if at < |rs| then at else |rs|;
    assert asked[k] == Approval(id, code, Pending, task, action, false);
    forall j | 0 <= j < k ensures !Awaits(asked[j], code) {
      assert asked[j] == rs[j];
    }
  }

  // What asking and answering is for: a request opens nothing; answered with yes it opens exactly one use, of exactly
  // its task and action, and the gate then lets that through; answered with no it opens nothing, and the denial is found
  // for that task and action.
  lemma AnswerIsForWhatWasAsked(rs: seq<Approval>, at: nat, id: nat, code: string, task: string, action: string,
                                t: string, a: string)
    requires Unused(rs, code)
    ensures var asked := Asked(rs, at, id, code, task, action);
            var yes := Step(asked, Resolve(code, true));
            var no := Step(asked, Resolve(code, false));
            && Open(asked, t, a) == Open(rs, t, a)
            && Open(yes, t, a) == Open(rs, t, a) + (if t == task && a == action then 1 else 0)
            && Takes(yes, Approved, task, action)
            && Open(no, t, a) == Open(rs, t, a)
            && Takes(no, Denied, task, action)
  {
    var asked := Asked(rs, at, id, code, task, action);
    var k := AskedIsFound(rs, at, id, code, task, action);
    StepConserves(rs, Request(at, id, code, task, action), t, a);
    StepConserves(asked, Resolve(code, true), t, a);
    StepConserves(asked, Resolve(code, true), task, action);
    StepConserves(asked, Resolve(code, false), t, a);
    StepConserves(rs, Request(at, id, code, task, action), task, action);
    GateOpensExactly(Step(asked, Resolve(code, true)), task, action);
    var no := Step(asked, Resolve(code, false));
    assert no[k] == Approval(id, code, Denied, task, action, false);
    assert Usable(no[k], Denied, task, action);
    assert k < |no|;
  }

  // Both takings use up exactly one record, of the task and action asked about, and change no other.
  lemma TakingUsesOne(rs: seq<Approval>, status: Status, task: string, action: string)
    requires Takes(rs, status, task, action)
    ensures exists i :: 0 <= i < |rs| && rs[i].status == status && !rs[i].consumed
              && rs[i].task == task && rs[i].action == action
              && Taken(rs, status, task, action) == rs[i := rs[i].(consumed := true)]
  {
    var i := FindUsable(rs, status, task, action);
    assert Taken(rs, status, task, action) == rs[i := rs[i].(consumed := true)];
  }

  function Spent(rs: seq<Approval>, ops: seq<Op>, task: string, action: string): nat
    decreases |ops|
  {
    if ops == [] then 0
    else (if Spends(rs, ops[0], task, action) then 1 else 0) + Spent(Step(rs, ops[0]), ops[1..], task, action)
  }

  function Granted(rs: seq<Approval>, ops: seq<Op>, task: string, action: string): nat
    decreases |ops|
  {
    if ops == [] then 0
    else (if Grants(rs, ops[0], task, action) then 1 else 0) + Granted(Step(rs, ops[0]), ops[1..], task, action)
  }

  // Over every interleaving of requests, replies and gate checks, permissions spent plus permissions still open
  // are exactly those granted: no approval lets its action through twice, and none is lost.
  lemma {:induction false} Conservation(rs: seq<Approval>, ops: seq<Op>, task: string, action: string)
    ensures Spent(rs, ops, task, action) + Open(Run(rs, ops), task, action)
            == Open(rs, task, action) + Granted(rs, ops, task, action)
    decreases |ops|
  {
    if ops != [] {
      StepConserves(rs, ops[0], task, action);
      Conservation(Step(rs, ops[0]), ops[1..], task, action);
    }
  }

  // --- one record's life ---

  // Decided once, used once, never back; what it is for never changes.
  predicate Later(r: Approval, s: Approval) {
    && s.id == r.id && s.code == r.code && s.task == r.task && s.action == r.action
    && (s.status == r.status || (r.status == Pending && !r.consumed))
    && (r.consumed ==> s.consumed)
    && (s.consumed ==> s.status != Pending)
  }

  predicate Sound(rs: seq<Approval>) {
    forall i :: 0 <= i < |rs| ==> rs[i].consumed ==> rs[i].status != Pending
  }

  // Where the record sorts after the step.
  function Place(rs: seq<Approval>, op: Op, i: nat): nat {
    if op.Request? && i >= (if op.at < |rs| then op.at else |rs|) then i + 1 else i
  }

  lemma UpdateKeepsRecords(rs: seq<Approval>, k: nat, r: Approval, i: nat)
    requires Sound(rs) && i < |rs| && k < |rs| && Later(rs[k], r)
    ensures Sound(rs[k := r]) && Later(rs[i], rs[k := r][i])
  {
  }

  lemma InsertKeepsRecords(rs: seq<Approval>, at: nat, r: Approval, i: nat)
    requires Sound(rs) && i < |rs| && !r.consumed
    ensures var k := if at < |rs| then at else |rs|;
            && Sound(Inserted(rs, at, r))
            && Inserted(rs, at, r)[if i >= k then i + 1 else i] == rs[i]
  {
  }

  lemma StepKeepsRecords(rs: seq<Approval>, op: Op, i: nat)
    requires Sound(rs) && i < |rs|
    ensures Sound(Step(rs, op)) && Place(rs, op, i) < |Step(rs, op)| && Later(rs[i], Step(rs, op)[Place(rs, op, i)])
  {
    match op
    case Request(at, id, code, task, action) =>
      InsertKeepsRecords(rs, at, Approval(id, code, Pending, task, action, false), i);
    case Resolve(code, approved) =>
      var k := FindByCode(rs, code);
      if k < |rs| {
        UpdateKeepsRecords(rs, k, rs[k].(status := if approved then Approved else Denied), i);
      }
    case TakeApproved(task, action) =>
      var k := FindUsable(rs, Approved, task, action);
      if k < |rs| {
        UpdateKeepsRecords(rs, k, rs[k].(consumed := true), i);
      }
    case TakeDenied(task, action) =>
      var k := FindUsable(rs, Denied, task, action);
      if k < |rs| {
        UpdateKeepsRecords(rs, k, rs[k].(consumed := true), i);
      }
  }

  lemma {:induction false} RecordsOnlyAdvance(rs: seq<Approval>, ops: seq<Op>, i: nat) returns (j: nat)
    requires Sound(rs) && i < |rs|
    ensures j < |Run(rs, ops)| && Later(rs[i], Run(rs, ops)[j])
    decreases |ops|
  {
    if ops == [] {
      j := i;
    } else {
      StepKeepsRecords(rs, ops[0], i);
      j := RecordsOnlyAdvance(Step(rs, ops[0]), ops[1..], Place(rs, ops[0], i));
    }
  }

  // --- the queue as the runtime rewrites it ---

  class ApprovalQueue {
    var records: seq<Approval>

    constructor ()
      ensures records == []
    {
      records := [];
    }

    // What humans and other runs do in between.
    method OthersAct(ops: seq<Op>)
      modifies this
      ensures records == Run(old(records), ops)
    {
      for i := 0 to |ops|
        invariant Run(records, ops[i..]) == Run(old(records), ops)
      {
        assert ops[i..][0] == ops[i] && ops[i..][1..] == ops[i + 1..];
        records := Step(records, ops[i]);
      }
    }

    method RequestApproval(at: nat, id: nat, code: string, task: string, action: string)
      modifies this
      ensures records == Step(old(records), Request(at, id, code, task, action))
    {
      records := Inserted(records, at, Approval(id, code, Pending, task, action, false));
    }

    method ResolveCode(code: string, approved: bool) returns (found: bool)
      modifies this
      ensures records == Step(old(records), Resolve(code, approved))
      ensures found <==> exists i :: 0 <= i < |old(records)| && Awaits(old(records)[i], code)
    {
      var i := 0;
      while i < |records| && !Awaits(records[i], code)
        invariant i <= |records| && forall j :: 0 <= j < i ==> !Awaits(records[j], code)
      {
        i := i + 1;
      }
      found := i < |records|;
      if found {
        records := records[i := records[i].(status := if approved then Approved else Denied)];
      }
    }

    method ConsumeIf(status: Status, task: string, action: string) returns (passed: bool)
      requires status != Pending
      modifies this
      ensures records == Taken(old(records), status, task, action)
      ensures passed == Takes(old(records), status, task, action)
    {
      var i := 0;
      while i < |records| && !Usable(records[i], status, task, action)
        invariant i <= |records| && forall j :: 0 <= j < i ==> !Usable(records[j], status, task, action)
      {
        i := i + 1;
      }
      passed := i < |records|;
      if passed {
        records := records[i := records[i].(consumed := true)];
      }
    }
  }
}
