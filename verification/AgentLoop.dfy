// The per-task tool-use loop: a model oracle, a gate, two budgets, and one-shot approvals.
module AgentLoop {
  import opened Text
  import opened TicketOutcome
  import A = Approvals

  datatype Call = Call(id: string, name: string, args: string)
  datatype Reply = Reply(ok: bool, content: string, calls: seq<Call>)

  datatype Content = NotPermitted | DeniedByPolicy | Output(value: string)
  datatype Item =
    | Prompt(content: string)
    | Assistant(said: string, calls: seq<Call>)
    | ToolResult(callId: string, result: Content)

  // What the permission check and the risk level of an action's capability come to.
  datatype Capability = Capability(permitted: bool, risky: bool)
  datatype Verdict = Allow | NeedsHuman | Deny

  datatype Halt = NotHalted | ForApproval(action: string) | OutOfCalls | OutOfIterations
  // `gated`: the action went through on a human's approval.
  datatype Dispatch = Dispatch(action: string, args: string, gated: bool)

  // Everything the loop is given. The model and the handlers are oracles of what they are shown; `meanwhile` is what
  // humans and other runs do to the approval queue before the n-th call is handled.
  datatype Env = Env(
    task: string, actions: seq<string>, capability: string -> Capability, autonomous: bool, ticketGate: bool,
    maxCalls: int, maxIterations: int, prompts: seq<string>,
    model: (nat, seq<Item>) -> Reply, handler: (nat, string, string) -> string, meanwhile: nat -> seq<A.Op>,
    newAt: nat, newId: nat, newCode: string)

  // --- tool names ---

  // `action.replace(".", "__")`.
  function ToToolName(action: string): string {
    if action == "" then ""
    else (if action[0] == '.' then "__" else [action[0]]) + ToToolName(action[1..])
  }

  // The reverse map built from the allowlist: a later action takes the name from an earlier one.
  function Lookup(actions: seq<string>, name: string): (r: string)
    ensures r == name || (r in actions && ToToolName(r) == name)
  {
    if actions == [] then name
    else if ToToolName(actions[|actions| - 1]) == name then actions[|actions| - 1]
    else Lookup(actions[..|actions| - 1], name)
  }

  lemma {:induction false} LookupHits(actions: seq<string>, action: string)
    requires action in actions
    ensures Lookup(actions, ToToolName(action)) in actions
    ensures ToToolName(Lookup(actions, ToToolName(action))) == ToToolName(action)
  {
    var k := |actions| - 1;
    if ToToolName(actions[k]) != ToToolName(action) {
      LookupHits(actions[..k], action);
    }
  }

  // The reverse map sends every offered tool back to its own action exactly when no two offered actions encode alike.
  lemma ToolNamesRoundTrip(actions: seq<string>)
    ensures (forall a :: a in actions ==> Lookup(actions, ToToolName(a)) == a)
            <==> (forall a, b :: a in actions && b in actions && ToToolName(a) == ToToolName(b) ==> a == b)
  {
    forall a | a in actions
      ensures Lookup(actions, ToToolName(a)) in actions && ToToolName(Lookup(actions, ToToolName(a))) == ToToolName(a)
    {
      LookupHits(actions, a);
    }
  }

  lemma ToolNamesCollide()
    ensures Lookup(["mail.send", "mail__send"], ToToolName("mail.send")) == "mail__send"
  {
    var dotted, plain := "mail.send", "mail__send";
    calc {
      ToToolName(dotted);
      "m" + ToToolName(dotted[1..]);
      "m" + ("a" + ToToolName(dotted[2..]));
      "m" + ("a" + ("i" + ToToolName(dotted[3..])));
      "m" + ("a" + ("i" + ("l" + ("__" + ToToolName(dotted[5..])))));
      { assert dotted[5..] == plain[6..]; }
      "m" + ("a" + ("i" + ("l" + ("__" + ToToolName(plain[6..])))));
      { assert ToToolName(plain[4..]) == "_" + ("_" + ToToolName(plain[6..])) == "__" + ToToolName(plain[6..]); }
      "m" + ("a" + ("i" + ("l" + ToToolName(plain[4..]))));
      "m" + ("a" + ("i" + ToToolName(plain[3..])));
      "m" + ("a" + ToToolName(plain[2..]));
      ToToolName(plain);
    }
    var both := [dotted, plain];
    assert both[|both| - 1] == plain;
  }

  // --- the gate ---

  function Gate(c: Capability, autonomous: bool, ticketGate: bool): Verdict {
    if !c.permitted then Deny
    else if ticketGate then NeedsHuman
    else if c.risky && !autonomous then NeedsHuman
    else Allow
  }

  // --- the loop ---

  datatype State = State(items: seq<Item>, log: seq<Dispatch>, approvals: seq<A.Approval>, halted: Halt, handled: nat)

  function Meanwhile(env: Env, s: State): State {
    s.(approvals := A.Run(s.approvals, env.meanwhile(s.handled)), handled := s.handled + 1)
  }

  function Answer(s: State, call: Call, result: Content): State {
    s.(items := s.items + [ToolResult(call.id, result)])
  }

  function OneCall(env: Env, s: State, call: Call): State {
    Handled(env, Meanwhile(env, s), call)
  }

  function Handled(env: Env, s: State, call: Call): State {
    var action := Lookup(env.actions, call.name);
    if action !in env.actions then Answer(s, call, NotPermitted)
    else
      var verdict := Gate(env.capability(action), env.autonomous, env.ticketGate);
      var approved := verdict == NeedsHuman && A.Takes(s.approvals, A.Approved, env.task, action);
      if verdict == NeedsHuman && !approved then
        s.(approvals := A.Step(s.approvals, A.Request(env.newAt, env.newId, env.newCode, env.task, action)),
           halted := ForApproval(action))
      else
        var t := if approved then s.(approvals := A.Taken(s.approvals, A.Approved, env.task, action)) else s;
        if verdict == Deny then Answer(t, call, DeniedByPolicy)
        else if |t.log| >= env.maxCalls then t.(halted := OutOfCalls)
        else
          Answer(t.(log := t.log + [Dispatch(action, call.args, approved)]), call,
                 Output(env.handler(|t.log|, action, call.args)))
  }

  function Calls(env: Env, s: State, calls: seq<Call>): State
    decreases |calls|
  {
    if calls == [] || s.halted != NotHalted then s
    else Calls(env, OneCall(env, s, calls[0]), calls[1..])
  }

  datatype Final = Final(state: RunState, text: string, s: State, requests: seq<seq<Item>>)

  // The rest of the loop, after `requests` were sent.
  function Iterate(env: Env, s: State, requests: seq<seq<Item>>): Final
    decreases env.maxIterations - |requests|
  {
    if |requests| >= env.maxIterations then Final(RunFailed, "", s.(halted := OutOfIterations), requests)
    else
      var sent := requests + [s.items];
      var reply := env.model(|requests|, s.items);
      if !reply.ok then Final(RunFailed, "", s.(halted := NotHalted), sent)
      else if reply.calls == [] then Final(RunCompleted, reply.content, s, sent)
      else
        var t := Calls(env, s.(items := s.items + [Assistant(reply.content, reply.calls)]), reply.calls);
        if t.halted == NotHalted then Iterate(env, t, sent)
        else Final(if t.halted.ForApproval? then RunNeedsApproval else RunFailed, "", t, sent)
  }

  function Prompts(texts: seq<string>): seq<Item> {
    seq(|texts|, i requires 0 <= i < |texts| => Prompt(texts[i]))
  }

  function Start(env: Env, approvals: seq<A.Approval>): State {
    State(Prompts(env.prompts), [], approvals, NotHalted, 0)
  }

  function Loop(env: Env, approvals: seq<A.Approval>): Final {
    Iterate(env, Start(env, approvals), [])
  }

  // --- budgets ---

  predicate WithinCalls(env: Env, s: State) {
    |s.log| <= if env.maxCalls > 0 then env.maxCalls else 0
  }

  lemma {:induction false} CallsWithinBudget(env: Env, s: State, calls: seq<Call>)
    requires WithinCalls(env, s)
    ensures WithinCalls(env, Calls(env, s, calls))
    decreases |calls|
  {
    if calls != [] && s.halted == NotHalted {
      CallsWithinBudget(env, OneCall(env, s, calls[0]), calls[1..]);
    }
  }

  lemma {:induction false} IterateWithinBudget(env: Env, s: State, requests: seq<seq<Item>>)
    requires WithinCalls(env, s) && |requests| <= (if env.maxIterations > 0 then env.maxIterations else 0)
    ensures WithinCalls(env, Iterate(env, s, requests).s)
    ensures |Iterate(env, s, requests).requests| <= if env.maxIterations > 0 then env.maxIterations else 0
    decreases env.maxIterations - |requests|
  {
    if |requests| < env.maxIterations {
      var reply := env.model(|requests|, s.items);
      if reply.ok && reply.calls != [] {
        var started := s.(items := s.items + [Assistant(reply.content, reply.calls)]);
        CallsWithinBudget(env, started, reply.calls);
        var t := Calls(env, started, reply.calls);
        if t.halted == NotHalted {
          IterateWithinBudget(env, t, requests + [s.items]);
        }
      }
    }
  }

  // Whatever the model answers: at most max_iterations requests and max_tool_calls dispatches.
  lemma LoopWithinBudget(env: Env, approvals: seq<A.Approval>)
    ensures |Loop(env, approvals).requests| <= if env.maxIterations > 0 then env.maxIterations else 0
    ensures |Loop(env, approvals).s.log| <= if env.maxCalls > 0 then env.maxCalls else 0
  {
    IterateWithinBudget(env, Start(env, approvals), []);
  }

  // --- transcripts ---

  // The first calls of a turn, answered one by one in order.
  predicate AnsweredBy(calls: seq<Call>, results: seq<Item>) {
    |results| <= |calls|
    && forall i :: 0 <= i < |results| ==> results[i].ToolResult? && results[i].callId == calls[i].id
  }

  // A transcript in which every assistant turn is followed by exactly one result per call, in order.
  predicate Answered(items: seq<Item>)
    decreases |items|
  {
    if items == [] then true
    else
      match items[0]
      case Prompt(_) => Answered(items[1..])
      case Assistant(_, calls) =>
        |items| >= 1 + |calls| && AnsweredBy(calls, items[1..1 + |calls|]) && Answered(items[1 + |calls|..])
      case ToolResult(_, _) => false
  }

  lemma {:induction false} AnsweredConcat(a: seq<Item>, b: seq<Item>)
    requires Answered(a) && Answered(b)
    ensures Answered(a + b)
    decreases |a|
  {
    if a == [] {
      assert a + b == b;
    } else {
      var n := if a[0].Assistant? then 1 + |a[0].calls| else 1;
      assert (a + b)[n..] == a[n..] + b;
      assert (a + b)[1..n] == a[1..n];
      AnsweredConcat(a[n..], b);
    }
  }

  lemma {:induction false} PromptsAnswered(texts: seq<string>)
    ensures Answered(Prompts(texts))
  {
    if texts != [] {
      assert Prompts(texts)[1..] == Prompts(texts[1..]);
      PromptsAnswered(texts[1..]);
    }
  }

  // The calls of one turn, `done` of them handled: the turn's results so far line up with its calls.
  lemma {:induction false} CallsAnswered(env: Env, s: State, before: seq<Item>, calls: seq<Call>, done: seq<Item>, k: nat)
    requires s.halted == NotHalted && k <= |calls| && |done| == k && AnsweredBy(calls, done)
    requires s.items == before + done
    ensures var t := Calls(env, s, calls[k..]);
            t.halted == NotHalted ==>
              |t.items| == |before| + |calls| && t.items[..|before|] == before && AnsweredBy(calls, t.items[|before|..])
    decreases |calls| - k
  {
    if k < |calls| {
      var t := OneCall(env, s, calls[k]);
      assert calls[k..][0] == calls[k] && calls[k..][1..] == calls[k + 1..];
      if t.halted == NotHalted {
        var last := t.items[|s.items|];
        assert t.items == before + (done + [last]);
        CallsAnswered(env, t, before, calls, done + [last], k + 1);
      }
    } else {
      assert calls[k..] == [];
      assert s.items[|before|..] == done;
    }
  }

  lemma TurnAnswered(env: Env, s: State, content: string, calls: seq<Call>)
    requires s.halted == NotHalted && Answered(s.items)
    ensures var t := Calls(env, s.(items := s.items + [Assistant(content, calls)]), calls);
            t.halted == NotHalted ==> Answered(t.items)
  {
    var before := s.items + [Assistant(content, calls)];
    var t := Calls(env, s.(items := before), calls);
    assert calls[0..] == calls && before == before + [];
    CallsAnswered(env, s.(items := before), before, calls, [], 0);
    if t.halted == NotHalted {
      var results := t.items[|before|..];
      assert |results| == |calls|;
      var turn := [Assistant(content, calls)] + results;
      assert turn[1..] == results && turn[1..1 + |calls|] == results[..|calls|] == results;
      assert turn[1 + |calls|..] == [];
      assert t.items == t.items[..|before|] + t.items[|before|..];
      assert t.items == s.items + turn;
      AnsweredConcat(s.items, turn);
    }
  }

  lemma {:induction false} IterateAnswered(env: Env, s: State, requests: seq<seq<Item>>)
    requires s.halted == NotHalted && Answered(s.items)
    requires forall i :: 0 <= i < |requests| ==> Answered(requests[i])
    ensures forall i :: 0 <= i < |Iterate(env, s, requests).requests| ==> Answered(Iterate(env, s, requests).requests[i])
    decreases env.maxIterations - |requests|
  {
    if |requests| < env.maxIterations {
      var reply := env.model(|requests|, s.items);
      if reply.ok && reply.calls != [] {
        TurnAnswered(env, s, reply.content, reply.calls);
        var t := Calls(env, s.(items := s.items + [Assistant(reply.content, reply.calls)]), reply.calls);
        if t.halted == NotHalted {
          IterateAnswered(env, t, requests + [s.items]);
        }
      }
    }
  }

  // No request ever reaches the model with a tool call left unanswered, answered twice or answered out of order.
  lemma EveryRequestIsAnswered(env: Env, approvals: seq<A.Approval>)
    ensures forall i :: 0 <= i < |Loop(env, approvals).requests| ==> Answered(Loop(env, approvals).requests[i])
  {
    PromptsAnswered(env.prompts);
    IterateAnswered(env, Start(env, approvals), []);
  }

  // --- what the model is shown ---

  // Each request is the one before it, what the model replied to that, and more.
  predicate Follows(env: Env, requests: seq<seq<Item>>, i: nat)
    requires i + 1 < |requests|
  {
    var reply := env.model(i, requests[i]);
    reply.ok && reply.calls != [] && requests[i] + [Assistant(reply.content, reply.calls)] <= requests[i + 1]
  }

  lemma {:induction false} CallsOnlyAdd(env: Env, s: State, calls: seq<Call>)
    ensures s.items <= Calls(env, s, calls).items
    decreases |calls|
  {
    if calls != [] && s.halted == NotHalted {
      CallsOnlyAdd(env, OneCall(env, s, calls[0]), calls[1..]);
    }
  }

  lemma {:induction false} IterateFollows(env: Env, s: State, requests: seq<seq<Item>>)
    requires s.halted == NotHalted
    requires forall i: nat :: i + 1 < |requests| ==> Follows(env, requests, i)
    requires requests != [] && |requests| < env.maxIterations ==> Follows(env, requests + [s.items], |requests| - 1)
    ensures var f := Iterate(env, s, requests);
            && requests <= f.requests
            && (|requests| < env.maxIterations ==> |f.requests| > |requests| && f.requests[|requests|] == s.items)
            && forall i: nat :: i + 1 < |f.requests| ==> Follows(env, f.requests, i)
    decreases env.maxIterations - |requests|
  {
    if |requests| < env.maxIterations {
      var sent := requests + [s.items];
      forall i: nat | i + 1 < |sent| ensures Follows(env, sent, i) {
        if i + 1 < |requests| {
          assert Follows(env, requests, i) && sent[i] == requests[i] && sent[i + 1] == requests[i + 1];
        }
      }
      var reply := env.model(|requests|, s.items);
      if reply.ok && reply.calls != [] {
        var asked := s.(items := s.items + [Assistant(reply.content, reply.calls)]);
        var t := Calls(env, asked, reply.calls);
        CallsOnlyAdd(env, asked, reply.calls);
        if t.halted == NotHalted {
          assert (sent + [t.items])[|requests|] == s.items && (sent + [t.items])[|requests| + 1] == t.items;
          IterateFollows(env, t, sent);
        }
      }
    }
  }

  // The first request is the prompts; each later one repeats the one before it, adds what the model then said, and
  // continues with the answers to it.
  lemma RequestsGrow(env: Env, approvals: seq<A.Approval>)
    ensures var requests := Loop(env, approvals).requests;
            && (env.maxIterations > 0 ==> requests != [])
            && (requests != [] ==> requests[0] == Prompts(env.prompts))
            && forall i: nat :: i + 1 < |requests| ==> Follows(env, requests, i)
  {
    IterateFollows(env, Start(env, approvals), []);
    assert Start(env, approvals).items == Prompts(env.prompts);
  }

  // --- outcome ---

  predicate Finishes(reply: Reply) {
    reply.ok && reply.calls == []
  }

  // What the model answered to each request sent.
  function ReplyTo(env: Env, f: Final, i: nat): Reply
    requires i < |f.requests|
  {
    env.model(i, f.requests[i])
  }

  lemma {:induction false} IterateOutcome(env: Env, s: State, requests: seq<seq<Item>>)
    requires s.halted == NotHalted
    requires forall i: nat :: i < |requests| ==> !Finishes(env.model(i, requests[i]))
    ensures var f := Iterate(env, s, requests);
            && (f.state == RunCompleted <==> exists i: nat :: i < |f.requests| && Finishes(ReplyTo(env, f, i)))
            && (f.state == RunNeedsApproval <==> f.s.halted.ForApproval?)
            && (f.state == RunCompleted ==> f.s.halted == NotHalted && f.text == ReplyTo(env, f, |f.requests| - 1).content)
    decreases env.maxIterations - |requests|
  {
    var f := Iterate(env, s, requests);
    if |requests| < env.maxIterations {
      var reply := env.model(|requests|, s.items);
      var sent := requests + [s.items];
      assert forall i: nat :: i < |requests| ==> sent[i] == requests[i];
      if Finishes(reply) {
        assert f.requests == sent && ReplyTo(env, f, |requests|) == reply;
      } else {
        assert forall i: nat :: i < |sent| ==> !Finishes(env.model(i, sent[i]));
        if reply.ok {
          var t := Calls(env, s.(items := s.items + [Assistant(reply.content, reply.calls)]), reply.calls);
          if t.halted == NotHalted {
            IterateOutcome(env, t, sent);
          } else {
            HaltsOnlyInside(env, s.(items := s.items + [Assistant(reply.content, reply.calls)]), reply.calls);
          }
        }
      }
    }
  }

  lemma {:induction false} HaltsOnlyInside(env: Env, s: State, calls: seq<Call>)
    requires s.halted == NotHalted
    ensures Calls(env, s, calls).halted != OutOfIterations
    decreases |calls|
  {
    if calls != [] {
      var t := OneCall(env, s, calls[0]);
      if t.halted == NotHalted {
        HaltsOnlyInside(env, t, calls[1..]);
      }
    }
  }

  // The run is completed exactly when the model answered some request with plain text, held for approval exactly
  // when the gate halted it, and failed otherwise: running out of either budget is never success.
  lemma LoopOutcome(env: Env, approvals: seq<A.Approval>)
    ensures var f := Loop(env, approvals);
            && (f.state == RunCompleted <==> exists i: nat :: i < |f.requests| && Finishes(ReplyTo(env, f, i)))
            && (f.state == RunNeedsApproval <==> f.s.halted.ForApproval?)
            && (f.state == RunCompleted ==> f.s.halted == NotHalted && f.text == ReplyTo(env, f, |f.requests| - 1).content)
  {
    IterateOutcome(env, Start(env, approvals), []);
  }

  // --- what was dispatched ---

  // A human has to agree: the ticket asked for it, or the action is risky and the agent not autonomous.
  predicate NeedsAgreement(env: Env, action: string) {
    env.ticketGate || (env.capability(action).risky && !env.autonomous)
  }

  // Only offered actions the policy permits ran; on a human's word exactly where one is needed.
  predicate Lawful(env: Env, d: Dispatch) {
    && d.action in env.actions && env.capability(d.action).permitted
    && (d.gated <==> NeedsAgreement(env, d.action))
  }

  // The five ways one call can go. Each is decided by the allowlist, the policy, who has to agree, the approvals open for
  // this task and action, and the budget; `now` is the state after what others did to the queue.
  predicate Refused(env: Env, action: string) {
    action !in env.actions || !env.capability(action).permitted
  }

  predicate Waits(env: Env, now: State, action: string) {
    NeedsAgreement(env, action) && A.Open(now.approvals, env.task, action) == 0
  }

  // What one call does: refused, it is answered with the reason and nothing else happens; without the agreement it
  // needs, the run halts for it and one pending request for exactly this task and action is filed; past the budget the
  // run halts; otherwise it is dispatched with its arguments, using up one approval exactly where agreement is needed,
  // and answered with the handler's output.
  lemma WhatOneCallDoes(env: Env, s: State, call: Call)
    requires s.halted == NotHalted
    ensures var now := Meanwhile(env, s);
            var action := Lookup(env.actions, call.name);
            var t := OneCall(env, s, call);
            && (Refused(env, action) ==>
                  t == now.(items := now.items
                                     + [ToolResult(call.id, if action in env.actions then DeniedByPolicy else NotPermitted)]))
            && (!Refused(env, action) && Waits(env, now, action) ==>
                  && t == now.(approvals := t.approvals, halted := ForApproval(action))
                  && multiset(t.approvals)
                     == multiset(now.approvals)
                        + multiset{A.Approval(env.newId, env.newCode, A.Pending, env.task, action, false)})
            && (!Refused(env, action) && !Waits(env, now, action) && |s.log| >= env.maxCalls ==>
                  t == now.(approvals := t.approvals, halted := OutOfCalls))
            && (!Refused(env, action) && !Waits(env, now, action) && |s.log| < env.maxCalls ==>
                  && t == now.(approvals := t.approvals,
                               log := s.log + [Dispatch(action, call.args, NeedsAgreement(env, action))],
                               items := s.items
                                        + [ToolResult(call.id, Output(env.handler(|s.log|, action, call.args)))])
                  && A.Open(t.approvals, env.task, action)
                     == A.Open(now.approvals, env.task, action) - if NeedsAgreement(env, action) then 1 else 0)
  {
    var now := Meanwhile(env, s);
    var action := Lookup(env.actions, call.name);
    A.GateOpensExactly(now.approvals, env.task, action);
    A.StepConserves(now.approvals, A.TakeApproved(env.task, action), env.task, action);
    A.InsertedAddsOne(now.approvals, env.newAt, A.Approval(env.newId, env.newCode, A.Pending, env.task, action, false));
  }

  predicate AllLawful(env: Env, log: seq<Dispatch>) {
    forall i :: 0 <= i < |log| ==> Lawful(env, log[i])
  }

  function GatedRuns(log: seq<Dispatch>, action: string): nat {
    if log == [] then 0
    else GatedRuns(log[..|log| - 1], action)
         + if log[|log| - 1].gated && log[|log| - 1].action == action then 1 else 0
  }

  // Approvals used up by an action: those spent on dispatches, plus at most the one whose call then met the
  // exhausted call budget.
  function Burnt(s: State, task: string, action: string): nat {
    GatedRuns(s.log, action) + A.Open(s.approvals, task, action)
  }

  lemma HandledConserves(env: Env, s: State, call: Call, action: string)
    requires s.halted == NotHalted && AllLawful(env, s.log)
    ensures var t := Handled(env, s, call);
            && AllLawful(env, t.log)
            && Burnt(t, env.task, action) <= Burnt(s, env.task, action) <= Burnt(t, env.task, action) + 1
            && (t.halted != OutOfCalls ==> Burnt(t, env.task, action) == Burnt(s, env.task, action))
            && (forall task :: task != env.task ==> A.Open(t.approvals, task, action) == A.Open(s.approvals, task, action))
  {
    var t := Handled(env, s, call);
    var chosen := Lookup(env.actions, call.name);
    var req := A.Request(env.newAt, env.newId, env.newCode, env.task, chosen);
    var take := A.TakeApproved(env.task, chosen);
    forall task ensures A.Open(A.Step(s.approvals, req), task, action) == A.Open(s.approvals, task, action) {
      A.StepConserves(s.approvals, req, task, action);
    }
    forall task
      ensures A.Open(A.Step(s.approvals, take), task, action)
              + (if A.Spends(s.approvals, take, task, action) then 1 else 0) == A.Open(s.approvals, task, action)
    {
      A.StepConserves(s.approvals, take, task, action);
    }
    if t.log != s.log {
      assert t.log[..|t.log| - 1] == s.log;
    }
  }

  // The one way a run loses an approval: the gate consumes it before the call budget is checked.
  lemma ApprovalLostExactly(env: Env, s: State, call: Call)
    requires s.halted == NotHalted
    ensures var now := Meanwhile(env, s);
            var action := Lookup(env.actions, call.name);
            Burnt(OneCall(env, s, call), env.task, action) < Burnt(now, env.task, action)
            <==> action in env.actions
                 && env.capability(action).permitted && NeedsAgreement(env, action)
                 && A.Takes(now.approvals, A.Approved, env.task, action)
                 && |s.log| >= env.maxCalls
  {
    LostExactly(env, Meanwhile(env, s), call);
  }

  lemma LostExactly(env: Env, s: State, call: Call)
    requires s.halted == NotHalted
    ensures var action := Lookup(env.actions, call.name);
            Burnt(Handled(env, s, call), env.task, action) < Burnt(s, env.task, action)
            <==> action in env.actions
                 && env.capability(action).permitted && NeedsAgreement(env, action)
                 && A.Takes(s.approvals, A.Approved, env.task, action)
                 && |s.log| >= env.maxCalls
  {
    var t := Handled(env, s, call);
    var action := Lookup(env.actions, call.name);
    A.StepConserves(s.approvals, A.Request(env.newAt, env.newId, env.newCode, env.task, action), env.task, action);
    A.StepConserves(s.approvals, A.TakeApproved(env.task, action), env.task, action);
    if t.log != s.log {
      assert t.log[..|t.log| - 1] == s.log;
    }
  }

  // --- answers that arrive during the run ---

  // By how much the others changed the approvals open for a task and action, just before this call.
  function GainNow(env: Env, s: State, task: string, action: string): int {
    A.Open(Meanwhile(env, s).approvals, task, action) - A.Open(s.approvals, task, action)
  }

  function GainIn(env: Env, s: State, calls: seq<Call>, task: string, action: string): int
    decreases |calls|
  {
    if calls == [] || s.halted != NotHalted then 0
    else GainNow(env, s, task, action) + GainIn(env, OneCall(env, s, calls[0]), calls[1..], task, action)
  }

  function Asked(s: State, reply: Reply): State {
    s.(items := s.items + [Assistant(reply.content, reply.calls)])
  }

  function Gain(env: Env, s: State, requests: seq<seq<Item>>, task: string, action: string): int
    decreases env.maxIterations - |requests|
  {
    if |requests| >= env.maxIterations then 0
    else
      var reply := env.model(|requests|, s.items);
      if !reply.ok || reply.calls == [] then 0
      else
        var t := Calls(env, Asked(s, reply), reply.calls);
        GainIn(env, Asked(s, reply), reply.calls, task, action)
        + if t.halted == NotHalted then Gain(env, t, requests + [s.items], task, action) else 0
  }

  // What humans granted for a task and action while the run was under way.
  function GrantedNow(env: Env, s: State, task: string, action: string): nat {
    A.Granted(s.approvals, env.meanwhile(s.handled), task, action)
  }

  function GrantedIn(env: Env, s: State, calls: seq<Call>, task: string, action: string): nat
    decreases |calls|
  {
    if calls == [] || s.halted != NotHalted then 0
    else GrantedNow(env, s, task, action) + GrantedIn(env, OneCall(env, s, calls[0]), calls[1..], task, action)
  }

  function GrantedMeanwhile(env: Env, s: State, requests: seq<seq<Item>>, task: string, action: string): nat
    decreases env.maxIterations - |requests|
  {
    if |requests| >= env.maxIterations then 0
    else
      var reply := env.model(|requests|, s.items);
      if !reply.ok || reply.calls == [] then 0
      else
        var t := Calls(env, Asked(s, reply), reply.calls);
        GrantedIn(env, Asked(s, reply), reply.calls, task, action)
        + if t.halted == NotHalted then GrantedMeanwhile(env, t, requests + [s.items], task, action) else 0
  }

  lemma {:induction false} GainInAtMostGranted(env: Env, s: State, calls: seq<Call>, task: string, action: string)
    ensures GainIn(env, s, calls, task, action) <= GrantedIn(env, s, calls, task, action)
    decreases |calls|
  {
    if calls != [] && s.halted == NotHalted {
      A.Conservation(s.approvals, env.meanwhile(s.handled), task, action);
      GainInAtMostGranted(env, OneCall(env, s, calls[0]), calls[1..], task, action);
    }
  }

  lemma {:induction false} GainAtMostGranted(env: Env, s: State, requests: seq<seq<Item>>, task: string, action: string)
    ensures Gain(env, s, requests, task, action) <= GrantedMeanwhile(env, s, requests, task, action)
    decreases env.maxIterations - |requests|
  {
    if |requests| < env.maxIterations {
      var reply := env.model(|requests|, s.items);
      if reply.ok && reply.calls != [] {
        GainInAtMostGranted(env, Asked(s, reply), reply.calls, task, action);
        var t := Calls(env, Asked(s, reply), reply.calls);
        if t.halted == NotHalted {
          GainAtMostGranted(env, t, requests + [s.items], task, action);
        }
      }
    }
  }

  // The balance of a stretch of the run: what was open before and gained meanwhile is what was used and is open after,
  // but for the one approval that a run stopped by its call budget may lose.
  predicate Balances(env: Env, s: State, t: State, gain: int, action: string) {
    && AllLawful(env, t.log)
    && Burnt(t, env.task, action) <= Burnt(s, env.task, action) + gain <= Burnt(t, env.task, action) + 1
    && (t.halted != OutOfCalls ==> Burnt(t, env.task, action) == Burnt(s, env.task, action) + gain)
  }

  lemma OneCallConserves(env: Env, s: State, call: Call, action: string)
    requires s.halted == NotHalted && AllLawful(env, s.log)
    ensures var t := OneCall(env, s, call);
            && Balances(env, s, t, GainNow(env, s, env.task, action), action)
            && forall task :: task != env.task ==>
                 A.Open(t.approvals, task, action) == A.Open(s.approvals, task, action) + GainNow(env, s, task, action)
  {
    HandledConserves(env, Meanwhile(env, s), call, action);
  }

  lemma {:induction false} CallsConserve(env: Env, s: State, calls: seq<Call>, action: string)
    requires s.halted == NotHalted && AllLawful(env, s.log)
    ensures var t := Calls(env, s, calls);
            && Balances(env, s, t, GainIn(env, s, calls, env.task, action), action)
            && forall task :: task != env.task ==>
                 A.Open(t.approvals, task, action) == A.Open(s.approvals, task, action) + GainIn(env, s, calls, task, action)
    decreases |calls|
  {
    if calls != [] {
      OneCallConserves(env, s, calls[0], action);
      var t := OneCall(env, s, calls[0]);
      if t.halted == NotHalted {
        CallsConserve(env, t, calls[1..], action);
      }
    }
  }

  lemma {:induction false} IterateConserves(env: Env, s: State, requests: seq<seq<Item>>, action: string)
    requires s.halted == NotHalted && AllLawful(env, s.log)
    ensures var t := Iterate(env, s, requests).s;
            && Balances(env, s, t, Gain(env, s, requests, env.task, action), action)
            && forall task :: task != env.task ==>
                 A.Open(t.approvals, task, action) == A.Open(s.approvals, task, action) + Gain(env, s, requests, task, action)
    decreases env.maxIterations - |requests|
  {
    if |requests| < env.maxIterations {
      var reply := env.model(|requests|, s.items);
      if reply.ok && reply.calls != [] {
        CallsConserve(env, Asked(s, reply), reply.calls, action);
        var t := Calls(env, Asked(s, reply), reply.calls);
        if t.halted == NotHalted {
          IterateConserves(env, t, requests + [s.items], action);
        }
      }
    }
  }

  // One run, whatever is answered meanwhile: every dispatch is lawful, and gated dispatches of an action plus the
  // approvals then open for it are exactly those open before and those gained meanwhile, except that a run stopped by
  // the call budget may lose one. For other tasks the run itself changes nothing.
  lemma LoopConserves(env: Env, approvals: seq<A.Approval>, action: string)
    ensures var f := Loop(env, approvals);
            var used := GatedRuns(f.s.log, action) + A.Open(f.s.approvals, env.task, action);
            var given := A.Open(approvals, env.task, action) + Gain(env, Start(env, approvals), [], env.task, action);
            && AllLawful(env, f.s.log)
            && used <= given <= used + 1 && (f.s.halted != OutOfCalls ==> used == given)
            && forall task :: task != env.task ==>
                 A.Open(f.s.approvals, task, action)
                 == A.Open(approvals, task, action) + Gain(env, Start(env, approvals), [], task, action)
  {
    IterateConserves(env, Start(env, approvals), [], action);
  }

  // --- across runs ---

  // The queue is shared by runs of any tasks and by humans answering between and during them.
  datatype Event = AgentRun(env: Env) | Other(op: A.Op)

  function After(rs: seq<A.Approval>, e: Event): seq<A.Approval> {
    match e
    case AgentRun(env) => Loop(env, rs).s.approvals
    case Other(op) => A.Step(rs, op)
  }

  function History(rs: seq<A.Approval>, events: seq<Event>): seq<A.Approval>
    decreases |events|
  {
    if events == [] then rs else History(After(rs, events[0]), events[1..])
  }

  function GatedBy(rs: seq<A.Approval>, e: Event, task: string, action: string): nat {
    match e
    case AgentRun(env) => if env.task == task then GatedRuns(Loop(env, rs).s.log, action) else 0
    case Other(op) => 0
  }

  function GrantedBy(rs: seq<A.Approval>, e: Event, task: string, action: string): nat {
    match e
    case AgentRun(env) => GrantedMeanwhile(env, Start(env, rs), [], task, action)
    case Other(op) => if A.Grants(rs, op, task, action) then 1 else 0
  }

  function GatedTotal(rs: seq<A.Approval>, events: seq<Event>, task: string, action: string): nat
    decreases |events|
  {
    if events == [] then 0
    else GatedBy(rs, events[0], task, action) + GatedTotal(After(rs, events[0]), events[1..], task, action)
  }

  function GrantedTotal(rs: seq<A.Approval>, events: seq<Event>, task: string, action: string): nat
    decreases |events|
  {
    if events == [] then 0
    else GrantedBy(rs, events[0], task, action) + GrantedTotal(After(rs, events[0]), events[1..], task, action)
  }

  // Across all runs of all agents, with humans answering between them and between any two calls of one, gated dispatches
  // of an action for a task never outnumber the approvals humans gave for it.
  lemma {:induction false} DispatchesNeverExceedApprovals(rs: seq<A.Approval>, events: seq<Event>, task: string,
                                                          action: string)
    ensures GatedTotal(rs, events, task, action) + A.Open(History(rs, events), task, action)
            <= A.Open(rs, task, action) + GrantedTotal(rs, events, task, action)
    decreases |events|
  {
    if events != [] {
      match events[0] {
        case AgentRun(env) =>
          LoopConserves(env, rs, action);
          GainAtMostGranted(env, Start(env, rs), [], task, action);
        case Other(op) => A.StepConserves(rs, op, task, action);
      }
      DispatchesNeverExceedApprovals(After(rs, events[0]), events[1..], task, action);
    }
  }

  // --- the loop as the runtime runs it ---

  method RunTaskLoop(env: Env, queue: A.ApprovalQueue)
    returns (state: RunState, finalText: string, items: seq<Item>, toolCalls: seq<Dispatch>, halted: Halt,
             requests: seq<seq<Item>>, handled: nat)
    modifies queue
    ensures var f := Loop(env, old(queue.records));
            && state == f.state && finalText == f.text && requests == f.requests
            && State(items, toolCalls, queue.records, halted, handled) == f.s
  {
    items := Prompts(env.prompts);
    toolCalls := [];
    halted := NotHalted;
    finalText := "";
    requests := [];
    handled := 0;
    ghost var start := queue.records;
    while |requests| < env.maxIterations
      invariant halted == NotHalted
      invariant Iterate(env, State(items, toolCalls, queue.records, NotHalted, handled), requests) == Loop(env, start)
      decreases env.maxIterations - |requests|
    {
      var result := env.model(|requests|, items);
      requests := requests + [items];
      if !result.ok {
        state := RunFailed;
        return;
      }
      if result.calls == [] {
        finalText := result.content;
        state := RunCompleted;
        return;
      }
      items := items + [Assistant(result.content, result.calls)];
      ghost var turn := State(items, toolCalls, queue.records, NotHalted, handled);
      var i := 0;
      while i < |result.calls| && halted == NotHalted
        invariant i <= |result.calls|
        invariant Calls(env, State(items, toolCalls, queue.records, halted, handled), result.calls[i..])
                  == Calls(env, turn, result.calls)
        decreases |result.calls| - i
      {
        ghost var here := State(items, toolCalls, queue.records, halted, handled);
        assert result.calls[i..][0] == result.calls[i] && result.calls[i..][1..] == result.calls[i + 1..];
        ghost var now := Meanwhile(env, here);
        queue.OthersAct(env.meanwhile(handled));
        handled := handled + 1;
        assert State(items, toolCalls, queue.records, halted, handled) == now;
        items, toolCalls, halted := HandleCall(env, queue, result.calls[i], items, toolCalls, handled);
        i := i + 1;
      }
      assert Calls(env, turn, result.calls) == State(items, toolCalls, queue.records, halted, handled);
      if halted != NotHalted {
        state := if halted.ForApproval? then RunNeedsApproval else RunFailed;
        return;
      }
    }
    halted := OutOfIterations;
    state := RunFailed;
  }

  // One requested call: allowlist, gate, approval, budget, dispatch.
  method HandleCall(env: Env, queue: A.ApprovalQueue, call: Call, items0: seq<Item>, log0: seq<Dispatch>,
                    ghost handled: nat)
    returns (items: seq<Item>, toolCalls: seq<Dispatch>, halted: Halt)
    modifies queue
    ensures State(items, toolCalls, queue.records, halted, handled)
            == Handled(env, State(items0, log0, old(queue.records), NotHalted, handled), call)
  {
    items, toolCalls, halted := items0, log0, NotHalted;
    var action := Lookup(env.actions, call.name);
    if action !in env.actions {
      items := items + [ToolResult(call.id, NotPermitted)];
      return;
    }
    var verdict := Gate(env.capability(action), env.autonomous, env.ticketGate);
    var approved := false;
    if verdict == NeedsHuman {
      approved := queue.ConsumeIf(A.Approved, env.task, action);
      if approved {
        verdict := Allow;
      }
    }
    if verdict == NeedsHuman {
      queue.RequestApproval(env.newAt, env.newId, env.newCode, env.task, action);
      halted := ForApproval(action);
      return;
    }
    if verdict == Deny {
      items := items + [ToolResult(call.id, DeniedByPolicy)];
      return;
    }
    if |toolCalls| >= env.maxCalls {
      halted := OutOfCalls;
      return;
    }
    var output := env.handler(|toolCalls|, action, call.args);
    toolCalls := toolCalls + [Dispatch(action, call.args, approved)];
    items := items + [ToolResult(call.id, Output(output))];
  }
}
