// Completion-driven handoffs over a routing graph that may be cyclic: the hop limit makes every cascade end.
module RoutingHandoffs {
  import opened Text

  // An entry of a team's `routing.handoffs`: anything the config file held.
  datatype Entry = Malformed | Rule(from: Option<string>, to: Option<string>, when: Option<string>)

  // `rules` is absent when `routing.handoffs` is missing or not a list.
  datatype Routing = Routing(managed: bool, rules: Option<seq<Entry>>)

  datatype Task = Task(member: string, hops: nat)

  predicate Eligible(rule: Entry, from: string, signal: Option<string>) {
    && rule.Rule? && rule.from == Some(from)
    && rule.to.Some? && rule.to.value != ""
    && (signal.None? || rule.when == signal)
  }

  function EligibleRules(rules: seq<Entry>, from: string, signal: Option<string>): (r: seq<Entry>)
    ensures |r| <= |rules|
    ensures forall i :: 0 <= i < |r| ==> r[i] in rules && Eligible(r[i], from, signal)
  {
    if rules == [] then []
    else if Eligible(rules[0], from, signal) then [rules[0]] + EligibleRules(rules[1..], from, signal)
    else EligibleRules(rules[1..], from, signal)
  }

  function Spawned(rules: seq<Entry>, hops: nat): (r: seq<Task>)
    requires forall i :: 0 <= i < |rules| ==> rules[i].Rule? && rules[i].to.Some?
    ensures |r| == |rules|
    ensures forall i :: 0 <= i < |r| ==> r[i] == Task(rules[i].to.value, hops + 1)
  {
    if rules == [] then [] else [Task(rules[0].to.value, hops + 1)] + Spawned(rules[1..], hops)
  }

  // fire_handoffs: the tasks one completion creates; `team` is absent when the team is unknown.
  function Fired(team: Option<Routing>, from: string, signal: Option<string>, hops: nat, maxHops: int): seq<Task> {
    if team.None? || team.value.managed || team.value.rules.None? then []
    else
      var rules := EligibleRules(team.value.rules.value, from, signal);
      if rules == [] || hops >= maxHops then [] else Spawned(rules, hops)
  }

  // What one completion creates: one task per eligible rule, for its receiver and one hop further, unless the team is
  // unknown, runs the ticket lifecycle, lists no rules, or the hops are used up.
  lemma FiredExactly(team: Option<Routing>, from: string, signal: Option<string>, hops: nat, maxHops: int)
    ensures var created := Fired(team, from, signal, hops, maxHops);
            if team.None? || team.value.managed || team.value.rules.None? || hops >= maxHops then created == []
            else
              var rules := EligibleRules(team.value.rules.value, from, signal);
              |created| == |rules|
              && forall i :: 0 <= i < |rules| ==> created[i].hops == hops + 1 && rules[i].to == Some(created[i].member)
  {
  }

  lemma {:induction false} EligibleRulesConcat(a: seq<Entry>, b: seq<Entry>, from: string, signal: Option<string>)
    ensures EligibleRules(a + b, from, signal) == EligibleRules(a, from, signal) + EligibleRules(b, from, signal)
  {
    if a == [] {
      assert a + b == b;
    } else {
      assert (a + b)[1..] == a[1..] + b;
      EligibleRulesConcat(a[1..], b, from, signal);
    }
  }

  method EligibleHandoffs(team: Routing, from: string, signal: Option<string>) returns (out: seq<Entry>)
    ensures out == if team.rules.None? then [] else EligibleRules(team.rules.value, from, signal)
    ensures forall rule :: rule in out <==>
              team.rules.Some? && rule in team.rules.value && Eligible(rule, from, signal)
  {
    if team.rules.None? {
      return [];
    }
    var rules := team.rules.value;
    out := [];
    for i := 0 to |rules|
      invariant out == EligibleRules(rules[..i], from, signal)
      invariant forall rule :: rule in out <==> rule in rules[..i] && Eligible(rule, from, signal)
    {
      var rule := rules[i];
      assert rules[..i + 1] == rules[..i] + [rule];
      EligibleRulesConcat(rules[..i], [rule], from, signal);
      if rule.Malformed? || rule.from != Some(from) || rule.to.None? || rule.to.value == "" {
        continue;
      }
      if signal.Some? && rule.when != signal {
        continue;
      }
      out := out + [rule];
    }
    assert rules[..|rules|] == rules;
  }

  // --- runs ---

  // What happens to the team's tasks; `team` is the routing config loaded at a completion, so configs may change. A run
  // that fails fires nothing. A task that ended can be put back to pending, by an approval or a handoff of its ticket,
  // and then completes again at the hops it had; any task can be given to another member.
  datatype Step =
    | Complete(index: nat, team: Option<Routing>)
    | Fail(index: nat)
    | Reopen(index: nat, member: string)
    | Reassign(index: nat, member: string)

  // Open tasks, ended ones, and every task as it was created.
  datatype Work = Work(open: seq<Task>, ended: seq<Task>, all: seq<Task>)

  function Without(tasks: seq<Task>, i: nat): seq<Task>
    requires i < |tasks|
  {
    tasks[..i] + tasks[i + 1..]
  }

  predicate Finds(w: Work, s: Step) {
    match s
    case Complete(i, _) => i < |w.open|
    case Fail(i) => i < |w.open|
    case Reopen(i, _) => i < |w.ended|
    case Reassign(i, _) => i < |w.open|
  }

  function Next(w: Work, s: Step, maxHops: int): Work {
    if !Finds(w, s) then w
    else
      match s
      case Complete(i, team) =>
        var t := w.open[i];
        var created := Fired(team, t.member, None, t.hops, maxHops);
        Work(Without(w.open, i) + created, w.ended + [t], w.all + created)
      case Fail(i) => Work(Without(w.open, i), w.ended + [w.open[i]], w.all)
      case Reopen(i, member) => Work(w.open + [Task(member, w.ended[i].hops)], Without(w.ended, i), w.all)
      case Reassign(i, member) => w.(open := w.open[i := Task(member, w.open[i].hops)])
  }

  function Run(w: Work, steps: seq<Step>, maxHops: int): Work
    decreases |steps|
  {
    if steps == [] then w else Run(Next(w, steps[0], maxHops), steps[1..], maxHops)
  }

  // Every step finds its task, and no config ever lists more than `k` rules.
  ghost predicate Proper(w: Work, steps: seq<Step>, k: nat, maxHops: int)
    decreases |steps|
  {
    steps == [] ||
    (Finds(w, steps[0]) && (steps[0].Complete? ==> AtMost(steps[0].team, k))
     && Proper(Next(w, steps[0], maxHops), steps[1..], k, maxHops))
  }

  predicate AtMost(team: Option<Routing>, k: nat) {
    team.Some? && team.value.rules.Some? ==> |team.value.rules.value| <= k
  }

  function Completions(steps: seq<Step>): nat {
    if steps == [] then 0 else (if steps[0].Complete? then 1 else 0) + Completions(steps[1..])
  }

  function Reopenings(steps: seq<Step>): nat {
    if steps == [] then 0 else (if steps[0].Reopen? then 1 else 0) + Reopenings(steps[1..])
  }

  // --- the measure ---

  function Pow(k: nat, n: nat): nat {
    if n == 0 then 1 else k * Pow(k, n - 1)
  }

  // 1 + k + k^2 + ... + k^n.
  function Geometric(k: nat, n: nat): nat {
    if n == 0 then 1 else Geometric(k, n - 1) + Pow(k, n)
  }

  // How many tasks, itself included, a task can still lead to.
  function Weight(hops: nat, k: nat, maxHops: int): (n: nat)
    ensures n >= 1
    decreases maxHops - hops
  {
    if hops >= maxHops then 1
    else
      var below: nat := k * Weight(hops + 1, k, maxHops);
      1 + below
  }

  function Total(tasks: seq<Task>, k: nat, maxHops: int): (n: nat)
    ensures n >= |tasks|
  {
    if tasks == [] then 0 else Weight(tasks[0].hops, k, maxHops) + Total(tasks[1..], k, maxHops)
  }

  lemma {:induction false} TotalConcat(a: seq<Task>, b: seq<Task>, k: nat, maxHops: int)
    ensures Total(a + b, k, maxHops) == Total(a, k, maxHops) + Total(b, k, maxHops)
  {
    if a == [] {
      assert a + b == b;
    } else {
      assert (a + b)[1..] == a[1..] + b;
      TotalConcat(a[1..], b, k, maxHops);
    }
  }

  lemma {:induction false} TotalOfEqualHops(tasks: seq<Task>, hops: nat, k: nat, maxHops: int)
    requires forall i :: 0 <= i < |tasks| ==> tasks[i].hops == hops
    ensures Total(tasks, k, maxHops) == |tasks| * Weight(hops, k, maxHops)
  {
    if tasks != [] {
      TotalOfEqualHops(tasks[1..], hops, k, maxHops);
    }
  }

  lemma CreatedWeighsLess(team: Option<Routing>, t: Task, k: nat, maxHops: int)
    requires AtMost(team, k)
    ensures Total(Fired(team, t.member, None, t.hops, maxHops), k, maxHops) + 1 <= Weight(t.hops, k, maxHops)
  {
    var created := Fired(team, t.member, None, t.hops, maxHops);
    if created != [] {
      TotalOfEqualHops(created, t.hops + 1, k, maxHops);
      MonotoneTimes(|created|, k, Weight(t.hops + 1, k, maxHops));
    }
  }

  lemma MonotoneTimes(a: nat, b: nat, w: nat)
    requires a <= b
    ensures a * w <= b * w
  {
  }

  lemma TotalWithout(tasks: seq<Task>, i: nat, k: nat, maxHops: int)
    requires i < |tasks|
    ensures Total(tasks, k, maxHops) == Total(Without(tasks, i), k, maxHops) + Weight(tasks[i].hops, k, maxHops)
  {
    var before, after := tasks[..i], tasks[i + 1..];
    TotalConcat(before, after, k, maxHops);
    assert tasks == before + ([tasks[i]] + after);
    TotalConcat(before, [tasks[i]] + after, k, maxHops);
    assert ([tasks[i]] + after)[1..] == after;
  }

  lemma TotalSnoc(tasks: seq<Task>, t: Task, k: nat, maxHops: int)
    ensures Total(tasks + [t], k, maxHops) == Total(tasks, k, maxHops) + Weight(t.hops, k, maxHops)
  {
    TotalConcat(tasks, [t], k, maxHops);
    assert [t][1..] == [];
  }

  // Every completion takes at least one off the measure, on cyclic graphs too, and pays for the tasks it creates.
  lemma CompletionDecreases(w: Work, s: Step, k: nat, maxHops: int)
    requires Finds(w, s) && s.Complete? && AtMost(s.team, k)
    ensures Total(Next(w, s, maxHops).open, k, maxHops) < Total(w.open, k, maxHops)
  {
    var t := w.open[s.index];
    CreatedWeighsLess(s.team, t, k, maxHops);
    TotalWithout(w.open, s.index, k, maxHops);
    TotalConcat(Without(w.open, s.index), Fired(s.team, t.member, None, t.hops, maxHops), k, maxHops);
  }

  lemma {:induction false} GeometricGrows(k: nat, m: nat, n: nat)
    requires m <= n
    ensures 1 <= Geometric(k, m) <= Geometric(k, n)
    decreases n
  {
    if m < n {
      GeometricGrows(k, m, n - 1);
    } else if n > 0 {
      GeometricGrows(k, n - 1, n - 1);
    }
  }

  lemma WeightAtMost(hops: nat, k: nat, maxHops: nat)
    ensures Weight(hops, k, maxHops) <= Geometric(k, maxHops)
  {
    if hops <= maxHops {
      WeightIsGeometric(hops, k, maxHops);
      GeometricGrows(k, maxHops - hops, maxHops);
    } else {
      GeometricGrows(k, 0, maxHops);
    }
  }

  // What one step does to the measure and to the number of tasks.
  lemma StepCounts(w: Work, s: Step, k: nat, maxHops: nat)
    requires Finds(w, s) && (s.Complete? ==> AtMost(s.team, k))
    ensures var v := Next(w, s, maxHops);
            && Total(v.open, k, maxHops) + (if s.Complete? then 1 else 0)
               <= Total(w.open, k, maxHops) + (if s.Reopen? then Geometric(k, maxHops) else 0)
            && |v.all| + Total(v.open, k, maxHops) - |v.open|
               <= |w.all| + Total(w.open, k, maxHops) - |w.open| + (if s.Reopen? then Geometric(k, maxHops) - 1 else 0)
  {
    match s
    case Complete(i, team) =>
      CompletionDecreases(w, s, k, maxHops);
    case Fail(i) => TotalWithout(w.open, i, k, maxHops);
    case Reopen(i, member) =>
      TotalSnoc(w.open, Task(member, w.ended[i].hops), k, maxHops);
      WeightAtMost(w.ended[i].hops, k, maxHops);
    case Reassign(i, member) => TotalReassigned(w.open, i, member, k, maxHops);
  }

  lemma TotalReassigned(tasks: seq<Task>, i: nat, member: string, k: nat, maxHops: int)
    requires i < |tasks|
    ensures Total(tasks[i := Task(member, tasks[i].hops)], k, maxHops) == Total(tasks, k, maxHops)
  {
    var after := tasks[i := Task(member, tasks[i].hops)];
    TotalWithout(tasks, i, k, maxHops);
    TotalWithout(after, i, k, maxHops);
    assert Without(after, i) == Without(tasks, i);
  }

  lemma {:induction false} WeightIsGeometric(hops: nat, k: nat, maxHops: int)
    requires hops <= maxHops
    ensures Weight(hops, k, maxHops) == Geometric(k, maxHops - hops)
    decreases maxHops - hops
  {
    if hops < maxHops {
      WeightIsGeometric(hops + 1, k, maxHops);
      GeometricUnrolls(k, maxHops - hops);
    }
  }

  lemma {:induction false} GeometricUnrolls(k: nat, n: nat)
    requires n > 0
    ensures Geometric(k, n) == 1 + k * Geometric(k, n - 1)
  {
    if n > 1 {
      GeometricUnrolls(k, n - 1);
      Distribute(k, Geometric(k, n - 2), Pow(k, n - 1));
    } else {
      assert Pow(k, 1) == k * Pow(k, 0) == k;
      assert Geometric(k, 1) == Geometric(k, 0) + Pow(k, 1);
    }
  }

  lemma Distribute(k: nat, a: nat, b: nat)
    ensures k * (a + b) == k * a + k * b
  {
  }

  lemma {:induction false} RunCounts(w: Work, steps: seq<Step>, k: nat, maxHops: nat)
    requires Proper(w, steps, k, maxHops)
    ensures var v := Run(w, steps, maxHops);
            var r := Reopenings(steps);
            && Total(v.open, k, maxHops) + Completions(steps) <= Total(w.open, k, maxHops) + r * Geometric(k, maxHops)
            && |v.all| + Total(v.open, k, maxHops) - |v.open|
               <= |w.all| + Total(w.open, k, maxHops) - |w.open| + r * Geometric(k, maxHops) - r
    decreases |steps|
  {
    if steps != [] {
      StepCounts(w, steps[0], k, maxHops);
      RunCounts(Next(w, steps[0], maxHops), steps[1..], k, maxHops);
      if steps[0].Reopen? {
        OneTimesMore(Reopenings(steps[1..]), Geometric(k, maxHops));
      }
    }
  }

  lemma OneTimesMore(r: nat, g: nat)
    ensures (1 + r) * g == g + r * g
  {
  }

  // One root task, in a team whose configs list at most `k` rules, cyclic or not: with r reopenings it leads to at most
  // (1 + r)(1 + k + ... + k^maxHops) completions, so every cascade ends, and to at most that many tasks, less r.
  lemma CascadeIsBounded(root: Task, steps: seq<Step>, k: nat, maxHops: nat)
    requires root.hops == 0 && Proper(Work([root], [], [root]), steps, k, maxHops)
    ensures Completions(steps) <= (1 + Reopenings(steps)) * Geometric(k, maxHops)
    ensures |Run(Work([root], [], [root]), steps, maxHops).all|
            <= (1 + Reopenings(steps)) * Geometric(k, maxHops) - Reopenings(steps)
  {
    var w := Work([root], [], [root]);
    RunCounts(w, steps, k, maxHops);
    WeightIsGeometric(0, k, maxHops);
    assert w.open[1..] == [];
    OneTimesMore(Reopenings(steps), Geometric(k, maxHops));
  }

  // With a limit of zero or less nothing is ever handed on.
  lemma NoHopsNoHandoffs(team: Option<Routing>, from: string, signal: Option<string>, hops: nat, maxHops: int)
    requires maxHops <= 0
    ensures Fired(team, from, signal, hops, maxHops) == []
  {
  }

  predicate HopsWithin(tasks: seq<Task>, maxHops: int) {
    forall i :: 0 <= i < |tasks| ==> tasks[i].hops == 0 || tasks[i].hops <= maxHops
  }

  lemma {:induction false} HopsStayBounded(w: Work, steps: seq<Step>, maxHops: int)
    requires HopsWithin(w.open, maxHops) && HopsWithin(w.ended, maxHops) && HopsWithin(w.all, maxHops)
    ensures HopsWithin(Run(w, steps, maxHops).all, maxHops)
    decreases |steps|
  {
    if steps != [] {
      StepKeepsHops(w, steps[0], maxHops);
      HopsStayBounded(Next(w, steps[0], maxHops), steps[1..], maxHops);
    }
  }

  lemma StepKeepsHops(w: Work, s: Step, maxHops: int)
    requires HopsWithin(w.open, maxHops) && HopsWithin(w.ended, maxHops) && HopsWithin(w.all, maxHops)
    ensures var v := Next(w, s, maxHops);
            HopsWithin(v.open, maxHops) && HopsWithin(v.ended, maxHops) && HopsWithin(v.all, maxHops)
  {
  }

  // --- the bound is attained ---

  function Copies(e: Entry, k: nat): seq<Entry> {
    seq(k, _ => e)
  }

  // A member that hands to itself by `k` rules.
  function Loop(member: string, k: nat): Option<Routing> {
    Some(Routing(false, Some(Copies(Rule(Some(member), Some(member), None), k))))
  }

  lemma {:induction false} AllCopiesEligible(rules: seq<Entry>, member: string)
    requires member != "" && forall i :: 0 <= i < |rules| ==> rules[i] == Rule(Some(member), Some(member), None)
    ensures EligibleRules(rules, member, None) == rules
  {
    if rules != [] {
      AllCopiesEligible(rules[1..], member);
    }
  }

  lemma LoopFires(member: string, k: nat, hops: nat, maxHops: int)
    requires member != "" && hops < maxHops
    ensures var created := Fired(Loop(member, k), member, None, hops, maxHops);
            |created| == k && forall i :: 0 <= i < k ==> created[i] == Task(member, hops + 1)
  {
    AllCopiesEligible(Copies(Rule(Some(member), Some(member), None), k), member);
  }

  lemma {:induction false} RunSplits(w: Work, a: seq<Step>, b: seq<Step>, k: nat, maxHops: int)
    ensures Run(w, a + b, maxHops) == Run(Run(w, a, maxHops), b, maxHops)
    ensures Proper(w, a, k, maxHops) && Proper(Run(w, a, maxHops), b, k, maxHops) ==> Proper(w, a + b, k, maxHops)
    ensures Completions(a + b) == Completions(a) + Completions(b)
    ensures Reopenings(a + b) == Reopenings(a) + Reopenings(b)
    decreases |a|
  {
    if a == [] {
      assert a + b == b;
    } else {
      assert (a + b)[1..] == a[1..] + b;
      RunSplits(Next(w, a[0], maxHops), a[1..], b, k, maxHops);
    }
  }

  // Completing the last open task again and again, all of a self-routing member's open tasks get done, in exactly
  // as many completions as the measure says.
  lemma {:induction false} MeasureIsAttained(w: Work, member: string, k: nat, maxHops: nat) returns (steps: seq<Step>)
    requires member != ""
    requires forall i :: 0 <= i < |w.open| ==> w.open[i].member == member && w.open[i].hops <= maxHops
    ensures Proper(w, steps, k, maxHops) && Run(w, steps, maxHops).open == []
    ensures Completions(steps) == Total(w.open, k, maxHops) && Reopenings(steps) == 0
    ensures w.open != [] ==> w.ended + [w.open[|w.open| - 1]] <= Run(w, steps, maxHops).ended
    ensures w.ended <= Run(w, steps, maxHops).ended
    decreases Total(w.open, k, maxHops)
  {
    if w.open == [] {
      steps := [];
    } else {
      var s := Complete(|w.open| - 1, Loop(member, k));
      var next := Next(w, s, maxHops);
      LoopWeighsExactly(w, member, k, maxHops);
      assert next.ended == w.ended + [w.open[|w.open| - 1]];
      var rest := MeasureIsAttained(next, member, k, maxHops);
      steps := [s] + rest;
      assert steps[0] == s && steps[1..] == rest;
    }
  }

  // Every task is open or ended, and what ended was completed at least as often as it was not reopened.
  lemma {:induction false} OpenOrEnded(w: Work, steps: seq<Step>, k: nat, maxHops: int)
    requires Proper(w, steps, k, maxHops)
    ensures var v := Run(w, steps, maxHops);
            && |v.open| + |v.ended| - |v.all| == |w.open| + |w.ended| - |w.all|
            && |v.ended| >= |w.ended| + Completions(steps) - Reopenings(steps)
    decreases |steps|
  {
    if steps != [] {
      OpenOrEnded(Next(w, steps[0], maxHops), steps[1..], k, maxHops);
    }
  }

  // Both bounds are exact: with r reopenings a member routed to itself by `k` rules needs all the completions, and
  // creates all the tasks.
  lemma BoundIsAttained(root: Task, k: nat, maxHops: nat, r: nat) returns (steps: seq<Step>)
    requires root.hops == 0 && root.member != ""
    ensures var w := Work([root], [], [root]);
            && Proper(w, steps, k, maxHops) && Reopenings(steps) == r
            && Completions(steps) == (1 + r) * Geometric(k, maxHops)
            && |Run(w, steps, maxHops).all| == (1 + r) * Geometric(k, maxHops) - r
  {
    steps := CompletionsAttained(root, k, maxHops, r);
    OpenOrEnded(Work([root], [], [root]), steps, k, maxHops);
    CascadeIsBounded(root, steps, k, maxHops);
  }

  lemma {:induction false} CompletionsAttained(root: Task, k: nat, maxHops: nat, r: nat) returns (steps: seq<Step>)
    requires root.hops == 0 && root.member != ""
    ensures var w := Work([root], [], [root]);
            && Proper(w, steps, k, maxHops) && Run(w, steps, maxHops).open == []
            && Reopenings(steps) == r && Completions(steps) == (1 + r) * Geometric(k, maxHops)
            && exists i :: 0 <= i < |Run(w, steps, maxHops).ended| && Run(w, steps, maxHops).ended[i].hops == 0
    decreases r
  {
    var w := Work([root], [], [root]);
    WeightIsGeometric(0, k, maxHops);
    if r == 0 {
      assert [root][1..] == [];
      steps := MeasureIsAttained(w, root.member, k, maxHops);
      assert Run(w, steps, maxHops).ended[0] == root;
    } else {
      var before := CompletionsAttained(root, k, maxHops, r - 1);
      var v := Run(w, before, maxHops);
      var i :| 0 <= i < |v.ended| && v.ended[i].hops == 0;
      var again := ReopenedAttains(v, i, root.member, k, maxHops);
      RunSplits(w, before, again, k, maxHops);
      steps := before + again;
      OneTimesMore(r - 1, Geometric(k, maxHops));
      OneTimesMore(r, Geometric(k, maxHops));
      assert r * Geometric(k, maxHops) == (1 + (r - 1)) * Geometric(k, maxHops);
    }
  }

  lemma ReopenedAttains(v: Work, i: nat, member: string, k: nat, maxHops: nat) returns (steps: seq<Step>)
    requires v.open == [] && i < |v.ended| && v.ended[i].hops == 0 && member != ""
    ensures Proper(v, steps, k, maxHops) && Run(v, steps, maxHops).open == []
    ensures Reopenings(steps) == 1 && Completions(steps) == Geometric(k, maxHops)
    ensures exists j :: 0 <= j < |Run(v, steps, maxHops).ended| && Run(v, steps, maxHops).ended[j].hops == 0
  {
    var reopening := Reopen(i, member);
    var u := Next(v, reopening, maxHops);
    assert u.open == [Task(member, 0)] && u.open[1..] == [];
    WeightIsGeometric(0, k, maxHops);
    var rest := MeasureIsAttained(u, member, k, maxHops);
    steps := [reopening] + rest;
    assert steps[1..] == rest;
    assert Run(v, steps, maxHops).ended[|u.ended|] == Task(member, 0);
  }

  lemma LoopCreates(t: Task, k: nat, maxHops: int) returns (created: seq<Task>)
    requires t.member != "" && t.hops <= maxHops
    ensures created == Fired(Loop(t.member, k), t.member, None, t.hops, maxHops)
    ensures Total(created, k, maxHops) + 1 == Weight(t.hops, k, maxHops)
    ensures forall i :: 0 <= i < |created| ==> created[i].member == t.member && created[i].hops <= maxHops
  {
    created := Fired(Loop(t.member, k), t.member, None, t.hops, maxHops);
    if t.hops < maxHops {
      LoopFires(t.member, k, t.hops, maxHops);
      TotalOfEqualHops(created, t.hops + 1, k, maxHops);
    }
  }

  lemma LoopWeighsExactly(w: Work, member: string, k: nat, maxHops: int)
    requires member != "" && maxHops >= 0 && w.open != []
    requires forall i :: 0 <= i < |w.open| ==> w.open[i].member == member && w.open[i].hops <= maxHops
    ensures var next := Next(w, Complete(|w.open| - 1, Loop(member, k)), maxHops);
            && Total(next.open, k, maxHops) + 1 == Total(w.open, k, maxHops)
            && forall i :: 0 <= i < |next.open| ==> next.open[i].member == member && next.open[i].hops <= maxHops
  {
    var last := |w.open| - 1;
    var t := w.open[last];
    var before := w.open[..last];
    var created := LoopCreates(t, k, maxHops);
    assert w.open == before + [t] && Without(w.open, last) == before;
    TotalSnoc(before, t, k, maxHops);
    TotalConcat(before, created, k, maxHops);
  }

  // --- firing, as the runtime does it ---

  class TaskBoard {
    var open: seq<Task>
    var ended: seq<Task>
    var all: seq<Task>

    constructor ()
      ensures open == [] && ended == [] && all == []
    {
      open, ended, all := [], [], [];
    }

    method FireHandoffs(team: Option<Routing>, from: string, signal: Option<string>, hops: nat, maxHops: int)
      returns (created: seq<Task>)
      modifies this`open, this`all
      ensures created == Fired(team, from, signal, hops, maxHops)
      ensures open == old(open) + created && all == old(all) + created
    {
      created := [];
      if team.None? || team.value.managed {
        return;
      }
      var rules := EligibleHandoffs(team.value, from, signal);
      if rules == [] || hops >= maxHops {
        return;
      }
      created := CreateTasks(rules, hops);
    }

    method CreateTasks(rules: seq<Entry>, hops: nat) returns (created: seq<Task>)
      requires forall i :: 0 <= i < |rules| ==> rules[i].Rule? && rules[i].to.Some?
      modifies this`open, this`all
      ensures created == Spawned(rules, hops)
      ensures open == old(open) + created && all == old(all) + created
    {
      created := [];
      for i := 0 to |rules|
        invariant |created| == i && forall j :: 0 <= j < i ==> created[j] == Task(rules[j].to.value, hops + 1)
        invariant open == old(open) + created && all == old(all) + created
      {
        var task := Task(rules[i].to.value, hops + 1);
        open := open + [task];
        all := all + [task];
        created := created + [task];
      }
    }

    method CompleteTask(index: nat, team: Option<Routing>, maxHops: int)
      requires index < |open|
      modifies this
      ensures Work(open, ended, all) == Next(Work(old(open), old(ended), old(all)), Complete(index, team), maxHops)
    {
      var task := open[index];
      open := open[..index] + open[index + 1..];
      ended := ended + [task];
      var _ := FireHandoffs(team, task.member, None, task.hops, maxHops);
    }
  }
}
