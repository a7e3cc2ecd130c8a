// Whole-run bounds on how often the same agents can pass one ticket between them.
module HandoffBudget {
  import opened Text
  import opened Lanes
  import opened HandoffLoop
  import opened TicketOutcome
  import opened Board

  // This act is a guarded handoff of `id` under `key` that ended in `kind`.
  predicate Passes(b: Board, a: Act, id: nat, key: string) {
    a.step.HandoffStep? && a.step.id == id
    && Guarded(a.step.actor, a.step.assignee)
    && PairKey(a.step.actor.value, a.step.assignee) == key
    && HandoffKindOf(b, a.teams, id, a.step.actor, a.step.assignee) !in {Refused, LoopBlocked}
  }

  predicate Redirects(b: Board, a: Act, id: nat, key: string) {
    Passes(b, a, id, key) && HandoffKindOf(b, a.teams, id, a.step.actor, a.step.assignee).Redirected?
  }

  // Handoffs of the ticket under this key that went ahead, redirected ones included.
  function Passed(b: Board, acts: seq<Act>, id: nat, key: string): nat
    decreases |acts|
  {
    if acts == [] then 0
    else (if Passes(b, acts[0], id, key) then 1 else 0) + Passed(Apply(b, acts[0]), acts[1..], id, key)
  }

  function Redirections(b: Board, acts: seq<Act>, id: nat, key: string): nat
    decreases |acts|
  {
    if acts == [] then 0
    else (if Redirects(b, acts[0], id, key) then 1 else 0) + Redirections(Apply(b, acts[0]), acts[1..], id, key)
  }

  // What the ticket's own record still allows under this key.
  function OrdinaryLeft(b: Board, id: nat, key: string): nat {
    if id !in b.tickets then if id < b.next then 0 else MAX_PAIR_HANDOFFS - 1
    else if Count(b.tickets[id], key) + 1 < MAX_PAIR_HANDOFFS then MAX_PAIR_HANDOFFS - 1 - Count(b.tickets[id], key)
    else 0
  }

  function RedirectsLeft(b: Board, id: nat, key: string): nat {
    if id !in b.tickets then if id < b.next then 0 else 1
    else if key in b.tickets[id].meta.escalations then 0
    else 1
  }

  // Every writer keeps the loop guard's memory; only a handoff adds to it.
  predicate KeepsMemory(b: Board, c: Board, id: nat) {
    && b.next <= c.next
    && (id in c.tickets ==> if id in b.tickets
        then c.tickets[id].meta.pairs == b.tickets[id].meta.pairs
             && c.tickets[id].meta.escalations == b.tickets[id].meta.escalations
        else b.next <= id && c.tickets[id].meta.pairs == map[] && c.tickets[id].meta.escalations == [])
    && (id !in c.tickets && id < b.next ==> id < c.next)
  }

  lemma OtherWritersKeepMemory(b: Board, a: Act, id: nat)
    requires b.Ids()
    requires !(a.step.HandoffStep? && a.step.id == id)
    ensures KeepsMemory(b, Apply(b, a), id)
  {
    match a.step
    case DecomposeStep(x, actor, summary, plan, stories) =>
      if MayDecompose(b, a.teams, x, actor, summary, plan, stories) {
        ParkEffect(b, TeamOf(a.teams, b.tickets[x]).value, x, stories, id);
      }
    case CreateStep(team, at, to) =>
    case _ =>
      ActEffect(b, a, id);
  }

  // One act never spends more than it takes off the remaining allowance.
  lemma OneActWithinBudget(b: Board, a: Act, id: nat, key: string)
    requires b.Ids()
    ensures (if Passes(b, a, id, key) && !Redirects(b, a, id, key) then 1 else 0) + OrdinaryLeft(Apply(b, a), id, key)
            <= OrdinaryLeft(b, id, key)
    ensures (if Redirects(b, a, id, key) then 1 else 0) + RedirectsLeft(Apply(b, a), id, key) <= RedirectsLeft(b, id, key)
  {
    if a.step.HandoffStep? && a.step.id == id {
    } else {
      OtherWritersKeepMemory(b, a, id);
    }
  }

  // Over every interleaving of every writer, whatever team configs are in force at each step (so even
  // if the lead changes), a pair gets at most limit - 1 ordinary handoffs of one ticket and one redirect.
  lemma {:induction false} PairBudget(b: Board, acts: seq<Act>, id: nat, key: string)
    requires b.Ids()
    ensures Redirections(b, acts, id, key) <= RedirectsLeft(b, id, key)
    ensures Passed(b, acts, id, key) - Redirections(b, acts, id, key) <= OrdinaryLeft(b, id, key)
    ensures Passed(b, acts, id, key) <= MAX_PAIR_HANDOFFS
    decreases |acts|
  {
    if acts != [] {
      IdsStay(b, acts[0]);
      OneActWithinBudget(b, acts[0], id, key);
      PairBudget(Apply(b, acts[0]), acts[1..], id, key);
    }
  }

  // A handoff of `id` between these two, in either direction, under these team configs.
  predicate Lap(a: Act, teams: Teams, id: nat, x: string, y: string) {
    a.teams == teams && (a.step == HandoffStep(id, Some(x), y) || a.step == HandoffStep(id, Some(y), x))
  }

  // The lead, if it stands outside the pair, gets one more say.
  function Allowance(team: Team, x: string, y: string): nat {
    if Truthy(LeadOf(team)) && LeadOf(team).value != x && LeadOf(team).value != y then MAX_PAIR_HANDOFFS
    else MAX_PAIR_HANDOFFS - 1
  }

  lemma OneLap(b: Board, a: Act, teams: Teams, id: nat, x: string, y: string, done: nat)
    requires id in b.tickets && TeamOf(teams, b.tickets[id]).Some? && Lap(a, teams, id, x, y)
    requires x != "" && y != "" && x != y && Count(b.tickets[id], PairKey(x, y)) == done
    requires PairKey(x, y) in b.tickets[id].meta.escalations <==> done >= MAX_PAIR_HANDOFFS
    requires Allowance(TeamOf(teams, b.tickets[id]).value, x, y) == MAX_PAIR_HANDOFFS
    ensures var c := Apply(b, a);
            && id in c.tickets && TeamOf(teams, c.tickets[id]) == TeamOf(teams, b.tickets[id])
            && Count(c.tickets[id], PairKey(x, y)) == done + 1
            && (Passes(b, a, id, PairKey(x, y)) <==> done + 1 <= MAX_PAIR_HANDOFFS)
            && (PairKey(x, y) in c.tickets[id].meta.escalations <==> done + 1 >= MAX_PAIR_HANDOFFS)
  {
    PairKeySymmetric(x, y);
  }

  // The bound is exact: of any series of handoffs between two agents of a ticket they never passed before, exactly the
  // first `limit` go ahead when the lead stands outside the pair, exactly the first limit - 1 otherwise.
  lemma PairBudgetIsAttained(b: Board, acts: seq<Act>, teams: Teams, id: nat, x: string, y: string)
    requires id in b.tickets && TeamOf(teams, b.tickets[id]).Some? && x != "" && y != "" && x != y
    requires PairKey(x, y) !in b.tickets[id].meta.pairs && PairKey(x, y) !in b.tickets[id].meta.escalations
    requires forall i :: 0 <= i < |acts| ==> Lap(acts[i], teams, id, x, y)
    ensures var allowed := Allowance(TeamOf(teams, b.tickets[id]).value, x, y);
            Passed(b, acts, id, PairKey(x, y)) == if |acts| < allowed then |acts| else allowed
  {
    if Allowance(TeamOf(teams, b.tickets[id]).value, x, y) == MAX_PAIR_HANDOFFS {
      LapsWithLead(b, acts, teams, id, x, y, 0);
    } else {
      LapsWithoutLead(b, acts, teams, id, x, y, 0);
    }
  }

  lemma {:induction false} LapsWithLead(b: Board, acts: seq<Act>, teams: Teams, id: nat, x: string, y: string, done: nat)
    requires id in b.tickets && TeamOf(teams, b.tickets[id]).Some? && x != "" && y != "" && x != y
    requires Count(b.tickets[id], PairKey(x, y)) == done
    requires PairKey(x, y) in b.tickets[id].meta.escalations <==> done >= MAX_PAIR_HANDOFFS
    requires forall i :: 0 <= i < |acts| ==> Lap(acts[i], teams, id, x, y)
    requires Allowance(TeamOf(teams, b.tickets[id]).value, x, y) == MAX_PAIR_HANDOFFS
    ensures Passed(b, acts, id, PairKey(x, y))
            == if done >= MAX_PAIR_HANDOFFS then 0
               else if done + |acts| < MAX_PAIR_HANDOFFS then |acts| else MAX_PAIR_HANDOFFS - done
    decreases |acts|
  {
    if acts != [] {
      OneLap(b, acts[0], teams, id, x, y, done);
      LapsWithLead(Apply(b, acts[0]), acts[1..], teams, id, x, y, done + 1);
    }
  }

  lemma OneLapWithoutLead(b: Board, a: Act, teams: Teams, id: nat, x: string, y: string, done: nat)
    requires id in b.tickets && TeamOf(teams, b.tickets[id]).Some? && Lap(a, teams, id, x, y)
    requires x != "" && y != "" && x != y && Count(b.tickets[id], PairKey(x, y)) == done
    requires Allowance(TeamOf(teams, b.tickets[id]).value, x, y) < MAX_PAIR_HANDOFFS
    ensures var c := Apply(b, a);
            && id in c.tickets && TeamOf(teams, c.tickets[id]) == TeamOf(teams, b.tickets[id])
            && Count(c.tickets[id], PairKey(x, y)) == done + 1
            && (Passes(b, a, id, PairKey(x, y)) <==> done + 1 < MAX_PAIR_HANDOFFS)
  {
    PairKeySymmetric(x, y);
  }

  lemma {:induction false} LapsWithoutLead(b: Board, acts: seq<Act>, teams: Teams, id: nat, x: string, y: string, done: nat)
    requires id in b.tickets && TeamOf(teams, b.tickets[id]).Some? && x != "" && y != "" && x != y
    requires Count(b.tickets[id], PairKey(x, y)) == done
    requires forall i :: 0 <= i < |acts| ==> Lap(acts[i], teams, id, x, y)
    requires Allowance(TeamOf(teams, b.tickets[id]).value, x, y) < MAX_PAIR_HANDOFFS
    ensures Passed(b, acts, id, PairKey(x, y))
            == if done + 1 >= MAX_PAIR_HANDOFFS then 0
               else if done + |acts| < MAX_PAIR_HANDOFFS then |acts| else MAX_PAIR_HANDOFFS - 1 - done
    decreases |acts|
  {
    if acts != [] {
      OneLapWithoutLead(b, acts[0], teams, id, x, y, done);
      LapsWithoutLead(Apply(b, acts[0]), acts[1..], teams, id, x, y, done + 1);
    }
  }

  // The keys of all unordered pairs of distinct names in a set.
  ghost function Pairs(names: set<string>): set<string> {
    if names == {} then {}
    else
      var x :| x in names;
      Pairs(names - {x}) + set y | y in names - {x} :: PairKey(x, y)
  }

  lemma ImageIsNoLarger(x: string, ys: set<string>)
    ensures |set y | y in ys :: PairKey(x, y)| <= |ys|
  {
    if ys != {} {
      var z :| z in ys;
      ImageIsNoLarger(x, ys - {z});
      var smaller := set y | y in ys - {z} :: PairKey(x, y);
      assert (set y | y in ys :: PairKey(x, y)) == smaller + {PairKey(x, z)};
    }
  }

  lemma StepCount(n: nat)
    ensures n * (n - 1) + 2 * n == (n + 1) * n
  {
  }

  lemma {:induction false} PairsAreFew(names: set<string>)
    ensures 2 * |Pairs(names)| <= |names| * (|names| - 1)
  {
    if names != {} {
      var x :| x in names && Pairs(names) == Pairs(names - {x}) + set y | y in names - {x} :: PairKey(x, y);
      var rest := names - {x};
      var spokes := set y | y in rest :: PairKey(x, y);
      PairsAreFew(rest);
      ImageIsNoLarger(x, rest);
      assert |Pairs(rest) + spokes| <= |Pairs(rest)| + |spokes|;
      assert |names| == |rest| + 1;
      StepCount(|rest|);
    }
  }

  lemma {:induction false} PairsAreComplete(names: set<string>, a: string, b: string)
    requires a in names && b in names && a != b
    ensures PairKey(a, b) in Pairs(names)
  {
    var x :| x in names && Pairs(names) == Pairs(names - {x}) + set y | y in names - {x} :: PairKey(x, y);
    if a == x {
    } else if b == x {
      PairKeySymmetric(a, b);
    } else {
      PairsAreComplete(names - {x}, a, b);
    }
  }

  // Unblocked handoffs of the ticket between two different agents of a group.
  predicate Within(b: Board, a: Act, id: nat, names: set<string>) {
    a.step.HandoffStep? && a.step.id == id && Guarded(a.step.actor, a.step.assignee)
    && a.step.actor.value in names && a.step.assignee in names
    && HandoffKindOf(b, a.teams, id, a.step.actor, a.step.assignee) !in {Refused, LoopBlocked}
  }

  function GroupPassed(b: Board, acts: seq<Act>, id: nat, names: set<string>): nat
    decreases |acts|
  {
    if acts == [] then 0
    else (if Within(b, acts[0], id, names) then 1 else 0) + GroupPassed(Apply(b, acts[0]), acts[1..], id, names)
  }

  ghost function SumPassed(b: Board, acts: seq<Act>, id: nat, keys: set<string>): nat {
    if keys == {} then 0
    else
      var k :| k in keys;
      Passed(b, acts, id, k) + SumPassed(b, acts, id, keys - {k})
  }

  lemma {:induction false} SumWithinBudget(b: Board, acts: seq<Act>, id: nat, keys: set<string>)
    requires b.Ids()
    ensures SumPassed(b, acts, id, keys) <= MAX_PAIR_HANDOFFS * |keys|
  {
    if keys != {} {
      var k :| k in keys && SumPassed(b, acts, id, keys) == Passed(b, acts, id, k) + SumPassed(b, acts, id, keys - {k});
      PairBudget(b, acts, id, k);
      SumWithinBudget(b, acts, id, keys - {k});
      assert |keys| == |keys - {k}| + 1;
    }
  }

  lemma {:induction false} SumUnrolls(b: Board, acts: seq<Act>, id: nat, keys: set<string>)
    requires acts != []
    ensures SumPassed(b, acts, id, keys) >= SumPassed(Apply(b, acts[0]), acts[1..], id, keys)
    ensures forall k :: k in keys && Passes(b, acts[0], id, k) ==>
      SumPassed(b, acts, id, keys) >= 1 + SumPassed(Apply(b, acts[0]), acts[1..], id, keys)
    decreases keys
  {
    if keys != {} {
      var c, rest := Apply(b, acts[0]), acts[1..];
      var k :| k in keys && SumPassed(b, acts, id, keys) == Passed(b, acts, id, k) + SumPassed(b, acts, id, keys - {k});
      SumUnrolls(b, acts, id, keys - {k});
      SumSplits(c, rest, id, keys, k);
      assert Passed(b, acts, id, k) == (if Passes(b, acts[0], id, k) then 1 else 0) + Passed(c, rest, id, k);
    }
  }

  // The sum does not depend on the order in which keys are picked.
  lemma {:induction false} SumSplits(b: Board, acts: seq<Act>, id: nat, keys: set<string>, k: string)
    requires k in keys
    ensures SumPassed(b, acts, id, keys) == Passed(b, acts, id, k) + SumPassed(b, acts, id, keys - {k})
    decreases keys
  {
    var j :| j in keys && SumPassed(b, acts, id, keys) == Passed(b, acts, id, j) + SumPassed(b, acts, id, keys - {j});
    if j != k {
      SumSplits(b, acts, id, keys - {j}, k);
      SumSplits(b, acts, id, keys - {k}, j);
      assert keys - {j} - {k} == keys - {k} - {j};
    }
  }

  lemma {:induction false} GroupWithinSum(b: Board, acts: seq<Act>, id: nat, names: set<string>)
    ensures GroupPassed(b, acts, id, names) <= SumPassed(b, acts, id, Pairs(names))
    decreases |acts|
  {
    if acts != [] {
      var a := acts[0];
      GroupWithinSum(Apply(b, a), acts[1..], id, names);
      SumUnrolls(b, acts, id, Pairs(names));
      if Within(b, a, id, names) {
        PairsAreComplete(names, a.step.actor.value, a.step.assignee);
        assert Passes(b, a, id, PairKey(a.step.actor.value, a.step.assignee));
      }
    }
  }

  // No endless ping-pong: in any run, n agents make at most limit * n(n-1)/2 handoffs of one ticket to each
  // other that are not blocked, although every one of those handoffs resets the bounce counter.
  lemma GroupBudget(b: Board, acts: seq<Act>, id: nat, names: set<string>)
    requires b.Ids()
    ensures 2 * GroupPassed(b, acts, id, names) <= MAX_PAIR_HANDOFFS * (|names| * (|names| - 1))
  {
    GroupWithinSum(b, acts, id, names);
    SumWithinBudget(b, acts, id, Pairs(names));
    PairsAreFew(names);
  }

  // Why the pairs are counted apart from `bounces`: a handoff that goes ahead zeroes it, other tickets keep theirs.
  lemma HandoffResetsBounces(b: Board, teams: Teams, id: nat, actor: Option<string>, assignee: string)
    requires HandoffKindOf(b, teams, id, actor, assignee) !in {Refused, LoopBlocked}
    ensures Handoff(b, teams, id, actor, assignee).tickets[id].meta.bounces == 0
    ensures Count(Handoff(b, teams, id, actor, assignee).tickets[id], PairKey(Shown(actor), assignee))
            == Count(b.tickets[id], PairKey(Shown(actor), assignee)) + 1
    ensures forall other :: other != id && other in b.tickets ==>
      Handoff(b, teams, id, actor, assignee).tickets[other] == b.tickets[other]
  {
  }

  // The boundary of the guarantee: handing a ticket to oneself is exempt from the guard however often it is
  // done, and still zeroes `bounces`.
  lemma {:induction false} SelfHandoffsAreNeverBlocked(b: Board, teams: Teams, id: nat, me: string, n: nat)
    requires me != "" && id in b.tickets && TeamOf(teams, b.tickets[id]).Some?
    ensures var acts := seq(n, i => Act(teams, HandoffStep(id, Some(me), me)));
            id in Run(b, acts).tickets
            && TeamOf(teams, Run(b, acts).tickets[id]).Some?
            && HandoffKindOf(Run(b, acts), teams, id, Some(me), me) == HandedOn
            && (n > 0 ==> Run(b, acts).tickets[id].state == Pending && Run(b, acts).tickets[id].meta.bounces == 0)
            && Count(Run(b, acts).tickets[id], PairKey(me, me)) == Count(b.tickets[id], PairKey(me, me)) + n
    decreases n
  {
    if n > 0 {
      var act := Act(teams, HandoffStep(id, Some(me), me));
      var acts := seq(n, i => act);
      var c := Apply(b, act);
      SelfHandoffsAreNeverBlocked(c, teams, id, me, n - 1);
      assert acts[1..] == seq(n - 1, i => act);
      assert c.tickets[id].state == Pending && c.tickets[id].meta.bounces == 0;
    }
  }

  // --- bounces ---

  predicate Passing(b: Board, a: Act, id: nat) {
    a.step.HandoffStep? && a.step.id == id
    && HandoffKindOf(b, a.teams, id, a.step.actor, a.step.assignee) !in {Refused, LoopBlocked}
  }

  predicate Bounced(b: Board, a: Act, id: nat) {
    a.step.OutcomeStep? && a.step.id == id && id in b.tickets && OnBoard(a.teams, b.tickets[id])
    && OutcomeOf(a.teams, b.tickets[id], a.step.agent, a.step.run).bounced
  }

  function Passings(b: Board, acts: seq<Act>, id: nat): nat
    decreases |acts|
  {
    if acts == [] then 0 else (if Passing(b, acts[0], id) then 1 else 0) + Passings(Apply(b, acts[0]), acts[1..], id)
  }

  function Bounces(b: Board, acts: seq<Act>, id: nat): nat
    decreases |acts|
  {
    if acts == [] then 0 else (if Bounced(b, acts[0], id) then 1 else 0) + Bounces(Apply(b, acts[0]), acts[1..], id)
  }

  function BouncesLeft(b: Board, id: nat): nat {
    if id !in b.tickets then if id < b.next then 0 else MAX_BOUNCES
    else if b.tickets[id].meta.bounces < MAX_BOUNCES then MAX_BOUNCES - b.tickets[id].meta.bounces else 0
  }

  lemma OneActBounces(b: Board, a: Act, id: nat)
    requires b.Ids()
    ensures (if Bounced(b, a, id) then 1 else 0) + BouncesLeft(Apply(b, a), id)
            <= BouncesLeft(b, id) + if Passing(b, a, id) then MAX_BOUNCES else 0
  {
    match a.step
    case DecomposeStep(x, actor, summary, plan, stories) =>
      if MayDecompose(b, a.teams, x, actor, summary, plan, stories) {
        ParkEffect(b, TeamOf(a.teams, b.tickets[x]).value, x, stories, id);
      }
    case OutcomeStep(x, agent, run) =>
      OutcomeBounces(b, a.teams, x, agent, run, id);
    case SweepStep(x) =>
      if x in b.tickets {
        ReleaseEffect(b.Put(x, b.tickets[x].(state := Failed)), a.teams, x, id);
      }
    case CloseStep(x, actor) =>
      if MayClose(b, a.teams, x, actor) {
        ReleaseEffect(b.Put(x, b.tickets[x].(lane := Some(DONE_LANE), state := Completed)), a.teams, x, id);
      }
    case _ =>
  }

  lemma OutcomeBounces(b: Board, teams: Teams, x: nat, agent: string, run: RunState, id: nat)
    ensures var bounced := x in b.tickets && OnBoard(teams, b.tickets[x])
                           && OutcomeOf(teams, b.tickets[x], agent, run).bounced;
            (if id == x && bounced then 1 else 0) + BouncesLeft(ApplyOutcome(b, teams, x, agent, run), id)
            <= BouncesLeft(b, id)
  {
    if x in b.tickets {
      ReleaseEffect(b.Put(x, AfterRun(teams, b.tickets[x], agent, run)), teams, x, id);
    }
  }

  // A ticket goes back to the lead unowned at most MAX_BOUNCES times between two handoffs, so the pair limits
  // also bound the bounces of a whole run.
  lemma {:induction false} BounceBudget(b: Board, acts: seq<Act>, id: nat)
    requires b.Ids()
    ensures Bounces(b, acts, id) <= MAX_BOUNCES * (1 + Passings(b, acts, id))
    ensures Bounces(b, acts, id) <= BouncesLeft(b, id) + MAX_BOUNCES * Passings(b, acts, id)
    decreases |acts|
  {
    if acts != [] {
      IdsStay(b, acts[0]);
      OneActBounces(b, acts[0], id);
      BounceBudget(Apply(b, acts[0]), acts[1..], id);
    }
  }
}
