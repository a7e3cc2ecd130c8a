// `tickets.close` is meant to be the only door into `done`. When it is, and when it is not.
module DoneDoor {
  import opened Text
  import opened Lanes
  import opened HandoffLoop
  import opened TicketOutcome
  import opened Board

  predicate InDone(b: Board, id: nat) {
    id in b.tickets && b.tickets[id].lane == Some(DONE_LANE)
  }

  predicate IsCompleted(b: Board, id: nat) {
    id in b.tickets && b.tickets[id].state == Completed
  }

  // A close of this ticket by a member whose role is lead, from the close lane.
  predicate Closes(b: Board, a: Act, id: nat) {
    && a.step.CloseStep? && a.step.id == id
    && id in b.tickets && TeamOf(a.teams, b.tickets[id]).Some?
    && var team := TeamOf(a.teams, b.tickets[id]).value;
       RoleOf(team, if a.step.actor.Some? then a.step.actor.value else "") == Some("lead")
       && b.tickets[id].lane == Some(ExpectedCloseLane(team))
  }

  // The runtime files new tickets without a lane or in the team's first lane.
  predicate Filed(a: Act) {
    a.step.CreateStep? ==>
      a.step.at == None
      || (Truthy(a.step.team) && a.step.team.value in a.teams && a.step.at == FirstLane(a.teams[a.step.team.value]))
  }

  // The config puts no second door into `done`: not the first lane, not the close lane, not the bounce lane of a
  // team whose unowned work has a lead to go to, and not any lane a handoff derives.
  ghost predicate Sealed(team: Team) {
    && FirstLane(team) != Some(DONE_LANE)
    && CloseLane(team) != Some(DONE_LANE)
    && !(BounceLane(team) == Some(DONE_LANE) && OutcomeLeadIn(team.members).Some?)
    && forall from: Option<string>, to: string :: to != "" ==> DeriveLane(team, from, to) != Some(DONE_LANE)
  }

  // A shape an author can read off the config: `done` is not the first lane, a rule's lane or the bounce lane.
  lemma UnnamedDoneIsSealed(team: Team)
    requires FirstLane(team) != Some(DONE_LANE) && team.bounce != Some(DONE_LANE)
    requires forall i :: 0 <= i < |team.rules| ==> team.rules[i].lane != DONE_LANE
    ensures Sealed(team)
  {
    var rules := UsableRules(team);
    forall i | 0 <= i < |rules| ensures rules[i].lane != DONE_LANE {
      KnownRulesAreKnown(team, team.rules);
      assert rules[i] in team.rules;
    }
    forall from: Option<string>, to: string ensures to != "" ==> DeriveLane(team, from, to) != Some(DONE_LANE) {
    }
  }

  // The ticket belongs to team `tid`.
  predicate Owned(b: Board, id: nat, tid: string) {
    id in b.tickets && b.tickets[id].meta.team == Some(tid)
  }

  ghost predicate Guards(a: Act, tid: string) {
    && tid != "" && tid in a.teams && IsLifecycleManaged(a.teams[tid]) && Sealed(a.teams[tid]) && Filed(a)
  }

  lemma ReleaseOpensNoDoor(b: Board, teams: Teams, child: nat, id: nat, tid: string)
    requires tid != "" && tid in teams && Sealed(teams[tid])
    requires Owned(b, id, tid) && !InDone(b, id)
    ensures !InDone(Release(b, teams, child), id)
  {
    ReleaseEffect(b, teams, child, id);
  }

  lemma HandoffOpensNoDoor(b: Board, teams: Teams, x: nat, actor: Option<string>, assignee: string, id: nat, tid: string)
    requires tid != "" && tid in teams && Sealed(teams[tid]) && Owned(b, id, tid)
    ensures InDone(Handoff(b, teams, x, actor, assignee), id) ==> InDone(b, id)
    ensures IsCompleted(Handoff(b, teams, x, actor, assignee), id) ==> IsCompleted(b, id)
  {
    HandoffEffect(b, teams, x, actor, assignee, id);
    if x == id && HandoffKindOf(b, teams, x, actor, assignee) !in {Refused, LoopBlocked} {
      var kind := HandoffKindOf(b, teams, x, actor, assignee);
      var to := if kind.Redirected? then kind.lead else assignee;
      assert DeriveLane(teams[tid], actor, to) != Some(DONE_LANE);
    }
  }

  lemma OutcomeOpensNoDoor(b: Board, teams: Teams, x: nat, agent: string, run: RunState, id: nat, tid: string)
    requires tid != "" && tid in teams && IsLifecycleManaged(teams[tid]) && Sealed(teams[tid]) && Owned(b, id, tid)
    ensures InDone(ApplyOutcome(b, teams, x, agent, run), id) ==> InDone(b, id)
  {
    if x in b.tickets {
      var c := b.Put(x, AfterRun(teams, b.tickets[x], agent, run));
      AfterRunEffect(teams, b.tickets[x], agent, run);
      ReleaseEffect(c, teams, x, id);
      if !InDone(c, id) {
        ReleaseOpensNoDoor(c, teams, x, id, tid);
      }
    }
  }

  lemma CloseOpensOneDoor(b: Board, teams: Teams, x: nat, actor: Option<string>, id: nat, tid: string)
    requires tid != "" && tid in teams && Sealed(teams[tid]) && Owned(b, id, tid)
    ensures InDone(Close(b, teams, x, actor), id) ==> InDone(b, id) || (x == id && MayClose(b, teams, id, actor))
    ensures IsCompleted(Close(b, teams, x, actor), id)
            ==> IsCompleted(b, id) || InDone(Close(b, teams, x, actor), id)
  {
    if MayClose(b, teams, x, actor) {
      var c := b.Put(x, b.tickets[x].(lane := Some(DONE_LANE), state := Completed));
      ReleaseEffect(c, teams, x, id);
      if !InDone(c, id) {
        ReleaseOpensNoDoor(c, teams, x, id, tid);
      }
    }
  }

  lemma SweepOpensNoDoor(b: Board, teams: Teams, x: nat, id: nat, tid: string)
    requires tid != "" && tid in teams && Sealed(teams[tid]) && Owned(b, id, tid)
    ensures InDone(Sweep(b, teams, x), id) ==> InDone(b, id)
    ensures IsCompleted(Sweep(b, teams, x), id) ==> IsCompleted(b, id)
  {
    if x in b.tickets {
      var c := b.Put(x, b.tickets[x].(state := Failed));
      ReleaseEffect(c, teams, x, id);
      if !InDone(c, id) {
        ReleaseOpensNoDoor(c, teams, x, id, tid);
      }
    }
  }

  lemma DecomposeOpensNoDoor(b: Board, a: Act, id: nat, tid: string)
    requires b.Ids() && a.step.DecomposeStep? && tid != "" && tid in a.teams && Sealed(a.teams[tid])
    requires Owned(Apply(b, a), id, tid)
    ensures InDone(Apply(b, a), id) ==> InDone(b, id)
    ensures IsCompleted(Apply(b, a), id) ==> IsCompleted(b, id)
    ensures id in b.tickets ==> Owned(b, id, tid)
  {
    var x := a.step.id;
    if MayDecompose(b, a.teams, x, a.step.actor, a.step.summary, a.step.plan, a.step.stories) {
      ParkOpensNoDoor(b, TeamOf(a.teams, b.tickets[x]).value, x, a.step.stories, id, tid, a.teams);
    }
  }

  lemma ParkOpensNoDoor(b: Board, team: Team, x: nat, stories: seq<Spec>, id: nat, tid: string, teams: Teams)
    requires b.Ids() && tid != "" && tid in teams && Sealed(teams[tid]) && AllStories(stories)
    requires x in b.tickets && TeamOf(teams, b.tickets[x]) == Some(team)
    requires Owned(Park(b, team, x, stories), id, tid)
    ensures InDone(Park(b, team, x, stories), id) ==> InDone(b, id)
    ensures IsCompleted(Park(b, team, x, stories), id) ==> IsCompleted(b, id)
    ensures id in b.tickets ==> Owned(b, id, tid)
  {
    ParkEffect(b, team, x, stories, id);
    ParkEffect(b, team, x, stories, x);
    if id == x {
      assert team == teams[tid];
      assert WorkLane(team) != Some(DONE_LANE);
    }
  }

  // A completed run ends on this ticket while it has no lane.
  predicate EndsLaneless(b: Board, a: Act, id: nat) {
    a.step.OutcomeStep? && a.step.id == id && a.step.run == RunCompleted && id in b.tickets && b.tickets[id].lane.None?
  }

  // A completed run ends on this ticket while it is in `done` already.
  predicate EndsInDone(b: Board, a: Act, id: nat) {
    a.step.OutcomeStep? && a.step.id == id && a.step.run == RunCompleted && InDone(b, id)
  }

  // In one act, a ticket of a guarded team enters `done` only by a close of it; it completes if and only if the act is
  // such a close, or the end of a completed run on a ticket that is in `done` already or has no lane.
  lemma OneActOneDoor(b: Board, a: Act, id: nat, tid: string)
    requires b.Ids() && Guards(a, tid) && Owned(b, id, tid) && id in Apply(b, a).tickets
    ensures Owned(Apply(b, a), id, tid)
    ensures InDone(Apply(b, a), id) ==> InDone(b, id) || Closes(b, a, id)
    ensures !IsCompleted(b, id) ==>
              (IsCompleted(Apply(b, a), id) <==> Closes(b, a, id) || EndsInDone(b, a, id) || EndsLaneless(b, a, id))
  {
    TeamStays(b, a, id);
    DoneOnlyByClose(b, a, id, tid);
    if !IsCompleted(b, id) {
      CompletesExactly(b, a, id, tid);
    }
  }

  lemma TeamStays(b: Board, a: Act, id: nat)
    requires b.Ids() && id in b.tickets && id in Apply(b, a).tickets
    ensures Apply(b, a).tickets[id].meta.team == b.tickets[id].meta.team
  {
    match a.step
    case DecomposeStep(x, actor, summary, plan, stories) =>
      if MayDecompose(b, a.teams, x, actor, summary, plan, stories) {
        ParkEffect(b, TeamOf(a.teams, b.tickets[x]).value, x, stories, id);
      }
    case CreateStep(team, at, to) =>
    case _ => ActEffect(b, a, id);
  }

  lemma DoneOnlyByClose(b: Board, a: Act, id: nat, tid: string)
    requires b.Ids() && Guards(a, tid) && Owned(b, id, tid) && id in Apply(b, a).tickets
    requires Owned(Apply(b, a), id, tid)
    ensures InDone(Apply(b, a), id) ==> InDone(b, id) || Closes(b, a, id)
  {
    match a.step
    case HandoffStep(x, actor, assignee) => HandoffOpensNoDoor(b, a.teams, x, actor, assignee, id, tid);
    case CloseStep(x, actor) => CloseOpensOneDoor(b, a.teams, x, actor, id, tid);
    case OutcomeStep(x, agent, run) => OutcomeOpensNoDoor(b, a.teams, x, agent, run, id, tid);
    case SweepStep(x) => SweepOpensNoDoor(b, a.teams, x, id, tid);
    case DecomposeStep(x, actor, summary, plan, stories) => DecomposeOpensNoDoor(b, a, id, tid);
    case _ =>
  }

  lemma CompletesExactly(b: Board, a: Act, id: nat, tid: string)
    requires b.Ids() && Guards(a, tid) && Owned(b, id, tid) && id in Apply(b, a).tickets
    requires Owned(Apply(b, a), id, tid) && !IsCompleted(b, id)
    ensures IsCompleted(Apply(b, a), id) <==> Closes(b, a, id) || EndsInDone(b, a, id) || EndsLaneless(b, a, id)
  {
    match a.step
    case HandoffStep(x, actor, assignee) => HandoffOpensNoDoor(b, a.teams, x, actor, assignee, id, tid);
    case CloseStep(x, actor) => CloseCompletes(b, a.teams, x, actor, id, tid);
    case OutcomeStep(x, agent, run) => OutcomeCompletes(b, a.teams, x, agent, run, id, tid);
    case SweepStep(x) => SweepOpensNoDoor(b, a.teams, x, id, tid);
    case DecomposeStep(x, actor, summary, plan, stories) => DecomposeOpensNoDoor(b, a, id, tid);
    case _ =>
  }

  lemma CloseCompletes(b: Board, teams: Teams, x: nat, actor: Option<string>, id: nat, tid: string)
    requires tid != "" && tid in teams && Owned(b, id, tid) && !IsCompleted(b, id)
    ensures IsCompleted(Close(b, teams, x, actor), id) <==> x == id && MayClose(b, teams, id, actor)
  {
    if MayClose(b, teams, x, actor) {
      ReleaseEffect(b.Put(x, b.tickets[x].(lane := Some(DONE_LANE), state := Completed)), teams, x, id);
    }
  }

  lemma OutcomeCompletes(b: Board, teams: Teams, x: nat, agent: string, run: RunState, id: nat, tid: string)
    requires tid != "" && tid in teams && IsLifecycleManaged(teams[tid]) && Owned(b, id, tid) && !IsCompleted(b, id)
    ensures IsCompleted(ApplyOutcome(b, teams, x, agent, run), id)
            <==> x == id && run == RunCompleted && (b.tickets[id].lane.None? || b.tickets[id].lane == Some(DONE_LANE))
  {
    if x in b.tickets {
      ReleaseEffect(b.Put(x, AfterRun(teams, b.tickets[x], agent, run)), teams, x, id);
    }
  }

  // No writer clears a ticket's lane.
  lemma StaysOnBoard(b: Board, a: Act, id: nat)
    requires b.Ids() && OnLane(b, id) && id in Apply(b, a).tickets
    ensures OnLane(Apply(b, a), id)
  {
    match a.step
    case DecomposeStep(x, actor, summary, plan, stories) =>
      if MayDecompose(b, a.teams, x, actor, summary, plan, stories) {
        ParkKeepsLane(b, TeamOf(a.teams, b.tickets[x]).value, x, stories, id);
      }
    case CreateStep(team, at, to) =>
    case _ => LaneKept(b, a, id);
  }

  lemma ParkKeepsLane(b: Board, team: Team, x: nat, stories: seq<Spec>, id: nat)
    requires b.Ids() && x in b.tickets && AllStories(stories) && OnLane(b, id)
    ensures OnLane(Park(b, team, x, stories), id)
  {
    ParkEffect(b, team, x, stories, id);
  }

  predicate OnLane(b: Board, id: nat) {
    id in b.tickets && b.tickets[id].lane.Some?
  }

  lemma ReleaseKeepsLane(b: Board, teams: Teams, child: nat, id: nat)
    requires OnLane(b, id)
    ensures OnLane(Release(b, teams, child), id)
  {
    ReleaseEffect(b, teams, child, id);
  }

  lemma HandoffKeepsLane(b: Board, teams: Teams, x: nat, actor: Option<string>, assignee: string, id: nat)
    requires OnLane(b, id)
    ensures OnLane(Handoff(b, teams, x, actor, assignee), id)
  {
  }

  lemma OutcomeKeepsLane(b: Board, teams: Teams, x: nat, agent: string, run: RunState, id: nat)
    requires OnLane(b, id)
    ensures OnLane(ApplyOutcome(b, teams, x, agent, run), id)
  {
    if x in b.tickets {
      var written := b.Put(x, AfterRun(teams, b.tickets[x], agent, run));
      assert OnLane(written, id);
      ReleaseKeepsLane(written, teams, x, id);
    }
  }

  lemma LaneKept(b: Board, a: Act, id: nat)
    requires !a.step.DecomposeStep? && !a.step.CreateStep?
    requires OnLane(b, id) && id in Apply(b, a).tickets
    ensures OnLane(Apply(b, a), id)
  {
    match a.step
    case HandoffStep(x, actor, assignee) => HandoffKeepsLane(b, a.teams, x, actor, assignee, id);
    case CloseStep(x, actor) =>
      if MayClose(b, a.teams, x, actor) {
        ReleaseKeepsLane(b.Put(x, b.tickets[x].(lane := Some(DONE_LANE), state := Completed)), a.teams, x, id);
      }
    case OutcomeStep(x, agent, run) => OutcomeKeepsLane(b, a.teams, x, agent, run, id);
    case SweepStep(x) =>
      if x in b.tickets {
        ReleaseKeepsLane(b.Put(x, b.tickets[x].(state := Failed)), a.teams, x, id);
      }
    case _ =>
  }

  // A ticket the act creates for a guarded team starts outside the door.
  lemma NewTicketsStartOutside(b: Board, a: Act, id: nat, tid: string)
    requires b.Ids() && Guards(a, tid) && id !in b.tickets && Owned(Apply(b, a), id, tid)
    ensures !InDone(Apply(b, a), id) && !IsCompleted(Apply(b, a), id)
  {
    match a.step
    case DecomposeStep(x, actor, summary, plan, stories) =>
      DecomposeOpensNoDoor(b, a, id, tid);
    case CreateStep(team, at, to) =>
    case _ =>
      ActEffect(b, a, id);
  }

  // --- whole runs ---

  predicate ClosedIn(b: Board, acts: seq<Act>, id: nat)
    decreases |acts|
  {
    acts != [] && (Closes(b, acts[0], id) || ClosedIn(Apply(b, acts[0]), acts[1..], id))
  }

  predicate EndedLaneless(b: Board, acts: seq<Act>, id: nat)
    decreases |acts|
  {
    acts != [] && (EndsLaneless(b, acts[0], id) || EndedLaneless(Apply(b, acts[0]), acts[1..], id))
  }

  predicate EverInDone(b: Board, acts: seq<Act>, id: nat)
    decreases |acts|
  {
    InDone(b, id) || (acts != [] && EverInDone(Apply(b, acts[0]), acts[1..], id))
  }

  predicate EverCompleted(b: Board, acts: seq<Act>, id: nat)
    decreases |acts|
  {
    IsCompleted(b, id) || (acts != [] && EverCompleted(Apply(b, acts[0]), acts[1..], id))
  }

  // Whatever handoffs, moves, decompositions, releases, runs, crashes and clean-ups are interleaved: a ticket that
  // started outside `done` and not completed is ever found in `done` if and only if its lead closed it on the way. It is
  // ever found completed if and only if its lead closed it or a completed run ended on it while it had no lane, which
  // never happens to a ticket that started with one.
  lemma OnlyDoor(b: Board, acts: seq<Act>, id: nat, tid: string)
    requires b.Ids() && Owned(b, id, tid) && !InDone(b, id) && !IsCompleted(b, id)
    requires forall i :: 0 <= i < |acts| ==> Guards(acts[i], tid)
    ensures EverInDone(b, acts, id) <==> ClosedIn(b, acts, id)
    ensures EverCompleted(b, acts, id) <==> ClosedIn(b, acts, id) || EndedLaneless(b, acts, id)
    ensures b.tickets[id].lane.Some? ==> !EndedLaneless(b, acts, id)
  {
    DoneByCloseAlone(b, acts, id, tid);
    CompletedExactly(b, acts, id, tid);
    if b.tickets[id].lane.Some? {
      NeverLaneless(b, acts, id);
    }
  }

  lemma {:induction false} DoneByCloseAlone(b: Board, acts: seq<Act>, id: nat, tid: string)
    requires b.Ids() && Owned(b, id, tid) && !InDone(b, id)
    requires forall i :: 0 <= i < |acts| ==> Guards(acts[i], tid)
    ensures EverInDone(b, acts, id) <==> ClosedIn(b, acts, id)
    decreases |acts|
  {
    if acts != [] {
      var c := Apply(b, acts[0]);
      IdsStay(b, acts[0]);
      if Closes(b, acts[0], id) {
        ClosedIsDone(b, acts[0], id);
      } else if id !in c.tickets {
        GoneNever(c, acts[1..], id);
      } else {
        OneActOneDoor(b, acts[0], id, tid);
        DoneByCloseAlone(c, acts[1..], id, tid);
      }
    }
  }

  lemma ClosedIsDone(b: Board, a: Act, id: nat)
    requires Closes(b, a, id)
    ensures InDone(Apply(b, a), id) && IsCompleted(Apply(b, a), id)
  {
    ReleaseEffect(b.Put(id, b.tickets[id].(lane := Some(DONE_LANE), state := Completed)), a.teams, id, id);
  }

  lemma {:induction false} CompletedExactly(b: Board, acts: seq<Act>, id: nat, tid: string)
    requires b.Ids() && Owned(b, id, tid) && !InDone(b, id) && !IsCompleted(b, id)
    requires forall i :: 0 <= i < |acts| ==> Guards(acts[i], tid)
    ensures EverCompleted(b, acts, id) <==> ClosedIn(b, acts, id) || EndedLaneless(b, acts, id)
    decreases |acts|
  {
    if acts != [] {
      var c := Apply(b, acts[0]);
      IdsStay(b, acts[0]);
      if id !in c.tickets {
        OnlyRemovalRemoves(b, acts[0], id);
        GoneNever(c, acts[1..], id);
      } else {
        OneActOneDoor(b, acts[0], id, tid);
        if !IsCompleted(c, id) {
          CompletedExactly(c, acts[1..], id, tid);
        }
      }
    }
  }

  lemma OnlyRemovalRemoves(b: Board, a: Act, id: nat)
    requires b.Ids() && id in b.tickets && id !in Apply(b, a).tickets
    ensures a.step.RetireStep? || a.step.CompactStep?
  {
    match a.step
    case DecomposeStep(x, actor, summary, plan, stories) =>
      if MayDecompose(b, a.teams, x, actor, summary, plan, stories) {
        ParkEffect(b, TeamOf(a.teams, b.tickets[x]).value, x, stories, id);
      }
    case CreateStep(team, at, to) =>
    case _ => ActEffect(b, a, id);
  }

  lemma {:induction false} NeverLaneless(b: Board, acts: seq<Act>, id: nat)
    requires b.Ids() && id < b.next && (id in b.tickets ==> b.tickets[id].lane.Some?)
    ensures !EndedLaneless(b, acts, id)
    decreases |acts|
  {
    if acts != [] {
      var c := Apply(b, acts[0]);
      IdsStay(b, acts[0]);
      if id !in b.tickets {
        StaysAway(b, acts[0], id);
      } else if id in c.tickets {
        StaysOnBoard(b, acts[0], id);
      }
      NeverLaneless(c, acts[1..], id);
    }
  }

  lemma {:induction false} GoneNever(b: Board, acts: seq<Act>, id: nat)
    requires b.Ids() && id !in b.tickets && id < b.next
    ensures !EverInDone(b, acts, id) && !EverCompleted(b, acts, id)
    ensures !ClosedIn(b, acts, id) && !EndedLaneless(b, acts, id)
    decreases |acts|
  {
    if acts != [] {
      IdsStay(b, acts[0]);
      StaysAway(b, acts[0], id);
      GoneNever(Apply(b, acts[0]), acts[1..], id);
    }
  }

  // That other way to complete is real: a task assigned with a team but no lane, claimed and run to its end.
  lemma LanelessTicketCompletes(teams: Teams, tid: string, agent: string)
    requires tid in teams
    ensures var acts := [Act(teams, CreateStep(Some(tid), None, Some(agent))), Act(teams, ClaimStep(0)),
                         Act(teams, RunStep(0)), Act(teams, OutcomeStep(0, agent, RunCompleted))];
            && IsCompleted(Run(EMPTY, acts), 0) && !InDone(Run(EMPTY, acts), 0) && Owned(Run(EMPTY, acts), 0, tid)
            && !ClosedIn(EMPTY, acts, 0)
  {
    var a0, a1 := Act(teams, CreateStep(Some(tid), None, Some(agent))), Act(teams, ClaimStep(0));
    var a2, a3 := Act(teams, RunStep(0)), Act(teams, OutcomeStep(0, agent, RunCompleted));
    var b0 := EMPTY;
    var b1 := Apply(b0, a0);
    var b2 := Apply(b1, a1);
    var b3 := Apply(b2, a2);
    assert [a0, a1, a2, a3][1..] == [a1, a2, a3] && [a1, a2, a3][1..] == [a2, a3] && [a2, a3][1..] == [a3];
    assert [a3][1..] == [];
    assert Run(b3, [a3]) == Run(Apply(b3, a3), []) == Apply(b3, a3);
    assert Run(b2, [a2, a3]) == Apply(b3, a3) && Run(b1, [a1, a2, a3]) == Apply(b3, a3);
    assert !ClosedIn(Apply(b3, a3), [], 0) && !ClosedIn(b3, [a3], 0);
    assert !ClosedIn(b2, [a2, a3], 0) && !ClosedIn(b1, [a1, a2, a3], 0);
  }

  // Ids are never reused: a retired ticket does not come back.
  lemma {:induction false} GoneStaysGone(b: Board, acts: seq<Act>, id: nat)
    requires b.Ids() && id !in b.tickets && id < b.next
    ensures id !in Run(b, acts).tickets
    decreases |acts|
  {
    if acts != [] {
      IdsStay(b, acts[0]);
      StaysAway(b, acts[0], id);
      GoneStaysGone(Apply(b, acts[0]), acts[1..], id);
    }
  }
}
