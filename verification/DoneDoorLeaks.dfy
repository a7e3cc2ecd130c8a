// When `tickets.close` is not the only door into `done`: runs from the empty store through each of the others.
module DoneDoorLeaks {
  import opened Text
  import opened Lanes
  import opened HandoffLoop
  import opened TicketOutcome
  import opened Board
  import opened EpicLiveness
  import opened DoneDoor
  import opened SmallBoard

  predicate AllFiled(acts: seq<Act>) {
    forall i :: 0 <= i < |acts| ==> Filed(acts[i])
  }

  // After some run from the empty store, earlier acts possibly under other configs, an act under this one that is no
  // close takes a ticket of the team into `done`. Lanes are those that some config declared at the time.
  ghost predicate Leaks(teams: Teams, tid: string) {
    exists acts: seq<Act>, step: Step, id: nat :: LeaksBy(teams, tid, acts, step, id)
  }

  predicate LeaksBy(teams: Teams, tid: string, acts: seq<Act>, step: Step, id: nat) {
    && AllFiled(acts) && Filed(Act(teams, step)) && !step.CloseStep?
    && !InDone(Run(EMPTY, acts), id) && InDone(Apply(Run(EMPTY, acts), Act(teams, step)), id)
    && Owned(Apply(Run(EMPTY, acts), Act(teams, step)), id, tid)
  }

  lemma FirstLaneLeaks(teams: Teams, tid: string)
    requires tid != "" && tid in teams && FirstLane(teams[tid]) == Some(DONE_LANE)
    ensures Leaks(teams, tid)
  {
    assert LeaksBy(teams, tid, [], CreateStep(Some(tid), Some(DONE_LANE), None), 0);
  }

  lemma RunOfOne(b: Board, x: Act)
    ensures Run(b, [x]) == Apply(b, x)
  {
    assert [x][1..] == [];
    assert Run(Apply(b, x), []) == Apply(b, x);
  }

  // A task assigned without a lane, then handed on by a rule into `done`.
  lemma DerivedLaneLeaks(teams: Teams, tid: string, from: Option<string>, to: string)
    requires tid != "" && tid in teams && DeriveLane(teams[tid], from, to) == Some(DONE_LANE) && to != ""
    ensures Leaks(teams, tid)
  {
    var filing := Act(teams, CreateStep(Some(tid), None, None));
    var b := Apply(EMPTY, filing);
    RunOfOne(EMPTY, filing);
    var step := HandoffStep(0, from, to);
    assert TeamOf(teams, b.tickets[0]) == Some(teams[tid]);
    assert HandoffKindOf(b, teams, 0, from, to) == HandedOn;
    assert LeaksBy(teams, tid, [filing], step, 0);
  }

  // A lane that is neither `done` nor the close lane.
  function Elsewhere(team: Team): (lane: string)
    ensures lane != "" && lane != DONE_LANE && lane != ExpectedCloseLane(team)
  {
    if ExpectedCloseLane(team) == "x" then "y" else "x"
  }

  // Filed in another lane while the board had one, left unowned by its run once the bounce lane is `done`.
  lemma BounceLeaks(teams: Teams, tid: string)
    requires tid != "" && tid in teams && IsLifecycleManaged(teams[tid])
    requires BounceLane(teams[tid]) == Some(DONE_LANE) && OutcomeLeadIn(teams[tid].members).Some?
    ensures Leaks(teams, tid)
  {
    var lane := Elsewhere(teams[tid]);
    var before := map[tid := Team([], [Lane(lane, None)], [], None)];
    var filing, running := Act(before, CreateStep(Some(tid), Some(lane), None)), Act(teams, RunStep(0));
    var b := Run(EMPTY, [filing, running]);
    RunOfTwo(EMPTY, filing, running);
    assert b.tickets[0] == Ticket(Running, Some(lane), None, Meta(Some(tid), None, [], 0, map[], []));
    assert OnBoard(teams, b.tickets[0]);
    BouncesIntoDone(teams, b.tickets[0]);
    assert LeaksBy(teams, tid, [filing, running], OutcomeStep(0, "", RunCompleted), 0);
  }

  lemma BouncesIntoDone(teams: Teams, t: Ticket)
    requires OnBoard(teams, t) && t.state == Running && t.assignee.None? && t.meta.bounces == 0
    requires t.lane != Some(DONE_LANE) && t.lane != Some(ExpectedCloseLane(TeamOf(teams, t).value))
    requires BounceLane(TeamOf(teams, t).value) == Some(DONE_LANE)
    requires OutcomeLeadIn(TeamOf(teams, t).value.members).Some?
    ensures AfterRun(teams, t, "", RunCompleted).lane == Some(DONE_LANE)
    ensures AfterRun(teams, t, "", RunCompleted).state == Pending
  {
  }

  lemma RunOfTwo(b: Board, x: Act, y: Act)
    ensures Run(b, [x, y]) == Apply(Apply(b, x), y)
  {
    assert [x, y][1..] == [y];
    RunOfOne(Apply(b, x), y);
  }

  // An epic split while the board was an ordinary one, and released once the close lane is `done`.
  lemma ReleaseLeaks(teams: Teams, tid: string)
    requires tid != "" && tid in teams && CloseLane(teams[tid]) == Some(DONE_LANE)
    ensures Leaks(teams, tid)
  {
    var before := map[tid := SmallTeam()];
    SuchABoard(before, tid);
    SmallTeamIsManaged();
    SmallWorkLane();
    var acts := SplitRun(before, tid, "l", "s", "p", Story("x", "y", "d"));
    ReleasedIntoDone(teams, tid, acts, Run(EMPTY, acts));
  }

  lemma ReleasedIntoDone(teams: Teams, tid: string, acts: seq<Act>, b: Board)
    requires tid != "" && tid in teams && CloseLane(teams[tid]) == Some(DONE_LANE)
    requires AllFiled(acts) && b == Run(EMPTY, acts)
    requires Asleep(b, 0) && Children(b, 0) == [1] && b.tickets[0].lane != Some(DONE_LANE)
    requires Owned(b, 0, tid) && HasParent(b, 1, 0) && b.tickets[1].state == Claimed
    ensures Leaks(teams, tid)
  {
    SweptReleases(b, teams, tid);
    LeakWitness(teams, tid, acts, b, SweepStep(1), Sweep(b, teams, 1), 0);
  }

  lemma LeakWitness(teams: Teams, tid: string, acts: seq<Act>, b: Board, step: Step, c: Board, id: nat)
    requires AllFiled(acts) && Filed(Act(teams, step)) && !step.CloseStep?
    requires b == Run(EMPTY, acts) && c == Apply(b, Act(teams, step))
    requires !InDone(b, id) && InDone(c, id) && Owned(c, id, tid)
    ensures Leaks(teams, tid)
  {
    assert LeaksBy(teams, tid, acts, step, id);
  }

  lemma SplitRun(before: Teams, tid: string, lead: string, summary: string, plan: string, story: Spec)
    returns (acts: seq<Act>)
    requires CanSplit(before, tid, lead, summary, plan, story)
    requires WorkLane(before[tid]) == None && FirstLane(before[tid]) != Some(DONE_LANE)
    ensures var b := Run(EMPTY, acts);
            && AllFiled(acts)
            && Asleep(b, 0) && Children(b, 0) == [1] && b.tickets[0].lane != Some(DONE_LANE)
            && Owned(b, 0, tid) && HasParent(b, 1, 0) && b.tickets[1].state == Claimed
  {
    var filing, splitting := Filing(before, tid, lead), Splitting(before, lead, summary, plan, story);
    var claiming := Act(before, ClaimStep(1));
    acts := [filing, splitting, claiming];
    SplitParks(before, tid, lead, summary, plan, story);
    ClaimedStory(Apply(EMPTY, filing), before[tid], tid, story, splitting, claiming);
    RunOfThree(EMPTY, filing, splitting, claiming);
    SplitIsFiled(filing, splitting, claiming);
  }

  lemma SplitParks(before: Teams, tid: string, lead: string, summary: string, plan: string, story: Spec)
    requires CanSplit(before, tid, lead, summary, plan, story)
    ensures var b := Apply(EMPTY, Filing(before, tid, lead));
            && FiledAlone(b, tid, before[tid])
            && Apply(b, Splitting(before, lead, summary, plan, story)) == Park(b, before[tid], 0, [story])
  {
    var b := Apply(EMPTY, Filing(before, tid, lead));
    FilingEffect(before, tid, lead);
    SplittingIsAllowed(b, before, tid, lead, summary, plan, story);
    AllowedParks(b, before, 0, Some(lead), summary, plan, [story]);
  }

  predicate FiledAlone(b: Board, tid: string, team: Team) {
    b.Ids() && b.next == 1 && 0 in b.tickets && b.tickets[0].lane == FirstLane(team)
    && b.tickets[0].meta.team == Some(tid) && b.tickets[0].meta.children == []
  }

  lemma SplitIsFiled(x: Act, y: Act, z: Act)
    requires Filed(x) && y.step.DecomposeStep? && z.step.ClaimStep?
    ensures AllFiled([x, y, z])
  {
  }

  lemma ClaimedStory(b: Board, team: Team, tid: string, story: Spec, splitting: Act, claiming: Act)
    requires FiledAlone(b, tid, team) && story.Story? && claiming.step == ClaimStep(1)
    requires WorkLane(team) == None && FirstLane(team) != Some(DONE_LANE)
    requires Apply(b, splitting) == Park(b, team, 0, [story])
    ensures var c := Apply(Apply(b, splitting), claiming);
            && Asleep(c, 0) && Children(c, 0) == [1] && c.tickets[0].lane != Some(DONE_LANE)
            && Owned(c, 0, tid) && HasParent(c, 1, 0) && c.tickets[1].state == Claimed
  {
    var d := Park(b, team, 0, [story]);
    ParkedPair(b, team, story);
    ClaimedPair(d, claiming);
  }

  lemma ClaimedPair(d: Board, claiming: Act)
    requires 0 in d.tickets && 1 in d.tickets && claiming.step == ClaimStep(1)
    ensures Apply(d, claiming).tickets == d.tickets[1 := d.tickets[1].(state := Claimed)]
  {
  }

  lemma SweptReleases(b: Board, teams: Teams, tid: string)
    requires tid != "" && tid in teams && CloseLane(teams[tid]) == Some(DONE_LANE)
    requires Asleep(b, 0) && Children(b, 0) == [1] && Owned(b, 0, tid) && HasParent(b, 1, 0)
    requires b.tickets[1].state == Claimed
    ensures InDone(Sweep(b, teams, 1), 0) && Owned(Sweep(b, teams, 1), 0, tid)
  {
    var c := b.Put(1, b.tickets[1].(state := Failed));
    assert 1 in c.tickets[0].meta.children && Dead(c, 1);
    assert Wakes(c, 1);
  }

  // For a lifecycle-managed board `tickets.close` is the only door into `done` if and only if its config is sealed.
  lemma DoorSealedExactly(teams: Teams, tid: string)
    requires tid != "" && tid in teams && IsLifecycleManaged(teams[tid])
    ensures Leaks(teams, tid) <==> !Sealed(teams[tid])
  {
    var team := teams[tid];
    if FirstLane(team) == Some(DONE_LANE) {
      FirstLaneLeaks(teams, tid);
    } else if CloseLane(team) == Some(DONE_LANE) {
      ReleaseLeaks(teams, tid);
    } else if BounceLane(team) == Some(DONE_LANE) && OutcomeLeadIn(team.members).Some? {
      BounceLeaks(teams, tid);
    } else if exists from: Option<string>, to: string :: to != "" && DeriveLane(team, from, to) == Some(DONE_LANE) {
      var from: Option<string>, to: string :| to != "" && DeriveLane(team, from, to) == Some(DONE_LANE);
      DerivedLaneLeaks(teams, tid, from, to);
    } else {
      forall acts: seq<Act>, step: Step, id: nat ensures !LeaksBy(teams, tid, acts, step, id) {
        IdsStayOverRuns(EMPTY, acts);
        if LeaksBy(teams, tid, acts, step, id) {
          NoLeak(Run(EMPTY, acts), Act(teams, step), id, tid);
        }
      }
    }
  }

  lemma {:induction false} IdsStayOverRuns(b: Board, acts: seq<Act>)
    requires b.Ids()
    ensures Run(b, acts).Ids()
    decreases |acts|
  {
    if acts != [] {
      IdsStay(b, acts[0]);
      IdsStayOverRuns(Apply(b, acts[0]), acts[1..]);
    }
  }

  lemma NoLeak(b: Board, a: Act, id: nat, tid: string)
    requires b.Ids() && Guards(a, tid) && !a.step.CloseStep? && !InDone(b, id)
    requires Owned(Apply(b, a), id, tid)
    ensures !InDone(Apply(b, a), id)
  {
    if id !in b.tickets {
      NewTicketsStartOutside(b, a, id, tid);
    } else {
      TeamStays(b, a, id);
      OneActOneDoor(b, a, id, tid);
    }
  }
}
