// Short runs from the empty store: a ticket is filed, and its lead splits it into one story.
module SmallBoard {
  import opened Text
  import opened Lanes
  import opened TicketOutcome
  import opened Board
  import opened EpicLiveness

  // A managed board on which `lead` may split a ticket into `story`, and may take one out of the first lane.
  predicate CanSplit(teams: Teams, tid: string, lead: string, summary: string, plan: string, story: Spec) {
    && tid != "" && tid in teams && IsLifecycleManaged(teams[tid])
    && RoleOf(teams[tid], lead) == Some("lead")
    && !Gated(teams[tid], FirstLane(teams[tid]), Some(lead))
    && !Blank(summary) && !Blank(plan) && story.Story? && GoodStory(teams[tid], story)
  }

  function Filing(teams: Teams, tid: string, lead: string): Act
    requires tid in teams
  {
    Act(teams, CreateStep(Some(tid), FirstLane(teams[tid]), Some(lead)))
  }

  function Splitting(teams: Teams, lead: string, summary: string, plan: string, story: Spec): Act {
    Act(teams, DecomposeStep(0, Some(lead), summary, plan, [story]))
  }

  lemma SplittingIsAllowed(b: Board, teams: Teams, tid: string, lead: string, summary: string, plan: string, story: Spec)
    requires CanSplit(teams, tid, lead, summary, plan, story)
    requires 0 in b.tickets && b.tickets[0].meta.team == Some(tid) && b.tickets[0].meta.children == []
    ensures MayDecompose(b, teams, 0, Some(lead), summary, plan, [story])
  {
    assert TeamOf(teams, b.tickets[0]) == Some(teams[tid]);
    assert AllStories([story]) && |[story]| == 1;
  }

  lemma AllowedParks(b: Board, teams: Teams, e: nat, actor: Option<string>, summary: string, plan: string,
                     stories: seq<Spec>)
    requires MayDecompose(b, teams, e, actor, summary, plan, stories)
    ensures Decompose(b, teams, e, actor, summary, plan, stories)
            == Park(b, TeamOf(teams, b.tickets[e]).value, e, stories)
  {
  }

  lemma FilingEffect(teams: Teams, tid: string, lead: string)
    requires tid in teams
    ensures var b := Apply(EMPTY, Filing(teams, tid, lead));
            && b.Ids() && b.next == 1 && 0 in b.tickets && b.tickets[0].lane == FirstLane(teams[tid])
            && b.tickets[0].meta.team == Some(tid) && b.tickets[0].meta.children == []
  {
  }

  lemma ParkedPair(b: Board, team: Team, story: Spec)
    requires b.Ids() && 0 in b.tickets && b.next == 1 && story.Story?
    ensures var d := Park(b, team, 0, [story]);
            && d.Ids() && d.next == 2
            && Asleep(d, 0) && Children(d, 0) == [1]
            && 1 in d.tickets && d.tickets[1].meta.team == b.tickets[0].meta.team
            && d.tickets[1].lane == FirstLane(team)
            && d.tickets[0] == ParkedEpic(b.tickets[0], team, [1]) && d.tickets[1].meta.parent == Some(0)
  {
    var d := Park(b, team, 0, [story]);
    ParkEffect(b, team, 0, [story], 0);
    ParkEffect(b, team, 0, [story], 1);
    forall id | id in d.tickets ensures id < d.next {
      ParkEffect(b, team, 0, [story], id);
    }
    assert Span(1, 1) == [1];
  }

  lemma RunOfThree(b: Board, x: Act, y: Act, z: Act)
    ensures Run(b, [x, y, z]) == Apply(Apply(Apply(b, x), y), z)
  {
    assert [x, y, z][1..] == [y, z] && [y, z][1..] == [z] && [z][1..] == [];
    assert Run(Apply(Apply(b, x), y), [z]) == Run(Apply(Apply(Apply(b, x), y), z), []);
  }

  lemma OneLetter(c: char)
    requires !IsSpace(c)
    ensures !Blank([c])
  {
  }

  function SmallTeam(): Team {
    Team([Member(Some("l"), Some("lead")), Member(Some("d"), Some("dev"))], [Lane("a", None), Lane(DONE_LANE, None)],
         [Rule(None, Some("dev"), "a")], Some("a"))
  }

  lemma SmallTeamIsManaged()
    ensures IsLifecycleManaged(SmallTeam()) && FirstLane(SmallTeam()) == Some("a")
    ensures RoleOf(SmallTeam(), "l") == Some("lead") && !Gated(SmallTeam(), Some("a"), Some("l"))
  {
    var team := SmallTeam();
    assert team.lanes[0].id == "a" && team.lanes[1].id == DONE_LANE;
    assert HasLane(team, "a") && HasLane(team, DONE_LANE);
    KnownRulesAreKnown(team, team.rules);
    assert team.rules[0] in team.rules;
    assert team.rules[0] in UsableRules(team);
  }

  // No rule names the lead, so an epic of this team keeps its lane.
  lemma SmallWorkLane()
    ensures WorkLane(SmallTeam()) == None
  {
    var team := SmallTeam();
    assert LeadOf(team) == Some("l") && RoleOf(team, "l") == Some("lead");
    assert forall rule :: rule in team.rules ==> rule.from == None;
    KnownRulesAreKnown(team, team.rules);
    NoneFrom(UsableRules(team), "lead");
  }

  lemma {:induction false} NoneFrom(rules: seq<Rule>, role: string)
    requires forall rule :: rule in rules ==> rule.from == None
    ensures FirstTo(rules, Some(role)) == None
  {
    if rules != [] {
      assert rules[0] in rules;
      NoneFrom(rules[1..], role);
    }
  }

  lemma SmallStory()
    ensures GoodStory(SmallTeam(), Story("x", "y", "d")) && !Blank("s") && !Blank("p")
  {
    OneLetter('s');
    OneLetter('p');
    OneLetter('x');
    OneLetter('y');
    assert SmallTeam().members[1].id == Some("d");
  }

  // One such board: a lead, a builder, a lane to work in, and `done`.
  lemma SuchABoard(teams: Teams, tid: string)
    requires tid != "" && tid in teams && teams[tid] == SmallTeam()
    ensures CanSplit(teams, tid, "l", "s", "p", Story("x", "y", "d"))
  {
    SmallTeamIsManaged();
    SmallStory();
  }
}
