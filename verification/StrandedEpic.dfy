// A run from the empty store that strands an epic, and what becomes of an epic whose stories are all gone.
module StrandedEpic {
  import opened Text
  import opened Lanes
  import opened TicketOutcome
  import opened Board
  import opened EpicLiveness
  import opened SmallBoard

  function Retiring(teams: Teams, lead: string): Act {
    Act(teams, RetireStep(1, Some(lead)))
  }

  lemma RetiringRemoves(b: Board, teams: Teams, tid: string, lead: string)
    requires 1 in b.tickets && b.tickets[1].meta.team == Some(tid) && tid != "" && tid in teams
    requires b.tickets[1].lane == FirstLane(teams[tid]) && !Gated(teams[tid], FirstLane(teams[tid]), Some(lead))
    ensures Apply(b, Retiring(teams, lead)) == b.(tickets := b.tickets - {1})
  {
  }

  // On every such board, from an empty store: filed, decomposed, and its one story deleted, the epic sleeps with
  // nothing to wait for.
  lemma DeletedStoryStrandsItsEpic(teams: Teams, tid: string, lead: string, summary: string, plan: string, story: Spec)
    requires CanSplit(teams, tid, lead, summary, plan, story)
    ensures var b := Run(EMPTY, [Filing(teams, tid, lead), Splitting(teams, lead, summary, plan, story),
                                 Retiring(teams, lead)]);
            Asleep(b, 0) && !HasOpen(b, Children(b, 0)) && Childless(b, 0)
  {
    var first, second := Filing(teams, tid, lead), Splitting(teams, lead, summary, plan, story);
    var b1 := Apply(EMPTY, first);
    var b2 := Apply(b1, second);
    FilingEffect(teams, tid, lead);
    SplittingIsAllowed(b1, teams, tid, lead, summary, plan, story);
    AllowedParks(b1, teams, 0, Some(lead), summary, plan, [story]);
    ParkedPair(b1, teams[tid], story);
    RetiringRemoves(b2, teams, tid, lead);
    RunOfThree(EMPTY, first, second, Retiring(teams, lead));
  }

  // No listed child is left in the store.
  predicate Childless(b: Board, e: nat) {
    forall c :: c in Children(b, e) ==> c !in b.tickets
  }

  lemma ActLeavesStranded(b: Board, a: Act, e: nat)
    requires Linked(b) && Asleep(b, e) && Childless(b, e)
    requires a.step.CreateStep? || Subject(a) != e
    ensures var d := Apply(b, a); Asleep(d, e) && d.tickets[e] == b.tickets[e] && Childless(d, e)
  {
    var d := Apply(b, a);
    forall c | c in Children(b, e) ensures c !in d.tickets && ChildKnows(b, c, e) {
      StaysAway(b, a, c);
    }
    match a.step
    case DecomposeStep(x, actor, summary, plan, stories) =>
      if MayDecompose(b, a.teams, x, actor, summary, plan, stories) {
        ParkEffect(b, TeamOf(a.teams, b.tickets[x]).value, x, stories, e);
      }
    case CreateStep(team, at, to) =>
    case _ => OnlyItsChildrenWake(b, a, e);
  }

  lemma OnlyItsChildrenWake(b: Board, a: Act, e: nat)
    requires Linked(b) && Asleep(b, e) && Childless(b, e)
    requires !a.step.DecomposeStep? && !a.step.CreateStep? && Subject(a) != e
    ensures e in Apply(b, a).tickets && Apply(b, a).tickets[e] == b.tickets[e]
  {
    var x := Subject(a);
    assert HasParent(b, x, e) ==> ParentKnows(b, x, e) && x in Children(b, e);
    ActEffect(b, a, e);
    match a.step
    case OutcomeStep(_, agent, run) =>
      if x in b.tickets {
        AfterRunEffect(a.teams, b.tickets[x], agent, run);
      }
    case _ =>
  }

  // An epic whose stories are all gone never wakes, whatever happens to other tickets: only an act that names the epic
  // itself can move it again.
  lemma {:induction false} StrandedNeverWakes(b: Board, acts: seq<Act>, e: nat)
    requires Linked(b) && Asleep(b, e) && Childless(b, e)
    requires forall i :: 0 <= i < |acts| ==> acts[i].step.CreateStep? || Subject(acts[i]) != e
    ensures e in Run(b, acts).tickets && Run(b, acts).tickets[e] == b.tickets[e]
    decreases |acts|
  {
    if acts != [] {
      LinksStay(b, acts[0]);
      ActLeavesStranded(b, acts[0], e);
      StrandedNeverWakes(Apply(b, acts[0]), acts[1..], e);
    }
  }
}
