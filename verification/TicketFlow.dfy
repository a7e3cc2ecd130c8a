// Where a ticket stands after each writer of the board, read off the config and the ticket as it was.
module TicketFlow {
  import opened Text
  import opened Lanes
  import opened HandoffLoop
  import opened TicketOutcome
  import opened Board
  import opened LaneRules

  // --- tickets.handoff ---

  predicate OthersSame(b: Board, c: Board, id: nat) {
    c.next == b.next && c.tickets.Keys == b.tickets.Keys
    && forall other :: other in b.tickets && other != id ==> c.tickets[other] == b.tickets[other]
  }

  // The ticket is queued with its new owner, in the lane derived for the two of them, if a rule covers them.
  predicate QueuedWith(team: Team, t: Ticket, u: Ticket, actor: Option<string>, owner: string) {
    && u.state == Pending && u.assignee == Some(owner)
    && u.lane == (if Truthy(DeriveLane(team, actor, owner)) then DeriveLane(team, actor, owner) else t.lane)
    && u.meta.team == t.meta.team
  }

  // Two different named agents have passed this ticket between them as often as they may.
  predicate Looping(t: Ticket, actor: Option<string>, assignee: string) {
    && actor.Some? && actor.value != "" && actor.value != assignee
    && Count(t, PairKey(actor.value, assignee)) + 1 >= 6
  }

  // The lead can still break the loop: it stands outside the pair and has not ruled on it.
  predicate LeadCanRule(team: Team, t: Ticket, actor: string, assignee: string) {
    && LeadOf(team).Some? && LeadOf(team).value != actor && LeadOf(team).value != assignee
    && PairKey(actor, assignee) !in t.meta.escalations
  }

  // Who holds the ticket after a handoff: the agent named, unless the pair loops; then the team's lead, if it can rule;
  // and otherwise the ticket is blocked where and with whom it was.
  lemma HandoffLands(b: Board, teams: Teams, id: nat, actor: Option<string>, assignee: string)
    requires assignee != "" && id in b.tickets && TeamOf(teams, b.tickets[id]).Some?
    ensures var c := Apply(b, Act(teams, HandoffStep(id, actor, assignee)));
            var team := TeamOf(teams, b.tickets[id]).value;
            var t := b.tickets[id];
            && OthersSame(b, c, id)
            && (!Looping(t, actor, assignee) ==> QueuedWith(team, t, c.tickets[id], actor, assignee))
            && (Looping(t, actor, assignee) && LeadCanRule(team, t, actor.value, assignee) ==>
                  && QueuedWith(team, t, c.tickets[id], actor, LeadOf(team).value)
                  && c.tickets[id].meta.escalations == t.meta.escalations + [PairKey(actor.value, assignee)])
            && (Looping(t, actor, assignee) && !LeadCanRule(team, t, actor.value, assignee) ==>
                  c.tickets[id].state == Blocked && c.tickets[id].lane == t.lane && c.tickets[id].assignee == t.assignee)
  {
  }

  // What it is called agrees with where the ticket went.
  lemma HandoffKindSays(b: Board, teams: Teams, id: nat, actor: Option<string>, assignee: string)
    ensures var kind := HandoffKindOf(b, teams, id, actor, assignee);
            if assignee == "" || id !in b.tickets || TeamOf(teams, b.tickets[id]).None? then
              kind == Refused && Apply(b, Act(teams, HandoffStep(id, actor, assignee))) == b
            else if !Looping(b.tickets[id], actor, assignee) then kind == HandedOn
            else if LeadCanRule(TeamOf(teams, b.tickets[id]).value, b.tickets[id], actor.value, assignee) then
              kind == Redirected(LeadOf(TeamOf(teams, b.tickets[id]).value).value)
            else kind == LoopBlocked
  {
  }

  // --- the end of a run ---

  // A release touches no ticket that is not asleep.
  lemma ReleaseLeavesAwake(b: Board, teams: Teams, child: nat, id: nat)
    requires id in b.tickets && b.tickets[id].state != Waiting
    ensures id in Release(b, teams, child).tickets && Release(b, teams, child).tickets[id] == b.tickets[id]
  {
  }

  // What the end of a run makes of its ticket when it has no lane, no team, or no managed board.
  lemma PlainEnd(b: Board, teams: Teams, id: nat, agent: string, run: RunState)
    requires id in b.tickets && !OnBoard(teams, b.tickets[id])
    ensures var c := Apply(b, Act(teams, OutcomeStep(id, agent, run)));
            var t := b.tickets[id];
            && OthersSame(b, c, id)
            && c.tickets[id] == t.(state := if t.lane.Some? && TeamOf(teams, t).None? then Blocked
                                            else if run == RunCompleted then Completed
                                            else if run == RunFailed then Failed else NeedsApproval)
  {
  }

  // The agent passed the ticket to somebody else, or it waits in the close lane.
  predicate Settled(teams: Teams, t: Ticket, agent: string)
    requires TeamOf(teams, t).Some?
  {
    || (t.assignee.Some? && t.assignee.value != agent)
    || (Truthy(t.lane) && t.lane.value == ExpectedCloseLane(TeamOf(teams, t).value))
  }

  predicate CanBounce(teams: Teams, t: Ticket)
    requires TeamOf(teams, t).Some?
  {
    && t.meta.bounces < 3
    && Truthy(BounceLane(TeamOf(teams, t).value)) && OutcomeLeadIn(TeamOf(teams, t).value.members).Some?
  }

  // What the end of a run makes of a ticket of a managed board.
  lemma BoardEnd(b: Board, teams: Teams, id: nat, agent: string, run: RunState)
    requires id in b.tickets && OnBoard(teams, b.tickets[id])
    ensures var c := Apply(b, Act(teams, OutcomeStep(id, agent, run)));
            var t := b.tickets[id];
            id in c.tickets && BoardEnded(teams, t, c.tickets[id], agent, run)
  {
    var t := b.tickets[id];
    var after := AfterRun(teams, t, agent, run);
    var written := b.Put(id, after);
    ReleaseEffect(written, teams, id, id);
    EndOf(teams, t, agent, run);
  }

  predicate BoardEnded(teams: Teams, t: Ticket, u: Ticket, agent: string, run: RunState)
    requires OnBoard(teams, t)
  {
    var team := TeamOf(teams, t).value;
    && (run == RunFailed ==> u == t.(state := Failed))
    && (run == RunNeedsApproval ==> u == t.(state := NeedsApproval))
    && (run == RunCompleted && t.lane == Some(DONE_LANE) ==> u == t.(state := Completed))
    && (run == RunCompleted && t.lane != Some(DONE_LANE) ==>
          && (t.state in {Waiting, Blocked} ==> u == t)
          && (t.state !in {Waiting, Blocked} && Settled(teams, t, agent) ==> u == t.(state := Pending))
          && (t.state !in {Waiting, Blocked} && !Settled(teams, t, agent) && CanBounce(teams, t) ==>
                u == t.(state := Pending, lane := BounceLane(team), assignee := OutcomeLeadIn(team.members),
                        meta := t.meta.(bounces := t.meta.bounces + 1)))
          && (t.state !in {Waiting, Blocked} && !Settled(teams, t, agent) && !CanBounce(teams, t) ==>
                u == t.(state := Blocked)))
  }

  lemma EndOf(teams: Teams, t: Ticket, agent: string, run: RunState)
    requires OnBoard(teams, t)
    ensures BoardEnded(teams, t, AfterRun(teams, t, agent, run), agent, run)
  {
  }

  // Handing on sticks: an agent hands its ticket on and its run then completes; the ticket is queued with whoever it
  // went to, in the lane derived for the two, unless that lane is `done`.
  lemma HandedOnStaysHandedOn(b: Board, teams: Teams, id: nat, agent: string, assignee: string)
    requires id in b.tickets && assignee != "" && assignee != agent && b.tickets[id].lane.Some?
    requires TeamOf(teams, b.tickets[id]).Some? && IsLifecycleManaged(TeamOf(teams, b.tickets[id]).value)
    requires !Looping(b.tickets[id], Some(agent), assignee)
    ensures var team := TeamOf(teams, b.tickets[id]).value;
            var c := Apply(b, Act(teams, HandoffStep(id, Some(agent), assignee)));
            var d := Apply(c, Act(teams, OutcomeStep(id, agent, RunCompleted)));
            c.tickets[id].lane != Some(DONE_LANE) ==>
              && id in d.tickets && d.tickets[id] == c.tickets[id]
              && QueuedWith(team, b.tickets[id], d.tickets[id], Some(agent), assignee)
  {
    var c := Apply(b, Act(teams, HandoffStep(id, Some(agent), assignee)));
    HandoffLands(b, teams, id, Some(agent), assignee);
    assert TeamOf(teams, c.tickets[id]) == TeamOf(teams, b.tickets[id]);
    PendingStays(c, teams, id, agent);
  }

  // The same when the loop guard sends it to the lead instead.
  lemma RedirectedStaysWithTheLead(b: Board, teams: Teams, id: nat, agent: string, assignee: string)
    requires id in b.tickets && assignee != "" && b.tickets[id].lane.Some?
    requires TeamOf(teams, b.tickets[id]).Some? && IsLifecycleManaged(TeamOf(teams, b.tickets[id]).value)
    requires Looping(b.tickets[id], Some(agent), assignee)
    requires LeadCanRule(TeamOf(teams, b.tickets[id]).value, b.tickets[id], agent, assignee)
    ensures var team := TeamOf(teams, b.tickets[id]).value;
            var c := Apply(b, Act(teams, HandoffStep(id, Some(agent), assignee)));
            var d := Apply(c, Act(teams, OutcomeStep(id, agent, RunCompleted)));
            c.tickets[id].lane != Some(DONE_LANE) ==>
              && id in d.tickets && d.tickets[id] == c.tickets[id]
              && QueuedWith(team, b.tickets[id], d.tickets[id], Some(agent), LeadOf(team).value)
  {
    var c := Apply(b, Act(teams, HandoffStep(id, Some(agent), assignee)));
    HandoffLands(b, teams, id, Some(agent), assignee);
    assert TeamOf(teams, c.tickets[id]) == TeamOf(teams, b.tickets[id]);
    PendingStays(c, teams, id, agent);
  }

  // And when it blocks the ticket: the end of the run does not undo it.
  lemma LoopBlockSticks(b: Board, teams: Teams, id: nat, agent: string, assignee: string)
    requires id in b.tickets && assignee != "" && b.tickets[id].lane.Some? && b.tickets[id].lane != Some(DONE_LANE)
    requires TeamOf(teams, b.tickets[id]).Some? && IsLifecycleManaged(TeamOf(teams, b.tickets[id]).value)
    requires Looping(b.tickets[id], Some(agent), assignee)
    requires !LeadCanRule(TeamOf(teams, b.tickets[id]).value, b.tickets[id], agent, assignee)
    ensures var c := Apply(b, Act(teams, HandoffStep(id, Some(agent), assignee)));
            var d := Apply(c, Act(teams, OutcomeStep(id, agent, RunCompleted)));
            id in d.tickets && d.tickets[id] == c.tickets[id] && d.tickets[id].state == Blocked
  {
    var c := Apply(b, Act(teams, HandoffStep(id, Some(agent), assignee)));
    HandoffLands(b, teams, id, Some(agent), assignee);
    var t := c.tickets[id];
    assert TeamOf(teams, t) == TeamOf(teams, b.tickets[id]);
    EndOf(teams, t, agent, RunCompleted);
    ReleaseLeavesAwake(c.Put(id, t), teams, id, id);
  }

  lemma PendingStays(c: Board, teams: Teams, id: nat, agent: string)
    requires id in c.tickets && OnBoard(teams, c.tickets[id])
    requires c.tickets[id].state == Pending && c.tickets[id].assignee.Some? && c.tickets[id].assignee.value != agent
    ensures c.tickets[id].lane != Some(DONE_LANE) ==>
              var d := Apply(c, Act(teams, OutcomeStep(id, agent, RunCompleted)));
              id in d.tickets && d.tickets[id] == c.tickets[id]
  {
    EndOf(teams, c.tickets[id], agent, RunCompleted);
  }

  // --- tickets.move, archive and delete ---

  // The actor is the gatekeeper, or a member whose id or role is the actor's answers to its name.
  predicate Admitted(team: Team, actor: Option<string>, gate: string) {
    && actor.Some? && actor.value != ""
    && (actor.value == gate
        || exists m :: m in team.members && (m.id == actor || m.role == actor) && (m.id == Some(gate) || m.role == Some(gate)))
  }

  // No gate on the lane the ticket stands in keeps this actor from taking it out.
  predicate MayLeave(team: Team, lane: Option<string>, actor: Option<string>) {
    forall k :: 0 <= k < |team.lanes| && StandsIn(team, lane, k) && Truthy(team.lanes[k].gate) ==>
                  Admitted(team, actor, team.lanes[k].gate.value)
  }

  // The k-th lane is the first one of this name.
  predicate StandsIn(team: Team, lane: Option<string>, k: nat)
    requires k < |team.lanes|
  {
    lane == Some(team.lanes[k].id) && forall j :: 0 <= j < k ==> team.lanes[j].id != team.lanes[k].id
  }

  lemma {:induction false} FindLaneExactly(lanes: seq<Lane>, id: string) returns (k: nat)
    ensures k <= |lanes| && (forall j :: 0 <= j < k ==> lanes[j].id != id)
    ensures FindLane(lanes, id) == if k < |lanes| then Some(lanes[k]) else None
    ensures k < |lanes| ==> lanes[k].id == id
  {
    if lanes == [] || lanes[0].id == id {
      k := 0;
    } else {
      k := FindLaneExactly(lanes[1..], id);
      k := k + 1;
    }
  }

  lemma AdmittedAnswers(team: Team, actor: Option<string>, gate: string)
    requires gate != ""
    ensures AnswersTo(team, actor, gate) <==> Admitted(team, actor, gate)
  {
    if Truthy(actor) && exists m :: m in team.members && (m.id == actor || m.role == actor)
                                    && (m.id == Some(gate) || m.role == Some(gate)) {
      var m :| m in team.members && (m.id == actor || m.role == actor) && (m.id == Some(gate) || m.role == Some(gate));
      var i :| 0 <= i < |team.members| && team.members[i] == m;
    }
    forall i | 0 <= i < |team.members| ensures team.members[i] in team.members {
    }
  }

  lemma GatedExactly(team: Team, lane: Option<string>, actor: Option<string>)
    ensures Gated(team, lane, actor) <==> !MayLeave(team, lane, actor)
  {
    if lane.Some? {
      var k := FindLaneExactly(team.lanes, lane.value);
      if k < |team.lanes| && Truthy(team.lanes[k].gate) {
        AdmittedAnswers(team, actor, team.lanes[k].gate.value);
      }
    }
  }

  // A board runs the ticket lifecycle: it has `done`, a rule into a lane it declares, and a bounce lane it declares.
  predicate Managed(team: Team) {
    && (exists i :: 0 <= i < |team.lanes| && team.lanes[i].id == "done")
    && (exists rule :: rule in team.rules && exists i :: 0 <= i < |team.lanes| && team.lanes[i].id == rule.lane)
    && team.bounce.Some? && team.bounce.value != ""
    && (exists i :: 0 <= i < |team.lanes| && team.lanes[i].id == team.bounce.value)
  }

  lemma ManagedExactly(team: Team)
    ensures IsLifecycleManaged(team) <==> Managed(team)
  {
    KnownRulesAreKnown(team, team.rules);
    var usable := UsableRules(team);
    if usable != [] {
      assert usable[0] in usable;
    }
    if exists rule :: rule in team.rules && HasLane(team, rule.lane) {
      var rule :| rule in team.rules && HasLane(team, rule.lane);
      assert rule in usable;
    }
  }

  predicate MoveAllowed(teams: Teams, t: Ticket, lane: string, actor: Option<string>) {
    TeamOf(teams, t).Some? &&
    var team := TeamOf(teams, t).value;
    && (exists i :: 0 <= i < |team.lanes| && team.lanes[i].id == lane)
    && !(lane == "done" && Managed(team))
    && MayLeave(team, t.lane, actor)
  }

  // A move is accepted if and only if the lane is declared, is not `done` on a managed board, and the lane the ticket
  // stands in has no gate or one that admits the actor. Then the ticket stands in the lane asked for and nothing else
  // changed; otherwise nothing did.
  lemma MoveExactly(b: Board, teams: Teams, id: nat, lane: string, actor: Option<string>)
    ensures var c := Apply(b, Act(teams, MoveStep(id, lane, actor)));
            && (MayMove(b, teams, id, lane, actor) <==> id in b.tickets && MoveAllowed(teams, b.tickets[id], lane, actor))
            && (id in b.tickets && MoveAllowed(teams, b.tickets[id], lane, actor) ==>
                  OthersSame(b, c, id) && c.tickets[id] == b.tickets[id].(lane := Some(lane)))
            && (!(id in b.tickets && MoveAllowed(teams, b.tickets[id], lane, actor)) ==> c == b)
  {
    if id in b.tickets && TeamOf(teams, b.tickets[id]).Some? {
      var team := TeamOf(teams, b.tickets[id]).value;
      ManagedExactly(team);
      GatedExactly(team, b.tickets[id].lane, actor);
    }
  }

  predicate RetireAllowed(teams: Teams, t: Ticket, actor: Option<string>) {
    Truthy(t.meta.team) ==> TeamOf(teams, t).Some? && MayLeave(TeamOf(teams, t).value, t.lane, actor)
  }

  // A ticket is archived or deleted if and only if it has no team, or its team is known and the lane it stands in has no
  // gate or one that admits the actor; nothing else changes.
  lemma RetireExactly(b: Board, teams: Teams, id: nat, actor: Option<string>)
    ensures var c := Apply(b, Act(teams, RetireStep(id, actor)));
            && (MayRetire(b, teams, id, actor) <==> id in b.tickets && RetireAllowed(teams, b.tickets[id], actor))
            && (id in b.tickets && RetireAllowed(teams, b.tickets[id], actor) ==>
                  id !in c.tickets && c.next == b.next
                  && forall other :: other != id ==> (other in c.tickets <==> other in b.tickets)
                                                     && (other in b.tickets ==> c.tickets[other] == b.tickets[other]))
            && (!(id in b.tickets && RetireAllowed(teams, b.tickets[id], actor)) ==> c == b)
  {
    if id in b.tickets && TeamOf(teams, b.tickets[id]).Some? {
      GatedExactly(TeamOf(teams, b.tickets[id]).value, b.tickets[id].lane, actor);
    }
  }

  // --- tickets.close and tickets.decompose ---

  predicate ByLead(team: Team, actor: Option<string>) {
    RoleOf(team, if actor.Some? then actor.value else "") == Some("lead")
  }

  // A close is accepted if and only if the actor's role is lead and the ticket stands in the close lane; otherwise
  // nothing changes.
  lemma CloseExactly(b: Board, teams: Teams, id: nat, actor: Option<string>)
    ensures var c := Apply(b, Act(teams, CloseStep(id, actor)));
            if id in b.tickets && TeamOf(teams, b.tickets[id]).Some? && ByLead(TeamOf(teams, b.tickets[id]).value, actor)
               && b.tickets[id].lane == Some(ExpectedCloseLane(TeamOf(teams, b.tickets[id]).value))
            then id in c.tickets && c.tickets[id] == b.tickets[id].(lane := Some("done"), state := Completed)
            else c == b
  {
    if MayClose(b, teams, id, actor) {
      ReleaseLeavesAwake(b.Put(id, b.tickets[id].(lane := Some(DONE_LANE), state := Completed)), teams, id, id);
    }
  }

  // A story an agent may file: titled, described, and for a member of the team.
  predicate Fileable(team: Team, s: Spec) {
    && s.Story? && !Blank(s.title) && !Blank(s.description) && s.assignee != ""
    && exists m :: m in team.members && m.id == Some(s.assignee)
  }

  predicate SplitAllowed(teams: Teams, t: Ticket, actor: Option<string>, summary: string, plan: string,
                         stories: seq<Spec>)
  {
    TeamOf(teams, t).Some? &&
    var team := TeamOf(teams, t).value;
    && Managed(team) && ByLead(team, actor) && t.meta.children == []
    && !Blank(summary) && !Blank(plan)
    && 1 <= |stories| <= 20
    && forall s :: s in stories ==> Fileable(team, s)
  }

  lemma FileableExactly(team: Team, s: Spec)
    ensures Fileable(team, s) <==> s.Story? && GoodStory(team, s)
  {
    if s.Story? && exists m :: m in team.members && m.id == Some(s.assignee) {
      var m :| m in team.members && m.id == Some(s.assignee);
      var i :| 0 <= i < |team.members| && team.members[i] == m;
    }
    assert forall i :: 0 <= i < |team.members| ==> team.members[i] in team.members;
  }

  lemma AllFileable(team: Team, stories: seq<Spec>)
    ensures (forall s :: s in stories ==> Fileable(team, s))
            <==> AllStories(stories) && forall i :: 0 <= i < |stories| ==> GoodStory(team, stories[i])
  {
    forall i | 0 <= i < |stories| ensures Fileable(team, stories[i]) <==> stories[i].Story? && GoodStory(team, stories[i]) {
      FileableExactly(team, stories[i]);
    }
    assert forall i :: 0 <= i < |stories| ==> stories[i] in stories;
  }

  // A decomposition is accepted if and only if a lead of a managed board splits an undecomposed ticket, with a summary and
  // a plan, into 1 to 20 fileable stories; otherwise nothing changes.
  lemma DecomposeExactly(b: Board, teams: Teams, e: nat, actor: Option<string>, summary: string, plan: string,
                         stories: seq<Spec>)
    ensures var allowed := e in b.tickets && SplitAllowed(teams, b.tickets[e], actor, summary, plan, stories);
            && (MayDecompose(b, teams, e, actor, summary, plan, stories) <==> allowed)
            && (!allowed ==> Apply(b, Act(teams, DecomposeStep(e, actor, summary, plan, stories))) == b)
  {
    if e in b.tickets && TeamOf(teams, b.tickets[e]).Some? {
      var team := TeamOf(teams, b.tickets[e]).value;
      ManagedExactly(team);
      AllFileable(team, stories);
    }
  }

  // --- the remaining writers ---

  // Claiming, running, holding and requeueing set the state and nothing else.
  lemma StateWritesExactly(b: Board, teams: Teams, id: nat)
    requires id in b.tickets
    ensures Apply(b, Act(teams, ClaimStep(id))) == b.(tickets := b.tickets[id := b.tickets[id].(state := Claimed)])
    ensures Apply(b, Act(teams, RunStep(id))) == b.(tickets := b.tickets[id := b.tickets[id].(state := Running)])
    ensures Apply(b, Act(teams, HoldStep(id))) == b.(tickets := b.tickets[id := b.tickets[id].(state := NeedsApproval)])
    ensures Apply(b, Act(teams, RequeueStep(id))) == b.(tickets := b.tickets[id := b.tickets[id].(state := Pending)])
  {
  }

  // A task filed by any other part of the runtime is pending, where and with whom it was filed, under a new id.
  lemma CreateExactly(b: Board, teams: Teams, team: Option<string>, at: Option<string>, to: Option<string>)
    requires b.Ids()
    ensures var c := Apply(b, Act(teams, CreateStep(team, at, to)));
            && c.next == b.next + 1 && b.next !in b.tickets
            && c.tickets == b.tickets[b.next := Ticket(Pending, at, to, Meta(team, None, [], 0, map[], []))]
  {
  }

  // The stale sweep fails a stranded run's ticket, wherever it stands, and leaves any other alone.
  lemma SweepExactly(b: Board, teams: Teams, id: nat)
    ensures var c := Apply(b, Act(teams, SweepStep(id)));
            if id in b.tickets && b.tickets[id].state in {Claimed, Running}
            then id in c.tickets && c.tickets[id] == b.tickets[id].(state := Failed)
            else c == b
  {
    if id in b.tickets && b.tickets[id].state in {Claimed, Running} {
      ReleaseLeavesAwake(b.Put(id, b.tickets[id].(state := Failed)), teams, id, id);
    }
  }

  // A release wakes the parent if and only if it sleeps and a listed child failed, is blocked or gone, or all completed.
  lemma ReleaseExactly(b: Board, teams: Teams, child: nat, p: nat)
    requires child in b.tickets && b.tickets[child].meta.parent == Some(p) && p in b.tickets
    ensures var kids := b.tickets[p].meta.children;
            var due := b.tickets[p].state == Waiting
                       && ((exists k :: k in kids && (k !in b.tickets || b.tickets[k].state in {Failed, Blocked}))
                           || forall k :: k in kids ==> k in b.tickets && b.tickets[k].state == Completed);
            var c := Release(b, teams, child);
            && OthersSame(b, c, p)
            && (due ==> c.tickets[p].state == Pending && c.tickets[p].meta == b.tickets[p].meta)
            && (!due ==> c == b)
  {
  }
}
