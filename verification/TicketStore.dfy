// The board as the runtime updates it: a store of ticket records that each handler reads and rewrites in place.
// Every method is proved to have exactly the effect of the board function of the same name.
module TicketStore {
  import opened Text
  import opened Lanes
  import opened HandoffLoop
  import opened TicketOutcome
  import opened B = Board

  class Store {
    var tickets: map<nat, Ticket>
    var next: nat

    function View(): Board
      reads this
    {
      Board(tickets, next)
    }

    constructor ()
      ensures View() == EMPTY
    {
      tickets, next := map[], 0;
    }

    method CreateTask(lane: Option<string>, assignee: Option<string>, meta: Meta) returns (id: nat)
      modifies this
      ensures id == old(next) && next == id + 1
      ensures tickets == old(tickets)[id := Ticket(Pending, lane, assignee, meta)]
    {
      id := next;
      tickets := tickets[id := Ticket(Pending, lane, assignee, meta)];
      next := next + 1;
    }

    // tickets.handoff, with the loop guard.
    method Handoff(teams: Teams, id: nat, actor: Option<string>, assignee: string) returns (kind: HandoffKind)
      modifies this
      ensures View() == B.Handoff(old(View()), teams, id, actor, assignee)
      ensures kind == HandoffKindOf(old(View()), teams, id, actor, assignee)
    {
      if assignee == "" || id !in tickets || TeamOf(teams, tickets[id]).None? {
        return Refused;
      }
      var task := tickets[id];
      var team := TeamOf(teams, task).value;
      var loopCounts := task.meta.pairs;
      var escalated := task.meta.escalations;
      var to := assignee;
      var verdict := Evaluate(loopCounts, escalated, actor, assignee, LeadOf(team), MAX_PAIR_HANDOFFS);
      var key := PairKey(Shown(actor), assignee);
      loopCounts := loopCounts[key := (if key in loopCounts then loopCounts[key] else 0) + 1];
      kind := HandedOn;
      if verdict.Block? {
        tickets := tickets[id := task.(state := Blocked, meta := task.meta.(pairs := loopCounts))];
        return LoopBlocked;
      }
      if verdict.Redirect? {
        escalated := escalated + [key];
        to := verdict.lead;
        kind := Redirected(to);
      }
      PassOn(id, team, actor, to, loopCounts, escalated);
    }

    method PassOn(id: nat, team: Team, actor: Option<string>, to: string, loopCounts: map<string, nat>,
                  escalated: seq<string>)
      requires id in tickets && (escalated == [] ==> tickets[id].meta.escalations == [])
      modifies this
      ensures next == old(next)
      ensures tickets == old(tickets)[id := PassedOn(team, old(tickets[id]), actor, to, loopCounts, escalated)]
    {
      var task := tickets[id];
      var lane := DeriveLane(team, actor, to);
      var metadata := task.meta.(bounces := 0, pairs := loopCounts);
      if escalated != [] {
        metadata := metadata.(escalations := escalated);
      }
      var updated := task.(assignee := Some(to), state := Pending, meta := metadata);
      if Truthy(lane) {
        updated := updated.(lane := lane);
      }
      tickets := tickets[id := updated];
    }

    // Scans the listed children once, as the two comprehensions over them do.
    method ChildrenReady(children: seq<nat>) returns (ready: bool)
      ensures ready <==> Ready(View(), children)
    {
      var allDone := true;
      for i := 0 to |children|
        invariant forall j :: 0 <= j < i ==> !Dead(View(), children[j])
        invariant allDone <==> forall j :: 0 <= j < i ==> Finished(View(), children[j])
      {
        if Dead(View(), children[i]) {
          return true;
        }
        if !Finished(View(), children[i]) {
          allDone := false;
        }
      }
      ready := allDone;
      if allDone {
        forall c | c in children ensures Finished(View(), c) {
        }
      } else {
        var j :| 0 <= j < |children| && !Finished(View(), children[j]);
        assert children[j] in children;
      }
    }

    // release_parent_if_ready.
    method ReleaseParentIfReady(teams: Teams, childId: nat) returns (released: Option<nat>)
      modifies this
      ensures View() == Release(old(View()), teams, childId)
      ensures released == if Wakes(old(View()), childId) then old(tickets[childId].meta.parent) else None
    {
      released := None;
      if childId !in tickets || tickets[childId].meta.parent.None? {
        return;
      }
      var parentId := tickets[childId].meta.parent.value;
      if parentId !in tickets || tickets[parentId].state != Waiting {
        return;
      }
      var epic := tickets[parentId];
      var ready := ChildrenReady(epic.meta.children);
      if !ready {
        return;
      }
      var team := TeamOf(teams, epic);
      var woken := epic.(state := Pending);
      if team.Some? {
        woken := woken.(assignee := LeadOf(team.value));
        var lane := ExpectedCloseLane(team.value);
        if lane != "" {
          woken := woken.(lane := Some(lane));
        }
      }
      tickets := tickets[parentId := woken];
      released := Some(parentId);
    }

    // tickets.close.
    method Close(teams: Teams, id: nat, actor: Option<string>) returns (closed: bool)
      modifies this
      ensures View() == B.Close(old(View()), teams, id, actor)
      ensures closed == MayClose(old(View()), teams, id, actor)
    {
      if id !in tickets || TeamOf(teams, tickets[id]).None? {
        return false;
      }
      var team := TeamOf(teams, tickets[id]).value;
      if RoleOf(team, if actor.Some? then actor.value else "") != Some("lead") {
        return false;
      }
      if tickets[id].lane != Some(ExpectedCloseLane(team)) {
        return false;
      }
      tickets := tickets[id := tickets[id].(lane := Some(DONE_LANE), state := Completed)];
      var _ := ReleaseParentIfReady(teams, id);
      closed := true;
    }

    // The writes of an accepted decomposition: one ticket per story, then the epic.
    method ParkEpic(team: Team, id: nat, stories: seq<Spec>) returns (children: seq<nat>)
      requires id in tickets && AllStories(stories)
      modifies this
      ensures View() == Park(old(View()), team, id, stories)
      ensures children == Span(old(next), |stories|)
    {
      var epic := tickets[id];
      children := [];
      ghost var before := View();
      for i := 0 to |stories|
        invariant children == Span(before.next, i)
        invariant View() == AddStories(before, epic.meta.team, id, FirstLane(team), stories[..i])
      {
        assert stories[..i + 1][..i] == stories[..i];
        var sid := CreateTask(FirstLane(team), Some(stories[i].assignee), Meta(epic.meta.team, Some(id), [], 0, map[], []));
        children := children + [sid];
      }
      assert stories[..|stories|] == stories;
      var metadata := epic.meta.(children := children);
      var lane := WorkLane(team);
      var updated := epic.(state := Waiting, meta := metadata);
      if Truthy(lane) {
        updated := updated.(lane := lane);
      }
      tickets := tickets[id := updated];
    }

    method IsMember(team: Team, assignee: string) returns (known: bool)
      ensures known <==> exists i :: 0 <= i < |team.members| && team.members[i].id == Some(assignee)
    {
      known := false;
      for m := 0 to |team.members|
        invariant known <==> exists i :: 0 <= i < m && team.members[i].id == Some(assignee)
      {
        if team.members[m].id == Some(assignee) {
          known := true;
        }
      }
    }

    // A story is an object with a title, a brief, and a member of the team to do it.
    method StoryIsGood(team: Team, spec: Spec) returns (good: bool)
      ensures good <==> spec.Story? && GoodStory(team, spec)
    {
      if spec.NotAnObject? || Blank(spec.title) || Blank(spec.description) || spec.assignee == "" {
        return false;
      }
      good := IsMember(team, spec.assignee);
    }

    method StoriesAreGood(team: Team, stories: seq<Spec>) returns (good: bool)
      ensures good <==> AllStories(stories) && forall i :: 0 <= i < |stories| ==> GoodStory(team, stories[i])
    {
      for n := 0 to |stories|
        invariant forall i :: 0 <= i < n ==> stories[i].Story? && GoodStory(team, stories[i])
      {
        good := StoryIsGood(team, stories[n]);
        if !good {
          return;
        }
      }
      good := true;
    }

    // tickets.decompose: each refusal in turn, then the writes.
    method Decompose(teams: Teams, id: nat, actor: Option<string>, summary: string, plan: string, stories: seq<Spec>)
      returns (children: seq<nat>)
      modifies this
      ensures View() == B.Decompose(old(View()), teams, id, actor, summary, plan, stories)
      ensures children == if MayDecompose(old(View()), teams, id, actor, summary, plan, stories)
                          then Span(old(next), |stories|) else []
    {
      children := [];
      if id !in tickets {
        return;
      }
      var found := TeamOf(teams, tickets[id]);
      if found.None? || !IsLifecycleManaged(found.value) {
        return;
      }
      var team := found.value;
      if RoleOf(team, if actor.Some? then actor.value else "") != Some("lead") {
        return;
      }
      if tickets[id].meta.children != [] || Blank(summary) || Blank(plan) {
        return;
      }
      if stories == [] || |stories| > MAX_STORIES {
        return;
      }
      var good := StoriesAreGood(team, stories);
      if !good {
        return;
      }
      children := ParkEpic(team, id, stories);
    }

    // tickets.move.
    method MoveTaskLane(teams: Teams, id: nat, toLane: string, actor: Option<string>) returns (moved: bool)
      modifies this
      ensures View() == Move(old(View()), teams, id, toLane, actor)
      ensures moved == MayMove(old(View()), teams, id, toLane, actor)
    {
      if id !in tickets || TeamOf(teams, tickets[id]).None? {
        return false;
      }
      var team := TeamOf(teams, tickets[id]).value;
      if !HasLane(team, toLane) {
        return false;
      }
      if toLane == DONE_LANE && IsLifecycleManaged(team) {
        return false;
      }
      if Gated(team, tickets[id].lane, actor) {
        return false;
      }
      tickets := tickets[id := tickets[id].(lane := Some(toLane))];
      moved := true;
    }

    // archive_ticket and delete_ticket.
    method RetireTicket(teams: Teams, id: nat, actor: Option<string>) returns (gone: bool)
      modifies this
      ensures View() == Retire(old(View()), teams, id, actor)
      ensures gone == MayRetire(old(View()), teams, id, actor)
    {
      if id !in tickets {
        return false;
      }
      if Truthy(tickets[id].meta.team) {
        if TeamOf(teams, tickets[id]).None? {
          return false;
        }
        if Gated(TeamOf(teams, tickets[id]).value, tickets[id].lane, actor) {
          return false;
        }
      }
      tickets := tickets - {id};
      gone := true;
    }

    // compaction._archive_tasks: the listed old tickets leave the store, unless they are still to be finished.
    method ArchiveTasks(order: seq<nat>)
      modifies this
      ensures next == old(next)
      ensures forall id :: id in tickets <==>
                id in old(tickets) && !(id in order && old(tickets)[id].state in {Completed, Failed})
      ensures forall id :: id in tickets ==> tickets[id] == old(tickets)[id]
    {
      for i := 0 to |order|
        invariant next == old(next)
        invariant forall id :: id in tickets <==>
                    id in old(tickets) && !(id in order[..i] && old(tickets)[id].state in {Completed, Failed})
        invariant forall id :: id in tickets ==> tickets[id] == old(tickets)[id]
      {
        assert order[..i + 1] == order[..i] + [order[i]];
        ArchiveIfFinished(order[i]);
      }
      assert order[..|order|] == order;
    }

    method ArchiveIfFinished(id: nat)
      modifies this
      ensures View() == Compact(old(View()), id)
    {
      if id in tickets && (tickets[id].state == Completed || tickets[id].state == Failed) {
        tickets := tickets - {id};
      }
    }

    // The end of a run.
    method ApplyTicketOutcome(teams: Teams, id: nat, agent: string, run: RunState)
      modifies this
      ensures View() == ApplyOutcome(old(View()), teams, id, agent, run)
    {
      if id !in tickets {
        return;
      }
      var found := tickets[id];
      if found.lane.None? {
        tickets := tickets[id := found.(state := AsTaskState(run))];
        return;
      }
      var team := TeamOf(teams, found);
      if team.None? {
        tickets := tickets[id := found.(state := Blocked)];
        return;
      }
      if !IsLifecycleManaged(team.value) {
        tickets := tickets[id := found.(state := AsTaskState(run))];
        return;
      }
      var outcome := ResolveTicketOutcome(found.state, found.lane, found.assignee, found.meta.bounces, team.value, run, agent);
      var metadata := found.meta;
      if outcome.bounced {
        metadata := metadata.(bounces := metadata.bounces + 1);
      }
      tickets := tickets[id := found.(state := outcome.state, lane := outcome.lane, assignee := outcome.assignee,
                                      meta := metadata)];
      if Terminal(outcome.state) {
        var _ := ReleaseParentIfReady(teams, id);
      }
    }

    // recovery.sweep_stale, for one task past the threshold.
    method SweepStale(teams: Teams, id: nat)
      modifies this
      ensures View() == Sweep(old(View()), teams, id)
    {
      if id in tickets && (tickets[id].state == Claimed || tickets[id].state == Running) {
        tickets := tickets[id := tickets[id].(state := Failed)];
        var _ := ReleaseParentIfReady(teams, id);
      }
    }
  }
}
