// The ticket board as a state machine: every writer of a ticket, as a function on the board.
// Errors the program raises leave the board as it was.
module Board {
  import opened Text
  import opened Lanes
  import opened HandoffLoop
  import opened TicketOutcome

  const MAX_STORIES := 20

  datatype Meta = Meta(team: Option<string>, parent: Option<nat>, children: seq<nat>, bounces: nat,
                       pairs: map<string, nat>, escalations: seq<string>)

  datatype Ticket = Ticket(state: TaskState, lane: Option<string>, assignee: Option<string>, meta: Meta)

  // Live tickets, and the next unused id: ids are never reused.
  datatype Board = Board(tickets: map<nat, Ticket>, next: nat) {
    predicate Has(id: nat) {
      id in tickets
    }

    function Put(id: nat, t: Ticket): Board {
      this.(tickets := tickets[id := t])
    }

    predicate Ids() {
      forall id :: id in tickets ==> id < next
    }
  }

  type Teams = map<string, Team>

  // The team config a ticket's metadata resolves to.
  function TeamOf(teams: Teams, t: Ticket): Option<Team> {
    if Truthy(t.meta.team) && t.meta.team.value in teams then Some(teams[t.meta.team.value]) else None
  }

  predicate Dead(b: Board, id: nat) {
    id !in b.tickets || b.tickets[id].state == Failed || b.tickets[id].state == Blocked
  }

  predicate Finished(b: Board, id: nat) {
    id in b.tickets && b.tickets[id].state == Completed
  }

  // release_parent_if_ready: some listed child is dead or gone, or all of them completed.
  predicate Ready(b: Board, children: seq<nat>) {
    (exists c :: c in children && Dead(b, c)) || (forall c :: c in children ==> Finished(b, c))
  }

  function Released(teams: Teams, epic: Ticket): Ticket {
    var team := TeamOf(teams, epic);
    if team.None? then epic.(state := Pending)
    else
      var lane := ExpectedCloseLane(team.value);
      epic.(state := Pending, assignee := LeadOf(team.value),
            lane := if lane != "" then Some(lane) else epic.lane)
  }

  predicate Wakes(b: Board, child: nat) {
    child in b.tickets && b.tickets[child].meta.parent.Some? &&
    var p := b.tickets[child].meta.parent.value;
    p in b.tickets && b.tickets[p].state == Waiting && Ready(b, b.tickets[p].meta.children)
  }

  function Release(b: Board, teams: Teams, child: nat): Board {
    if Wakes(b, child) then
      var p := b.tickets[child].meta.parent.value;
      b.Put(p, Released(teams, b.tickets[p]))
    else b
  }

  // --- tickets.handoff ---

  datatype HandoffKind = Refused | LoopBlocked | Redirected(lead: string) | HandedOn

  function HandoffVerdict(team: Team, t: Ticket, actor: Option<string>, assignee: string): Verdict {
    Evaluate(t.meta.pairs, t.meta.escalations, actor, assignee, LeadOf(team), MAX_PAIR_HANDOFFS)
  }

  function HandoffKindOf(b: Board, teams: Teams, id: nat, actor: Option<string>, assignee: string): HandoffKind {
    if assignee == "" || id !in b.tickets || TeamOf(teams, b.tickets[id]).None? then Refused
    else
      match HandoffVerdict(TeamOf(teams, b.tickets[id]).value, b.tickets[id], actor, assignee)
      case Block => LoopBlocked
      case Redirect(lead) => Redirected(lead)
      case Proceed => HandedOn
  }

  function Count(t: Ticket, key: string): nat {
    if key in t.meta.pairs then t.meta.pairs[key] else 0
  }

  function Counted(t: Ticket, key: string): map<string, nat> {
    t.meta.pairs[key := Count(t, key) + 1]
  }

  function Handoff(b: Board, teams: Teams, id: nat, actor: Option<string>, assignee: string): Board {
    var kind := HandoffKindOf(b, teams, id, actor, assignee);
    if kind == Refused then b
    else
      var t := b.tickets[id];
      var key := PairKey(Shown(actor), assignee);
      var counts := Counted(t, key);
      if kind == LoopBlocked then
        b.Put(id, t.(state := Blocked, meta := t.meta.(pairs := counts)))
      else
        var to := if kind.Redirected? then kind.lead else assignee;
        var esc := if kind.Redirected? then t.meta.escalations + [key] else t.meta.escalations;
        b.Put(id, PassedOn(TeamOf(teams, t).value, t, actor, to, counts, esc))
  }

  // The ticket in its new owner's hands, in the lane derived for them.
  function PassedOn(team: Team, t: Ticket, actor: Option<string>, to: string, counts: map<string, nat>,
                    escalations: seq<string>): Ticket
  {
    var lane := DeriveLane(team, actor, to);
    t.(state := Pending, assignee := Some(to), lane := if Truthy(lane) then lane else t.lane,
       meta := t.meta.(bounces := 0, pairs := counts, escalations := escalations))
  }

  // --- tickets.close ---

  predicate MayClose(b: Board, teams: Teams, id: nat, actor: Option<string>) {
    id in b.tickets && TeamOf(teams, b.tickets[id]).Some? &&
    var team := TeamOf(teams, b.tickets[id]).value;
    RoleOf(team, if actor.Some? then actor.value else "") == Some("lead")
    && b.tickets[id].lane == Some(ExpectedCloseLane(team))
  }

  function Close(b: Board, teams: Teams, id: nat, actor: Option<string>): Board {
    if !MayClose(b, teams, id, actor) then b
    else Release(b.Put(id, b.tickets[id].(lane := Some(DONE_LANE), state := Completed)), teams, id)
  }

  // --- tickets.decompose ---

  datatype Spec = NotAnObject | Story(title: string, description: string, assignee: string)

  predicate GoodStory(team: Team, s: Spec)
    requires s.Story?
  {
    !Blank(s.title) && !Blank(s.description)
    && s.assignee != "" && exists i :: 0 <= i < |team.members| && team.members[i].id == Some(s.assignee)
  }

  predicate AllStories(stories: seq<Spec>) {
    forall i :: 0 <= i < |stories| ==> stories[i].Story?
  }

  predicate MayDecompose(b: Board, teams: Teams, id: nat, actor: Option<string>, summary: string, plan: string,
                         stories: seq<Spec>)
  {
    id in b.tickets && TeamOf(teams, b.tickets[id]).Some? &&
    var team := TeamOf(teams, b.tickets[id]).value;
    IsLifecycleManaged(team)
    && RoleOf(team, if actor.Some? then actor.value else "") == Some("lead")
    && b.tickets[id].meta.children == []
    && !Blank(summary) && !Blank(plan)
    && 0 < |stories| <= MAX_STORIES
    && AllStories(stories) && forall i :: 0 <= i < |stories| ==> GoodStory(team, stories[i])
  }

  function NewStory(team: Option<string>, parent: nat, lane: Option<string>, assignee: string): Ticket {
    Ticket(Pending, lane, Some(assignee), Meta(team, Some(parent), [], 0, map[], []))
  }

  // One new ticket per story, with consecutive fresh ids.
  function AddStories(b: Board, team: Option<string>, parent: nat, lane: Option<string>, stories: seq<Spec>): (r: Board)
    requires forall i :: 0 <= i < |stories| ==> stories[i].Story?
    ensures r.next == b.next + |stories|
    ensures b.Ids() ==> forall id :: id in r.tickets <==> id in b.tickets || b.next <= id < r.next
    ensures b.Ids() ==> forall id :: id in b.tickets ==> r.tickets[id] == b.tickets[id]
    ensures b.Ids() ==> forall id :: b.next <= id < r.next ==>
      r.tickets[id] == NewStory(team, parent, lane, stories[id - b.next].assignee)
    decreases |stories|
  {
    if stories == [] then b
    else
      var k := |stories| - 1;
      var r0 := AddStories(b, team, parent, lane, stories[..k]);
      Board(r0.tickets[r0.next := NewStory(team, parent, lane, stories[k].assignee)], r0.next + 1)
  }

  function FirstLane(team: Team): Option<string> {
    if team.lanes == [] then None else Some(team.lanes[0].id)
  }

  function Span(from: nat, n: nat): (r: seq<nat>)
    ensures |r| == n && forall i :: 0 <= i < n ==> r[i] == from + i
  {
    seq(n, i requires 0 <= i < n => from + i)
  }

  function ParkedEpic(epic: Ticket, team: Team, children: seq<nat>): Ticket {
    var lane := WorkLane(team);
    epic.(state := Waiting, lane := if Truthy(lane) then lane else epic.lane,
          meta := epic.meta.(children := children))
  }

  // The accepted case: the stories are created, then the epic is linked to them and parked.
  function Park(b: Board, team: Team, id: nat, stories: seq<Spec>): Board
    requires id in b.tickets && AllStories(stories)
  {
    var epic := b.tickets[id];
    AddStories(b, epic.meta.team, id, FirstLane(team), stories)
      .Put(id, ParkedEpic(epic, team, Span(b.next, |stories|)))
  }

  function Decompose(b: Board, teams: Teams, id: nat, actor: Option<string>, summary: string, plan: string,
                     stories: seq<Spec>): Board
  {
    if !MayDecompose(b, teams, id, actor, summary, plan, stories) then b
    else
      Park(b, TeamOf(teams, b.tickets[id]).value, id, stories)
  }

  // What a decomposition does to any one ticket.
  lemma ParkEffect(b: Board, team: Team, e: nat, stories: seq<Spec>, id: nat)
    requires b.Ids() && e in b.tickets && AllStories(stories)
    ensures var d := Park(b, team, e, stories);
            && d.next == b.next + |stories|
            && (id in d.tickets <==> id in b.tickets || b.next <= id < d.next)
            && (id in b.tickets && id != e ==> d.tickets[id] == b.tickets[id])
            && (b.next <= id < d.next ==>
                  d.tickets[id] == NewStory(b.tickets[e].meta.team, e, FirstLane(team), stories[id - b.next].assignee))
            && d.tickets[e] == ParkedEpic(b.tickets[e], team, Span(b.next, |stories|))
  {
  }

  // The i-th story of a decomposed epic, field by field.
  predicate StoryOf(d: Board, e: nat, i: nat, first: nat, team: Team, teamId: Option<string>, assignee: string) {
    && e in d.tickets && i < |d.tickets[e].meta.children| && d.tickets[e].meta.children[i] == first + i
    && first + i in d.tickets
    && var story := d.tickets[first + i];
       && story.state == Pending && story.assignee == Some(assignee)
       && team.lanes != [] && story.lane == Some(team.lanes[0].id)
       && story.meta == Meta(teamId, Some(e), [], 0, map[], [])
  }

  // A decomposition parks the epic in the team's work lane, still in its owner's hands, on one story per spec.
  lemma ParkSays(b: Board, team: Team, e: nat, stories: seq<Spec>)
    requires b.Ids() && e in b.tickets && AllStories(stories) && team.lanes != []
    ensures var d := Park(b, team, e, stories);
            && e in d.tickets && |d.tickets[e].meta.children| == |stories|
            && d.tickets[e].state == Waiting && d.tickets[e].assignee == b.tickets[e].assignee
            && d.tickets[e].lane == (if Truthy(WorkLane(team)) then WorkLane(team) else b.tickets[e].lane)
            && (forall i :: 0 <= i < |stories| ==>
                  StoryOf(d, e, i, b.next, team, b.tickets[e].meta.team, stories[i].assignee))
            && forall id :: id in b.tickets && id != e ==> id in d.tickets && d.tickets[id] == b.tickets[id]
  {
    var d := Park(b, team, e, stories);
    ParkEffect(b, team, e, stories, e);
    forall i | 0 <= i < |stories|
      ensures StoryOf(d, e, i, b.next, team, b.tickets[e].meta.team, stories[i].assignee)
    {
      ParkEffect(b, team, e, stories, b.next + i);
    }
    forall id | id in b.tickets && id != e ensures id in d.tickets && d.tickets[id] == b.tickets[id] {
      ParkEffect(b, team, e, stories, id);
    }
  }

  // Only a lead decomposes, only an undecomposed ticket, and only onto members of the team; anything else changes nothing.
  lemma DecomposeIsGuarded(b: Board, teams: Teams, e: nat, actor: Option<string>, summary: string, plan: string,
                           stories: seq<Spec>)
    requires Decompose(b, teams, e, actor, summary, plan, stories) != b
    ensures e in b.tickets && TeamOf(teams, b.tickets[e]).Some? && b.tickets[e].meta.children == []
    ensures var team := TeamOf(teams, b.tickets[e]).value;
            && RoleOf(team, if actor.Some? then actor.value else "") == Some("lead") && HasLane(team, DONE_LANE)
            && 1 <= |stories| <= 20
            && forall i :: 0 <= i < |stories| ==>
                 && stories[i].Story? && !Blank(stories[i].title) && !Blank(stories[i].description)
                 && exists m :: 0 <= m < |team.members| && team.members[m].id == Some(stories[i].assignee)
  {
  }

  // --- tickets.move ---

  predicate MayMove(b: Board, teams: Teams, id: nat, lane: string, actor: Option<string>) {
    id in b.tickets && TeamOf(teams, b.tickets[id]).Some? &&
    var team := TeamOf(teams, b.tickets[id]).value;
    HasLane(team, lane)
    && !(lane == DONE_LANE && IsLifecycleManaged(team))
    && !Gated(team, b.tickets[id].lane, actor)
  }

  function Move(b: Board, teams: Teams, id: nat, lane: string, actor: Option<string>): Board {
    if MayMove(b, teams, id, lane, actor) then b.Put(id, b.tickets[id].(lane := Some(lane))) else b
  }

  // --- archive / delete ---

  predicate MayRetire(b: Board, teams: Teams, id: nat, actor: Option<string>) {
    id in b.tickets &&
    (Truthy(b.tickets[id].meta.team) ==>
       TeamOf(teams, b.tickets[id]).Some?
       && !Gated(TeamOf(teams, b.tickets[id]).value, b.tickets[id].lane, actor))
  }

  function Retire(b: Board, teams: Teams, id: nat, actor: Option<string>): Board {
    if MayRetire(b, teams, id, actor) then b.(tickets := b.tickets - {id}) else b
  }

  // Compaction moves an old finished ticket out of the store: no gate, no release.
  function Compact(b: Board, id: nat): Board {
    if id in b.tickets && (b.tickets[id].state == Completed || b.tickets[id].state == Failed) then
      b.(tickets := b.tickets - {id})
    else b
  }

  // --- the end of a run ---

  // The ticket's run is resolved by the lane rules only on a lifecycle-managed board.
  predicate OnBoard(teams: Teams, t: Ticket) {
    t.lane.Some? && TeamOf(teams, t).Some? && IsLifecycleManaged(TeamOf(teams, t).value)
  }

  predicate Terminal(s: TaskState) {
    s == Completed || s == Failed || s == Blocked
  }

  function OutcomeOf(teams: Teams, t: Ticket, agent: string, run: RunState): Outcome
    requires TeamOf(teams, t).Some?
  {
    ResolveTicketOutcome(t.state, t.lane, t.assignee, t.meta.bounces, TeamOf(teams, t).value, run, agent)
  }

  function AfterRun(teams: Teams, t: Ticket, agent: string, run: RunState): Ticket {
    if t.lane.None? then t.(state := AsTaskState(run))
    else if TeamOf(teams, t).None? then t.(state := Blocked)
    else if !IsLifecycleManaged(TeamOf(teams, t).value) then t.(state := AsTaskState(run))
    else
      var o := OutcomeOf(teams, t, agent, run);
      t.(state := o.state, lane := o.lane, assignee := o.assignee,
         meta := if o.bounced then t.meta.(bounces := t.meta.bounces + 1) else t.meta)
  }

  function ApplyOutcome(b: Board, teams: Teams, id: nat, agent: string, run: RunState): Board {
    if id !in b.tickets then b
    else
      var t := b.tickets[id];
      var after := AfterRun(teams, t, agent, run);
      var written := b.Put(id, after);
      if OnBoard(teams, t) && Terminal(after.state) then Release(written, teams, id) else written
  }

  // recovery.sweep_stale on one stranded task.
  function Sweep(b: Board, teams: Teams, id: nat): Board {
    if id in b.tickets && (b.tickets[id].state == Claimed || b.tickets[id].state == Running) then
      Release(b.Put(id, b.tickets[id].(state := Failed)), teams, id)
    else b
  }

  // set_task_state as the run loop (claimed, running, held) and an approval (pending) use it.
  function SetState(b: Board, id: nat, state: TaskState): Board {
    if id in b.tickets then b.Put(id, b.tickets[id].(state := state)) else b
  }

  // A task filed by any other part of the runtime: unlinked.
  function Create(b: Board, team: Option<string>, lane: Option<string>, assignee: Option<string>): Board {
    Board(b.tickets[b.next := Ticket(Pending, lane, assignee, Meta(team, None, [], 0, map[], []))], b.next + 1)
  }

  // --- one step of any writer, under the team configs it loaded ---

  datatype Step =
    | HandoffStep(id: nat, actor: Option<string>, assignee: string)
    | CloseStep(id: nat, actor: Option<string>)
    | DecomposeStep(id: nat, actor: Option<string>, summary: string, plan: string, stories: seq<Spec>)
    | MoveStep(id: nat, lane: string, actor: Option<string>)
    | RetireStep(id: nat, actor: Option<string>)
    | CompactStep(id: nat)
    | OutcomeStep(id: nat, agent: string, run: RunState)
    | SweepStep(id: nat)
    | ClaimStep(id: nat)
    | RunStep(id: nat)
    | HoldStep(id: nat)
    | RequeueStep(id: nat)
    | CreateStep(team: Option<string>, at: Option<string>, to: Option<string>)

  // A step with the team configs in force when it runs: configs may change between steps.
  datatype Act = Act(teams: Teams, step: Step)

  function Apply(b: Board, a: Act): Board {
    match a.step
    case HandoffStep(id, actor, assignee) => Handoff(b, a.teams, id, actor, assignee)
    case CloseStep(id, actor) => Close(b, a.teams, id, actor)
    case DecomposeStep(id, actor, summary, plan, stories) => Decompose(b, a.teams, id, actor, summary, plan, stories)
    case MoveStep(id, lane, actor) => Move(b, a.teams, id, lane, actor)
    case RetireStep(id, actor) => Retire(b, a.teams, id, actor)
    case CompactStep(id) => Compact(b, id)
    case OutcomeStep(id, agent, run) => ApplyOutcome(b, a.teams, id, agent, run)
    case SweepStep(id) => Sweep(b, a.teams, id)
    case ClaimStep(id) => SetState(b, id, Claimed)
    case RunStep(id) => SetState(b, id, Running)
    case HoldStep(id) => SetState(b, id, NeedsApproval)
    case RequeueStep(id) => SetState(b, id, Pending)
    case CreateStep(team, at, to) => Create(b, team, at, to)
  }

  function Run(b: Board, acts: seq<Act>): Board
    decreases |acts|
  {
    if acts == [] then b else Run(Apply(b, acts[0]), acts[1..])
  }

  function Subject(a: Act): nat {
    match a.step
    case HandoffStep(id, _, _) => id
    case CloseStep(id, _) => id
    case DecomposeStep(id, _, _, _, _) => id
    case MoveStep(id, _, _) => id
    case RetireStep(id, _) => id
    case CompactStep(id) => id
    case OutcomeStep(id, _, _) => id
    case SweepStep(id) => id
    case ClaimStep(id) => id
    case RunStep(id) => id
    case HoldStep(id) => id
    case RequeueStep(id) => id
    case CreateStep(_, _, _) => 0
  }

  // --- what one act can do to one ticket ---

  // Links and team are kept, and nothing but a decomposition puts a ticket to sleep.
  predicate Gentle(t: Ticket, u: Ticket) {
    && u.meta.parent == t.meta.parent && u.meta.children == t.meta.children && u.meta.team == t.meta.team
    && (u.state == Waiting ==> t.state == Waiting)
  }

  predicate SameMemory(t: Ticket, u: Ticket) {
    u.meta.pairs == t.meta.pairs && u.meta.escalations == t.meta.escalations
  }

  lemma ReleaseEffect(b: Board, teams: Teams, child: nat, id: nat)
    ensures var c := Release(b, teams, child);
            && c.next == b.next && (id in c.tickets <==> id in b.tickets)
            && (id in b.tickets ==>
                  c.tickets[id] == b.tickets[id]
                  || (b.tickets[id].state == Waiting && c.tickets[id] == Released(teams, b.tickets[id])))
  {
  }

  lemma AfterRunEffect(teams: Teams, t: Ticket, agent: string, run: RunState)
    ensures Gentle(t, AfterRun(teams, t, agent, run)) && SameMemory(t, AfterRun(teams, t, agent, run))
  {
  }

  lemma HandoffEffect(b: Board, teams: Teams, x: nat, actor: Option<string>, assignee: string, id: nat)
    ensures var c := Handoff(b, teams, x, actor, assignee);
            && c.next == b.next && (id in c.tickets <==> id in b.tickets)
            && (id in b.tickets ==> Gentle(b.tickets[id], c.tickets[id]) && (id != x ==> c.tickets[id] == b.tickets[id]))
  {
  }

  // A ticket is touched only by acts that name it or, if it sleeps, by a release; only a handoff of it adds to
  // the loop guard's memory; only retiring or compacting it removes it.
  lemma ActEffect(b: Board, a: Act, id: nat)
    requires !a.step.DecomposeStep? && !a.step.CreateStep?
    ensures var c := Apply(b, a);
            && c.next == b.next
            && (id in c.tickets ==> id in b.tickets && Gentle(b.tickets[id], c.tickets[id]))
            && (id in c.tickets && !(a.step.HandoffStep? && a.step.id == id) ==>
                  SameMemory(b.tickets[id], c.tickets[id]))
            && (id in b.tickets && id !in c.tickets ==> (a.step.RetireStep? || a.step.CompactStep?) && a.step.id == id)
            && (id in c.tickets && id != Subject(a) ==>
                  c.tickets[id] == b.tickets[id]
                  || (b.tickets[id].state == Waiting && c.tickets[id] == Released(a.teams, b.tickets[id])))
  {
    match a.step
    case HandoffStep(x, actor, assignee) =>
      HandoffEffect(b, a.teams, x, actor, assignee, id);
    case CloseStep(x, actor) =>
      if MayClose(b, a.teams, x, actor) {
        ReleaseEffect(b.Put(x, b.tickets[x].(lane := Some(DONE_LANE), state := Completed)), a.teams, x, id);
      }
    case OutcomeStep(x, agent, run) =>
      if x in b.tickets {
        AfterRunEffect(a.teams, b.tickets[x], agent, run);
        ReleaseEffect(b.Put(x, AfterRun(a.teams, b.tickets[x], agent, run)), a.teams, x, id);
      }
    case SweepStep(x) =>
      if x in b.tickets {
        ReleaseEffect(b.Put(x, b.tickets[x].(state := Failed)), a.teams, x, id);
      }
    case _ =>
  }

  // The actor is neither the gatekeeper nor a member that answers to its name.
  predicate Stranger(team: Team, actor: Option<string>, gate: string) {
    Truthy(actor) ==>
      && actor.value != gate
      && forall m :: m in team.members && (m.id == actor || m.role == actor) ==> m.id != Some(gate) && m.role != Some(gate)
  }

  // A gate binds archiving and deleting as much as moving: none of them takes a ticket out of a gated lane for a
  // stranger.
  lemma GatedLaneHoldsTheTicket(b: Board, a: Act, team: Team, k: nat)
    requires a.step.MoveStep? || a.step.RetireStep?
    requires Subject(a) in b.tickets && TeamOf(a.teams, b.tickets[Subject(a)]) == Some(team)
    requires k < |team.lanes| && b.tickets[Subject(a)].lane == Some(team.lanes[k].id)
    requires forall j :: 0 <= j < k ==> team.lanes[j].id != team.lanes[k].id
    requires Truthy(team.lanes[k].gate) && Stranger(team, a.step.actor, team.lanes[k].gate.value)
    ensures Apply(b, a) == b
  {
    FoundLane(team.lanes, k);
    var gate := team.lanes[k].gate.value;
    assert forall i :: 0 <= i < |team.members| ==> team.members[i] in team.members;
    assert !AnswersTo(team, a.step.actor, gate);
  }

  lemma {:induction false} FoundLane(lanes: seq<Lane>, k: nat)
    requires k < |lanes| && forall j :: 0 <= j < k ==> lanes[j].id != lanes[k].id
    ensures FindLane(lanes, lanes[k].id) == Some(lanes[k])
  {
    if k > 0 {
      FoundLane(lanes[1..], k - 1);
    }
  }

  lemma IdsStay(b: Board, a: Act)
    requires b.Ids()
    ensures Apply(b, a).Ids() && b.next <= Apply(b, a).next
  {
    forall id: nat ensures id in Apply(b, a).tickets ==> id < Apply(b, a).next {
      match a.step
      case DecomposeStep(x, actor, summary, plan, stories) =>
        if MayDecompose(b, a.teams, x, actor, summary, plan, stories) {
          ParkEffect(b, TeamOf(a.teams, b.tickets[x]).value, x, stories, id);
        }
      case CreateStep(team, at, to) =>
      case _ => ActEffect(b, a, id);
    }
    if !a.step.DecomposeStep? && !a.step.CreateStep? {
      ActEffect(b, a, 0);
    }
  }

  // Ids are never reused: what is gone stays gone.
  lemma StaysAway(b: Board, a: Act, id: nat)
    requires b.Ids() && id !in b.tickets && id < b.next
    ensures id !in Apply(b, a).tickets && id < Apply(b, a).next
  {
    IdsStay(b, a);
    match a.step
    case DecomposeStep(x, actor, summary, plan, stories) =>
      if MayDecompose(b, a.teams, x, actor, summary, plan, stories) {
        ParkEffect(b, TeamOf(a.teams, b.tickets[x]).value, x, stories, id);
      }
    case CreateStep(team, at, to) =>
    case _ => ActEffect(b, a, id);
  }

  const EMPTY := Board(map[], 0)
}
