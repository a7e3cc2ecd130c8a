// What a finished run means for the ticket it worked.
module TicketOutcome {
  import opened Text
  import opened Lanes

  const MAX_BOUNCES := 3

  // No writer of the board sets the remaining state, `archived`.
  datatype TaskState = Pending | Claimed | Running | Blocked | Waiting | NeedsApproval | Failed | Completed

  // How the task loop of one run ended.
  datatype RunState = RunCompleted | RunFailed | RunNeedsApproval

  function AsTaskState(r: RunState): TaskState {
    match r
    case RunCompleted => Completed
    case RunFailed => Failed
    case RunNeedsApproval => NeedsApproval
  }

  // Somebody other than the agent that ran holds the ticket.
  predicate Elsewhere(assignee: Option<string>, ranAs: string) {
    assignee.Some? && assignee.value != ranAs
  }

  datatype Outcome = Outcome(state: TaskState, lane: Option<string>, assignee: Option<string>, bounced: bool)

  function ResolveTicketOutcome(state: TaskState, lane: Option<string>, assignee: Option<string>, bounces: nat,
                                team: Team, runState: RunState, ranAs: string): (o: Outcome)
    // A ticket is complete when it is in `done`, and at no other moment.
    ensures o.state == Completed <==> runState == RunCompleted && lane == Some(DONE_LANE)
    // What the run parked stays parked if and only if the run completed outside `done`.
    ensures state in {Waiting, Blocked} ==>
              (o == Outcome(state, lane, assignee, false) <==> runState == RunCompleted && lane != Some(DONE_LANE))
    ensures o.state == Waiting ==> state == Waiting
    // Work nobody owns any more goes back to the lead; otherwise it stays where and with whom it is.
    ensures o.bounced ==> o == Outcome(Pending, BounceLane(team), OutcomeLeadIn(team.members), true) && bounces < MAX_BOUNCES
    ensures !o.bounced ==> o.lane == lane && o.assignee == assignee
    ensures o.bounced || (o.state == Blocked && state != Blocked) ==>
              && runState == RunCompleted && lane != Some(DONE_LANE) && state != Waiting
              && (assignee == None || assignee == Some(ranAs)) && lane != Some(ExpectedCloseLane(team))
    ensures o.state == Blocked && state != Blocked ==>
              bounces >= MAX_BOUNCES || !Truthy(BounceLane(team)) || OutcomeLeadIn(team.members) == None
    // A run that did not complete leaves the ticket where and with whom it was, in the run's own state.
    ensures runState == RunFailed ==> o == Outcome(Failed, lane, assignee, false)
    ensures runState == RunNeedsApproval ==> o == Outcome(NeedsApproval, lane, assignee, false)
    // Handed on during the run, or waiting in the close lane: queued for whoever holds it, where it is.
    ensures runState == RunCompleted && lane != Some(DONE_LANE) && state !in {Waiting, Blocked}
            && (Elsewhere(assignee, ranAs) || (Truthy(lane) && lane.value == ExpectedCloseLane(team))) ==>
              o == Outcome(Pending, lane, assignee, false)
    // Otherwise it bounces as long as it may and there is a lane and a lead to bounce it to, and is blocked after that.
    ensures runState == RunCompleted && lane != Some(DONE_LANE) && state !in {Waiting, Blocked}
            && !Elsewhere(assignee, ranAs) && !(Truthy(lane) && lane.value == ExpectedCloseLane(team)) ==>
              if bounces < 3 && Truthy(BounceLane(team)) && OutcomeLeadIn(team.members).Some? then o.bounced
              else o == Outcome(Blocked, lane, assignee, false)
  {
    var keep := Outcome(AsTaskState(runState), lane, assignee, false);
    if runState != RunCompleted then keep
    else if lane == Some(DONE_LANE) then keep.(state := Completed)
    else if state == Waiting || state == Blocked then keep.(state := state)
    else if assignee.Some? && assignee.value != ranAs then keep.(state := Pending)
    else if Truthy(lane) && lane.value == ExpectedCloseLane(team) then keep.(state := Pending)
    else
      var bounceLane := BounceLane(team);
      var lead := OutcomeLeadIn(team.members);
      if bounces >= MAX_BOUNCES || !Truthy(bounceLane) || lead.None? then keep.(state := Blocked)
      else Outcome(Pending, bounceLane, lead, true)
  }
}
