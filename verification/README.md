# jigga runtime: verified model

A Dafny model of the parts of the jigga agent runtime whose promises span many operations, with proofs of those
promises over every input, every run or every reachable state. `dafny verify dfyconfig.toml` checks all of it.

| module | what it models |
|---|---|
| `Lanes`, `LaneRules`, `HandoffLoop`, `TicketOutcome` | a team's board config and the decisions made from it |
| `Board` | the ticket board as a state machine over all its writers: handoff, close, decompose, move, archive/delete, compaction, run outcome, stale sweep, claim, hold, requeue, create |
| `TicketFlow` | where a ticket stands after each writer, and when each writer is refused, read off the config |
| `HandoffBudget` | no endless ping-pong: whole-run bounds on handoffs and bounces |
| `EpicLiveness`, `StrandedEpic` | no epic asleep for ever: links, open children, exactly which steps break it, and what becomes of an epic then |
| `DoneDoor`, `DoneDoorLeaks` | one door into `done`: when `tickets.close` is the only one, and exactly when it is not |
| `SmallBoard` | short runs from an empty store that the two above build on |
| `TicketStore` | the handlers as they rewrite ticket records in place, proved against `Board` |
| `Approvals`, `AgentLoop` | one-shot approvals, and the tool loop that spends them |
| `EventQueue`, `EventQueueCrashes` | the durable inbox: single file operations, and a threaded listener and a supervisor that interleave, and may crash, between any two of them |
| `EventQueueOrder`, `EventQueueDedup`, `EventQueueCapacity`, `EventQueueRaces` | what that inbox keeps of arrival order, deduplication and its limit, and short runs where each ends |
| `ChannelTranscript` | conversation compaction: a watermark over a log whose prefix is archived underneath it |
| `ContextPack` | prompt assembly under a budget, and what its accounting says |
| `ExecutionLock` | the re-entrant lock between processes, and claims made under it |
| `RoutingHandoffs` | hop-limited handoffs over cyclic routing graphs, with tasks put back to pending |
| `LoopGuard` | the sliding-window wake throttle |
| `LogRotation` | audit-log rotation and the reader that must agree with it |
| `ConfigEdit` | dotted-path reads and writes of nested configuration |
| `Deletion` | backup before delete |
| `Text` | strings, optional values, counting |

Code that changes things in place is a class or a loop whose contract equates the new state with a specification
function of the old one; the promises are then proved of that function. Models, handlers, clocks, directory listings
and the answers of the kernel are parameters, so every statement holds for all of them.

Where a promise is false of the code as it stands, the module says so with a concrete run, and mostly states exactly when
it holds:

- **Epics.** The loop-guard block (`handlers.py:455-463`), archive and delete (`lanes.py:200-253`) and the run ends off
  the lifecycle (`agent.py:509-540`) end a ticket without releasing its parent. `EpicLiveness.HealthKeptExactly` says
  precisely when that strands an epic: when the ticket was its last open child. The comment at `ticket_outcome.py:66-88`
  promises that a park outlives its run; the branch at `ticket_outcome.py:62-63` comes first, so a run that did not
  complete overwrites it (`ParkSurvivesExactly`), and nothing wakes that epic again (`LostParkIsNeverWoken`).
- **Doors.** `handlers.py:518-520` and `lanes.py:173-180` mean closing to be the only way into `done`; a config that names
  `done` as first lane, in a rule or as bounce lane opens another (`DoneDoorLeaks.DoorSealedExactly`).
  `ticket_outcome.py:6-7` says a ticket is complete in `done` and at no other moment; a ticket of a managed team that has
  no lane completes at the end of its run (`DoneDoor.OnlyDoor`, `LanelessTicketCompletes`).
- **Loop guard.** A handoff to oneself is exempt (`handoff_loop.py:78`), and ids that contain the separator share
  counters (`HandoffLoop.BarsMergePairs`).
- **Approvals.** The gate consumes an approval before the call budget is checked (`agent.py:393-412`), so a run at its
  limit loses it (`AgentLoop.ApprovalLostExactly`). Tool names round-trip exactly when no two encode alike
  (`AgentLoop.ToolNamesRoundTrip`); the docstring at `agent.py:55-58` claims it always does.
- **Inbox.** Requests are handled in threads (`webhook.py:273`) that check, count, write and remember without a lock.
  Overlapping ones can pass the duplicate check together, overfill the queue, lose a remembered key, and be executed out
  of arrival order (`EventQueueRaces`); a crash between writing an event and remembering its key forgets the key. What
  holds of all interleavings is `EventQueueDedup.DuplicateExactly`, `EventQueueDedup.SameKeyIsApart`,
  `EventQueueCapacity.NeverOverCapacity` and `EventQueueOrder.ExecutedInArrivalOrder`.
- **Cascades.** The hop limit bounds a cascade only together with the number of times its tasks are put back to pending
  (`RoutingHandoffs.CascadeIsBounded`), which `approvals.py:101-114` and `handlers.py:491` do in any state.
- **Compaction.** A roll after the window was changed refolds exactly when the watermark stands inside the new window
  (`ChannelTranscript.RefoldsExactly`). That a clock which steps back breaks compaction and the wake throttle is shown by
  concrete runs only.
- **Audit log.** `audit_query.py:34-35` promises archives oldest first; a same-day split sorts before the archive it
  follows (`LogRotation.ReadInOrderExactly`, `LogRotation.TwoRotationsSplitTheDay`).

## Model

| member | source | states |
|---|---|---|
| HandoffBudget.PairBudget | jigga/runtime/handlers.py:448-492 | Over every interleaving of every writer of the board, whatever team configs are in force at each step, one pair of names makes at most `MAX_PAIR_HANDOFFS` handoffs of one ticket that are not blocked: at most limit − 1 ordinary ones and one redirect to a lead, even if the lead changes |
| HandoffBudget.PairBudgetIsAttained | jigga/runtime/handoff_loop.py:78-99 | The bound is exact: of any series of handoffs between two agents of a ticket they never passed before, exactly the first limit go ahead when the team's lead stands outside the pair, exactly the first limit − 1 otherwise |
| HandoffBudget.GroupBudget | jigga/runtime/handoff_loop.py:38-99 | n agents make at most limit·n(n−1)/2 unblocked handoffs of one ticket among themselves in any run, by counting pairs: a longer series contains a block |
| HandoffBudget.BounceBudget | jigga/runtime/ticket_outcome.py:30-33 | Between two handoffs a ticket returns to the lead unowned at most `MAX_BOUNCES` times, so the pair limits bound the bounces of a whole run too, although each handoff resets the counter |
| HandoffBudget.HandoffResetsBounces | jigga/runtime/handlers.py:480-492 | A handoff that goes ahead zeroes the ticket's bounces, adds exactly one to its pair's count and touches no other ticket |
| HandoffBudget.SelfHandoffsAreNeverBlocked | jigga/runtime/handoff_loop.py:78-79 | The boundary of the guard: handing a ticket to oneself any number of times is never blocked and keeps zeroing `bounces` |
| HandoffLoop.PairKeySymmetric | jigga/runtime/handoff_loop.py:43-47 | Both directions of a pair share one counter |
| HandoffLoop.PairKeyNamesThePair | jigga/runtime/handoff_loop.py:43-47 | Among names without the separator, two keys are equal if and only if the unordered pairs are |
| HandoffLoop.BarsMergePairs | jigga/runtime/handoff_loop.py:43-47 | With the separator inside a name, two different pairs share one counter (concrete names) |
| EpicLiveness.HealthKeptExactly | jigga/runtime/decompose.py:174-220 | Parent and child links stay mutually inverse with parents older than children after every step; and, if every waiting epic had a listed child that is present and neither completed, failed nor blocked, it still has after the step, if and only if the step is not a silent ending of the last such child: a loop-guard block, an archive or delete, or a run ending off the lifecycle |
| EpicLiveness.HealthyRun | jigga/runtime/decompose.py:162-172 | Over whole runs: every waiting epic has such an open child at every moment if and only if no step silently ends the last one of a waiting epic; steps that kill a story beside an open sibling included |
| EpicLiveness.SomethingIsStillOpen | jigga/runtime/decompose.py:94-159 | If every waiting epic has an open child, then below every waiting epic, however deep the decompositions nest, a path of children leads to a ticket that can still be worked |
| EpicLiveness.NoEpicIsStuck | jigga/runtime/decompose.py:174-180 | From an empty board, after any run in which no step silently ends the last open child of a waiting epic, every waiting epic has such a path |
| EpicLiveness.StrandingBreaksHealth | jigga/runtime/handlers.py:455-463 | Silently ending the last open child of a waiting epic leaves it asleep without an open child |
| EpicLiveness.SilentEndKeepsHealth | jigga/runtime/agent.py:509-540 | A silent ending does no harm when the epic is awake or a sibling is still open |
| StrandedEpic.DeletedStoryStrandsItsEpic | jigga/runtime/lanes.py:200-253 | On every lifecycle-managed board with a lead and a member, from an empty store: file a ticket, decompose it into one story, delete the story, and the epic is stranded |
| StrandedEpic.StrandedNeverWakes | jigga/runtime/decompose.py:182-189 | An epic whose stories are all gone is never woken by any run of acts on other tickets |
| SmallBoard.SuchABoard | jigga/runtime/lanes.py:405-423 | A concrete board of that kind exists |
| EpicLiveness.OnceDecomposedOnceWoken | jigga/runtime/decompose.py:107-108 | Over every run, stranding steps included, a ticket is decomposed at most once and leaves `waiting` at most once |
| EpicLiveness.ReleasedEpicIsClosable | jigga/runtime/decompose.py:215-220 | A released epic is pending, assigned to the lead, in the lane its lead may close it from; it is closable exactly when the lead's id resolves to the lead role |
| EpicLiveness.ParkSurvivesExactly | jigga/runtime/ticket_outcome.py:59-88 | The end of the run that decomposed an epic keeps it waiting if and only if that run completed and the epic is not in `done`: a failed or held run overwrites the park |
| EpicLiveness.LostParkIsNeverWoken | jigga/runtime/decompose.py:187-189 | An epic that lost its park is never touched by any run of acts on other tickets: no release wakes it |
| DoneDoor.OnlyDoor | jigga/runtime/handlers.py:500-536 | On a lifecycle-managed team whose config is sealed, over every run, a ticket that started outside `done` and not completed is ever in `done` if and only if a member whose role is lead closed it from the derived close lane; it is ever completed if and only if it was so closed or a completed run ended on it while it had no lane, which never happens to a ticket that started with one |
| DoneDoor.OneActOneDoor | jigga/runtime/lanes.py:173-180 | One act takes a ticket of such a team into `done` only by such a close; it completes an uncompleted one if and only if it is such a close or the end of a completed run on a ticket that is in `done` already or has no lane |
| DoneDoor.LanelessTicketCompletes | jigga/runtime/agent.py:514-515 | A task assigned with a team but no lane, claimed and run to its end from an empty store, is completed outside `done` with no close |
| DoneDoorLeaks.DoorSealedExactly | jigga/runtime/lanes.py:365-439 | There is a run from an empty store, with lanes that some config declared at the time, whose last act under this config is no close and takes a ticket of the team into `done`, if and only if the config is not sealed: `done` is the first lane, the derived close lane, the bounce lane of a team with a lead, or a lane some handoff derives |
| DoneDoorLeaks.FirstLaneLeaks | jigga/runtime/decompose.py:146-153 | With `done` as first lane, filing a ticket is such a run |
| DoneDoorLeaks.DerivedLaneLeaks | jigga/runtime/handlers.py:471-492 | With a rule into `done`, a task assigned without a lane and then handed on is such a run |
| DoneDoorLeaks.BounceLeaks | jigga/runtime/ticket_outcome.py:105-112 | With `done` as bounce lane, a ticket filed in another lane and left unowned by its run is such a run |
| DoneDoorLeaks.ReleaseLeaks | jigga/runtime/decompose.py:217-219 | With `done` as close lane, an epic decomposed earlier and released by the stale sweep is such a run |
| DoneDoor.UnnamedDoneIsSealed | jigga/runtime/lanes.py:365-389 | A config that does not name `done` as its first lane, in any rule or as bounce lane is sealed |
| DoneDoor.NewTicketsStartOutside | jigga/runtime/decompose.py:146-153 | A ticket created for a sealed team is neither in `done` nor completed |
| DoneDoor.GoneStaysGone | jigga/runtime/lanes.py:200-253 | A retired ticket never comes back under its id |
| LaneRules.DeriveLaneExactly | jigga/runtime/lanes.py:426-439 | A handoff moves the ticket to the lane of the first declared rule that names a known lane and both roles, and leaves the lane alone if and only if there is none or the receiver has no role |
| LaneRules.CloseLaneExactly | jigga/runtime/lanes.py:392-402 | The close lane is that of the first declared rule with a known, non-empty lane that hands to the lead |
| LaneRules.LeadLookupsDisagreeExactly | jigga/runtime/ticket_outcome.py:42-46 | The two lookups of a team's lead (the other is in decompose.py) disagree exactly when the first member with the lead role has no id and a later one has |
| LaneRules.WorkLaneFollowsTheLeadsRule | jigga/runtime/decompose.py:44-77 | An epic waits in the lane of the lead's own first rule, when that rule's role resolves to a member and no earlier rule lets anyone hand to it |
| Lanes.KnownRulesAreKnown | jigga/runtime/lanes.py:380-386 | Exactly the rules that name a declared lane are used |
| TicketOutcome.ResolveTicketOutcome | jigga/runtime/ticket_outcome.py:49-112 | A failed run fails its ticket and a held one holds it; a run that completed completes it if and only if it is in `done`, leaves parked what the run parked, and queues it again, lane and assignee kept, if and only if it was handed on or stands in the close lane; other work bounces to the lead in the bounce lane, or is blocked where it is if and only if bounces, bounce lane or lead are lacking |
| Board.ActEffect | jigga/runtime/handlers.py:382-587 | No writer but a decomposition or a creation adds a ticket, changes links or team, or puts a ticket to sleep; only a handoff of the ticket adds to its guard memory; only retiring or compacting it removes it; a ticket nobody named changes only if it slept and was released |
| Board.ParkSays | jigga/runtime/decompose.py:141-159 | A decomposition leaves the epic waiting in the work lane, in its owner's hands, listing one pending story per spec in order; each has its assignee, the team's first lane and the epic as parent; every other ticket is as it was |
| Board.DecomposeIsGuarded | jigga/runtime/decompose.py:94-139 | A decomposition changes the board only for a lead of a board with `done`, on a ticket without children, with 1 to 20 stories, each titled, described and assigned to a member |
| Board.GatedLaneHoldsTheTicket | jigga/runtime/lanes.py:182-230 | A gate binds archiving and deleting as much as moving: none of them takes a ticket out of a gated lane for an actor that is neither the gatekeeper nor a member answering to its name |
| TicketStore.Store.Handoff | jigga/runtime/handlers.py:425-492 | Rewriting the record in place (guard verdict, counters, derived lane) has exactly the effect of the board step, and says which verdict it was; what both mean is `HandoffLands` and `HandoffKindSays` |
| TicketStore.Store.ReleaseParentIfReady | jigga/runtime/decompose.py:174-220 | Wakes the parent exactly when some listed child is dead or gone, or all completed; the whole new board is stated |
| TicketStore.Store.ChildrenReady | jigga/runtime/decompose.py:191-210 | One scan over the listed children decides: some child is dead or gone, or all completed |
| TicketStore.Store.Close | jigga/runtime/handlers.py:500-557 | Closes exactly when the actor's role is lead and the ticket stands in the close lane, then releases the parent; a refusal changes nothing |
| TicketStore.Store.ParkEpic | jigga/runtime/decompose.py:141-159 | The creation loop and the epic's update have exactly the effect of the board step and return the created ids in order |
| TicketStore.Store.Decompose | jigga/runtime/decompose.py:94-159 | Checks every refusal in turn, stories one by one, and decomposes exactly when none applies; a refusal changes nothing |
| TicketStore.Store.MoveTaskLane | jigga/runtime/lanes.py:150-197 | Walks the refusals of a move and writes the lane, with exactly the effect and the verdict of the board step that `MoveExactly` spells out over the config |
| TicketStore.Store.RetireTicket | jigga/runtime/lanes.py:200-253 | Takes the ticket off with exactly the effect and the verdict of the board step that `RetireExactly` spells out over the config |
| TicketStore.Store.ArchiveTasks | jigga/runtime/compaction.py:102-118 | Takes exactly the listed completed and failed tickets out of the store, and touches nothing else |
| TicketStore.Store.ApplyTicketOutcome | jigga/runtime/agent.py:499-567 | Writes the run's end, with the plain, unresolved-team and unmanaged paths, and releases on a terminal state, with exactly the effect of the board step that `PlainEnd` and `BoardEnd` spell out |
| TicketStore.Store.SweepStale | jigga/runtime/recovery.py:103-118 | A stranded claimed or running ticket fails and releases its parent |
| TicketFlow.HandoffLands | jigga/runtime/handlers.py:448-492 | After a handoff the ticket is pending with the agent named, in the lane derived for the two; if the pair has passed it as often as it may, pending with the team's lead instead, once, if the lead stands outside the pair; and otherwise blocked where and with whom it was. No other ticket changes |
| TicketFlow.HandoffKindSays | jigga/runtime/handlers.py:425-498 | The verdict reported agrees with where the ticket went; a refused handoff changes nothing |
| TicketFlow.PlainEnd | jigga/runtime/agent.py:509-540 | Off the managed boards a run's end sets the ticket's state alone: blocked for a lane of an unknown team, else completed, failed or held as the run ended |
| TicketFlow.BoardEnd | jigga/runtime/ticket_outcome.py:49-112 | On a managed board a run's end leaves exactly one of: failed, held, completed in `done`, parked as it was, pending where it was (handed on, or in the close lane), bounced to the lead, blocked; the whole ticket is stated for each |
| TicketFlow.HandedOnStaysHandedOn | jigga/runtime/ticket_outcome.py:93-94 | An agent hands its ticket on and its run completes: outside `done`, the ticket is still pending with whoever it went to, in the lane derived for the two |
| TicketFlow.RedirectedStaysWithTheLead | jigga/runtime/handlers.py:464-470 | The same after the loop guard sent it to the lead |
| TicketFlow.LoopBlockSticks | jigga/runtime/ticket_outcome.py:86-88 | The same after the loop guard blocked it: the end of the run that tried does not unblock it |
| TicketFlow.MoveExactly | jigga/runtime/lanes.py:150-197 | A move is accepted if and only if the lane is declared, is not `done` on a managed board, and the lane the ticket stands in has no gate or one that admits the actor; the ticket then stands in the lane asked for and nothing else changed, and a refusal changes nothing |
| TicketFlow.RetireExactly | jigga/runtime/lanes.py:200-253 | A ticket is archived or deleted if and only if it has no team, or its team is known and the gate of its lane admits the actor; nothing else changes |
| TicketFlow.GatedExactly | jigga/runtime/lanes.py:117-131 | A gate refuses an actor if and only if it is neither the gatekeeper nor a member, by id or role, that has the gatekeeper's name as id or role |
| TicketFlow.ManagedExactly | jigga/runtime/lanes.py:405-423 | A board is lifecycle-managed if and only if it declares `done`, a rule names a lane it declares, and its bounce lane is one |
| TicketFlow.CloseExactly | jigga/runtime/handlers.py:500-557 | A close is accepted if and only if the actor's role is lead and the ticket stands in the close lane; it is then completed in `done`, and a refusal changes nothing |
| TicketFlow.DecomposeExactly | jigga/runtime/decompose.py:94-139 | A decomposition is accepted if and only if a lead of a managed board splits an undecomposed ticket, with summary and plan, into 1 to 20 stories, each titled, described and for a member; a refusal changes nothing |
| TicketFlow.ReleaseExactly | jigga/runtime/decompose.py:174-220 | A release wakes the parent if and only if it sleeps and a listed child failed, is blocked or gone, or all are completed; no other ticket changes |
| TicketFlow.SweepExactly | jigga/runtime/recovery.py:103-118 | The stale sweep fails a claimed or running ticket, keeping the rest of it, and leaves any other alone |
| LaneRules.RoleOfExactly | jigga/runtime/lanes.py:356-362 | A name has the role of the first member whose id it is, and none if no member has it |
| LaneRules.LeadOfExactly | jigga/runtime/decompose.py:37-41 | One lookup of the lead finds the id of the first member that has the lead role and an id |
| LaneRules.OutcomeLeadExactly | jigga/runtime/ticket_outcome.py:42-46 | The other finds the id of the first member that has the lead role, if it has one |
| LaneRules.ExpectedCloseLaneExactly | jigga/runtime/lanes.py:392-402 | A close asks for the lane of the first rule that hands to the lead, or `ready-for-pr` where there is none |
| AgentLoop.LoopWithinBudget | jigga/runtime/agent.py:342-458 | For every model and handler: at most `max_iterations` requests and at most `max_tool_calls` dispatches |
| AgentLoop.EveryRequestIsAnswered | jigga/runtime/agent.py:366-428 | In every request sent to the model each assistant tool call is followed by exactly one result for it, in order |
| AgentLoop.LoopOutcome | jigga/runtime/agent.py:430-458 | The run is completed if and only if some reply was ok with no tool calls, held for approval if and only if the gate halted it, and failed otherwise; a completed run returns that reply's text |
| AgentLoop.LoopConserves | jigga/runtime/agent.py:382-421 | Whatever is answered while the run is under way: every dispatched action is in the allowlist and permitted, and spent an approval if and only if its ticket asked for a human or it is risky and the agent not autonomous; gated dispatches plus approvals then open are exactly those open before and those gained meanwhile, but for the one a run stopped by its call budget may lose; for other tasks the run itself changes nothing |
| AgentLoop.ApprovalLostExactly | jigga/runtime/agent.py:393-412 | One call loses an approval if and only if it is offered and permitted, a human must agree (the ticket asked for one, or it is risky without autonomy), one is open, and the call budget is already used up: the gate consumes before the budget is checked |
| AgentLoop.DispatchesNeverExceedApprovals | jigga/runtime/agent.py:390-397 | Across all runs of all agents, with humans answering between them and between any two calls of one, gated dispatches of an action for a task plus approvals still open never exceed those given for it |
| AgentLoop.ToolNamesRoundTrip | jigga/runtime/agent.py:54-59 | The reverse map returns every offered tool to its own action if and only if no two offered actions encode alike |
| AgentLoop.ToolNamesCollide | jigga/runtime/agent.py:297-300 | Two offered names that encode alike: the earlier one is executed as the later one |
| AgentLoop.RunTaskLoop | jigga/runtime/agent.py:342-458 | The nested loops, with the approval queue rewritten in place and by others, compute exactly the specified transcript, log, requests, halt and state |
| AgentLoop.HandleCall | jigga/runtime/agent.py:368-428 | One requested call, with the queue rewritten in place, has exactly the outcome that `WhatOneCallDoes` spells out: allowlist, gate, approval, budget, dispatch |
| AgentLoop.WhatOneCallDoes | jigga/runtime/agent.py:368-428 | For one call, in the config's own fields: an action not offered or not permitted is answered with the reason and nothing else happens; one that needs a human (the ticket asked for one, or it is risky without autonomy) and has no open approval halts the run and files one pending request for that task and action; past the call budget the run halts; otherwise it is dispatched with its arguments, spends one approval if and only if it needs one, and is answered with the handler's output |
| AgentLoop.RequestsGrow | jigga/runtime/agent.py:342-366 | The first request is the prompts; each later one repeats the one before, adds what the model then said, and continues with the answers to it |
| Approvals.Conservation | jigga/runtime/approvals.py:117-146 | Over every interleaving of requests, answers and gate checks, permissions spent plus permissions open are exactly those granted plus those open before: none works twice, none is lost |
| Approvals.StepConserves | jigga/runtime/approvals.py:83-146 | The same for one operation |
| Approvals.GateOpensExactly | jigga/runtime/approvals.py:117-130 | The gate finds an approval if and only if an approved, unconsumed one for that task and action is open |
| Approvals.RecordsOnlyAdvance | jigga/runtime/approvals.py:83-146 | A record is decided at most once, consumed at most once and only after its decision, never goes back, and never changes what it is for |
| Approvals.StepKeepsRecords | jigga/runtime/approvals.py:43-55 | No operation removes a record or alters any but the one it names; an inserted one shifts places only |
| Approvals.ApprovalQueue.RequestApproval | jigga/runtime/approvals.py:43-55 | Adds one pending record at its place in name order, for the task and action asked, as `AnswerIsForWhatWasAsked` says end to end |
| Approvals.AnswerIsForWhatWasAsked | jigga/runtime/approvals.py:43-130 | A request under an unused code that is answered yes opens exactly one permission for its task and action and none for any other, and the gate then takes it; answered no, it opens nothing and the gate reads the denial |
| Approvals.TakingUsesOne | jigga/runtime/approvals.py:117-146 | Taking marks exactly one record consumed, one for the task and action asked about, and changes no other |
| Approvals.ApprovalQueue.ResolveCode | jigga/runtime/approvals.py:75-98 | Decides the first pending record with the code, and says whether there was one |
| Approvals.ApprovalQueue.ConsumeIf | jigga/runtime/approvals.py:117-146 | Marks the first matching unconsumed record consumed, and says whether there was one |
| Approvals.ApprovalQueue.OthersAct | jigga/runtime/approvals.py:83-146 | What other callers do between two calls is the specified run of operations |
| EventQueueCrashes.AtMostOnceNeverLost | jigga/runtime/event_queue.py:179-206 | With the listener's threads interleaving and either process crashing between any two file operations, no event is yielded for execution twice, and every accepted event is in pending, processing or failed until it was executed and completed |
| EventQueueCrashes.NeverPendingAgain | jigga/runtime/event_queue.py:183-203 | Once claimed, an event never returns to pending, whatever interleaves or crashes |
| EventQueueCrashes.EntriesStayIntact | jigga/runtime/event_queue.py:153-224 | However threads interleave and processes crash, whatever is pending, claimed or failed is the event that arrived, with its key and stamp, and only failed entries are marked failed |
| EventQueueCrashes.SweptExactly | jigga/runtime/event_queue.py:226-252 | A claimed event is swept if and only if its claim is older than the threshold or a crash left it without the time of its claim |
| EventQueueOrder.ExecutedInArrivalOrder | jigga/runtime/event_queue.py:161-191 | With strictly increasing arrival stamps, an event that was written before another one arrived is never executed after it, across threads, drains, limits, sweeps and crashes |
| EventQueueOrder.OneAtATimeInOrder | jigga/runtime/event_queue.py:161-191 | With one request at a time, events are executed exactly in the order they were accepted |
| EventQueueRaces.LateWriterIsOvertaken | jigga/runtime/webhook.py:226-273 | The boundary: of two overlapping requests the one that arrived first can be written and executed last (concrete run) |
| EventQueueDedup.DuplicateExactly | jigga/runtime/event_queue.py:104-125 | A delivery is refused as a duplicate if and only if its key was stored by an enqueue on whose memory the present one builds, and no store since then, on that chain, wrote the key anew or was more than 48 hours younger |
| EventQueueDedup.InMemoryExactly | jigga/runtime/event_queue.py:115-121 | After any series of stores, overlapping or not, a key is in the memory if and only if some store of it survives along the chain of what each store had read, and with that store's time |
| EventQueueDedup.SameKeyIsApart | jigga/runtime/event_queue.py:115-151 | However threads interleave and crash: once an event's key was stored, an accepted event of that key is more than 48 hours younger, provided that along the chain of stores between that store and its check every store is of an enqueue that started after the former and before the latter |
| EventQueueDedup.NoOverlapIsQuiet | jigga/runtime/event_queue.py:115-121 | That proviso holds when no remembering overlaps: each later one read after the store, and started after it and before the checking request |
| EventQueueDedup.OneAtATimeIsApart | jigga/runtime/event_queue.py:115-151 | With one request at a time, crashes included, every later accepted event of a stored key is more than 48 hours younger |
| EventQueueRaces.TwoAtOncePassTheGuards | jigga/runtime/webhook.py:226-273 | The boundary, with no crash: two overlapping deliveries of one key are both accepted, and under a limit of one two events are pending (concrete run) |
| EventQueueRaces.OverlapLosesAKey | jigga/runtime/webhook.py:226-273 | The boundary, with no crash: a key that was stored is gone after an overlapping thread stores what it had read before (concrete run) |
| EventQueueRaces.CrashForgetsTheKey | jigga/runtime/event_queue.py:163-165 | The boundary: a crash between the write and the remembering, and the retried event is accepted a second time (concrete run) |
| EventQueueCapacity.NeverOverCapacity | jigga/runtime/event_queue.py:146-163 | With at most n enqueues in flight, crashes included, at most max + n − 1 events are ever pending; with one at a time, at most max |
| EventQueue.Inbox.Enqueue | jigga/runtime/event_queue.py:131-168 | An enqueue that no other thread interrupts accepts, or refuses a duplicate or a full queue; a refusal changes neither the directories nor the dedup memory |
| EventQueue.Inbox.AlreadyDelivered | jigga/runtime/event_queue.py:124-125 | One step of it: whether the key is in the memory |
| EventQueue.Inbox.WriteRecord | jigga/runtime/event_queue.py:162-163 | One step of it: the event is written under its stamp |
| EventQueue.Inbox.Store | jigga/runtime/event_queue.py:116-121 | One step of it: forgets exactly the keys older than the window among those read before, records the new one, and replaces the memory by that |
| EventQueue.Inbox.Remember | jigga/runtime/event_queue.py:115-121 | Uninterrupted, forgets exactly the keys older than the window and records the new one |
| EventQueue.Inbox.Claim | jigga/runtime/event_queue.py:191-202 | The move comes first; an unreadable record stays claimed and is not yielded |
| EventQueue.Inbox.Complete | jigga/runtime/event_queue.py:205-206 | Removes the claimed entry only |
| EventQueue.Inbox.Fail | jigga/runtime/event_queue.py:209-225 | Parks the record under failed before its claimed entry goes |
| EventQueue.Inbox.SweepStaleProcessing | jigga/runtime/event_queue.py:226-252 | Moves exactly the stale claimed entries to failed, and touches nothing else |
| ChannelTranscript.FoldedOnceInOrder | jigga/runtime/channel_transcript.py:155-203 | Over any interleaving of messages, rolls that succeed or fail, and archiving, with a fixed window and timestamps that do not step back: no turn is folded into the summary twice, folds happen in log order, and none of the newest `turns` turns is folded |
| ChannelTranscript.NothingFallsBetween | jigga/runtime/channel_transcript.py:132-203 | After any run that ends with a successful roll, every turn still in the log is in the summary or in the verbatim tail, but for the message being handled |
| ChannelTranscript.FoldsAreTheOverflow | jigga/runtime/channel_transcript.py:171-180 | Without archiving, the folds one after another are exactly the overflow |
| ChannelTranscript.TailIsRecent | jigga/runtime/channel_transcript.py:132-148 | The tail holds at most `turns` of the newest turns and never the message being handled |
| ChannelTranscript.PendingIsFresh | jigga/runtime/channel_transcript.py:171-180 | What a roll folds is exactly the overflow younger than the watermark, oldest first, although archiving may have removed the watermarked turn |
| ChannelTranscript.RefoldsExactly | jigga/runtime/channel_transcript.py:171-180 | After a run with one window, a roll with another folds some turn again if and only if something scrolled out of the new window and the watermark stands inside it |
| ChannelTranscript.RaisingTheWindowRefolds | jigga/runtime/channel_transcript.py:171-180 | The boundary: after the window is raised a folded turn is pending again (concrete run) |
| ChannelTranscript.SteppingBackRefolds | jigga/runtime/channel_transcript.py:251-276 | The boundary: with a timestamp that steps back, archiving makes a folded turn pending again (concrete run) |
| ChannelTranscript.OldPrefixExactly | jigga/runtime/channel_transcript.py:252-261 | Archiving takes the longest prefix whose entries are all older than the cutoff |
| ChannelTranscript.Transcript.RecordMessage | jigga/runtime/channel_transcript.py:84-106 | Appends one entry, seen alike by every conversation's view |
| ChannelTranscript.Transcript.RollSummary | jigga/runtime/channel_transcript.py:155-203 | Folds exactly what scrolled out after the watermark when the answer is usable, and nothing otherwise; watermark and summary move with the fold; other conversations are untouched |
| ChannelTranscript.Transcript.Scrolled | jigga/runtime/channel_transcript.py:171-180 | The entries a roll would fold |
| ChannelTranscript.Transcript.ArchiveOld | jigga/runtime/channel_transcript.py:231-277 | Moves exactly the prefix of old entries out, losing none, for every conversation's view at once |
| ContextPack.FirstCharacters | jigga/runtime/context_pack.py:360-420 | For all layer bodies: the prompt's layers, one after another, are exactly the first 9000 characters of what they would be without a total budget; chars = stable + volatile ≤ 9000; the cap is reported if and only if chars = 9000, if and only if there were that many |
| ContextPack.AccountingIsExact | jigga/runtime/context_pack.py:365-407 | Each layer's statistics follow from where it starts in that whole: dropped if and only if it starts past the budget, included exactly what the budget reaches, clipped if and only if shown and cut by its own cap or the total; after the first dropped layer all later ones are dropped |
| ContextPack.RenderedLength | jigga/runtime/context_pack.py:376-420 | The text is longer than chars by exactly the boundary marker, if emitted, and the separators |
| ContextPack.StablePrefix | jigga/runtime/context_pack.py:341-379 | Two assemblies that agree on the stable layers share their whole rendered text as a prefix, whatever the volatile layers are |
| ContextPack.BoundaryDivides | jigga/runtime/context_pack.py:330-379 | With stable layers before volatile ones, as the program lists them, the marker stands exactly between them, once, and only if a volatile layer is shown |
| ContextPack.RestrictedTellsNothing | jigga/runtime/context_pack.py:360-364 | A restricted assembly (text, loaded layers, statistics) does not depend on the body of any private layer |
| ContextPack.NudgeSurvivesTheLayerCap | jigga/runtime/context_pack.py:225-241 | Over 80 % of its cap, the curated memory ends with the whole nudge after the layer's own clip, which leaves it as it is |
| ContextPack.NudgeShape | jigga/runtime/context_pack.py:237-238 | Every nudge is at most 120 characters and ends as the survival lemma asks |
| ContextPack.Clip | jigga/runtime/context_pack.py:135-137 | At most the cap plus the truncation marker; a text within the cap is only stripped |
| ContextPack.ClipExactly | jigga/runtime/context_pack.py:135-137 | A text within the cap is stripped only; a longer one is its first characters up to the cap, trailing space dropped, and the truncation marker |
| ContextPack.LayerShownExactly | jigga/runtime/context_pack.py:360-379 | A layer is shown, under its heading and clipped to its own cap, if and only if it says something and is not private in a restricted assembly |
| ContextPack.NoNudgeBelow | jigga/runtime/context_pack.py:232-236 | Up to 80 % of its cap the curated memory gets no nudge |
| ContextPack.AssembleAgentContext | jigga/runtime/context_pack.py:354-420 | The loop computes exactly the specified assembly and its text |
| ContextPack.AddItem | jigga/runtime/context_pack.py:369-407 | One layer, variable by variable, has the effect of the specified step |
| ExecutionLock.MutualExclusion | jigga/runtime/execution_lock.py:60-112 | Whatever is entered, left and killed in whatever order, at most one process has positive depth |
| ExecutionLock.DepthCountsOpenBlocks | jigga/runtime/execution_lock.py:78-83 | A process's depth is the number of its open blocks that were let in |
| ExecutionLock.BusyExactly | jigga/runtime/execution_lock.py:88-111 | A caller is told the lock is busy if and only if it would not wait and another process is inside: never inside a block of its own |
| ExecutionLock.IsLockedExactly | jigga/runtime/execution_lock.py:125-135 | `is_locked` answers yes if and only if another process is inside |
| ExecutionLock.ReleasedExactly | jigga/runtime/execution_lock.py:100-111 | The holder loses the kernel lock exactly when it leaves its outermost admitted block or dies |
| ExecutionLock.OneClaimPerFiling | jigga/runtime/agent.py:630-633 | However processes interleave, crash and restart, a task is claimed at most as often as it became pending: no two lock-holding processes claim it for the same filing |
| ExecutionLock.EntersExactly | jigga/runtime/execution_lock.py:60-111 | At any moment of any run, asking gets a process inside, one block deeper, if and only if no other is inside; a patient caller that must wait changes nothing, and no other process is touched |
| ExecutionLock.LockTable.EnterBlock | jigga/runtime/execution_lock.py:60-105 | The retry loop lets the caller in exactly when it already was or some try within its patience succeeds, stops at the first success, and updates table and blocks accordingly |
| ExecutionLock.LockTable.LeaveBlock | jigga/runtime/execution_lock.py:80-111 | Leaving the innermost block undoes its entry and releases the kernel lock only for the block that took it |
| RoutingHandoffs.CascadeIsBounded | jigga/runtime/handoffs.py:74-145 | In a team whose configs list at most k rules, cyclic routing included, with tasks completed, failed, reassigned and put back to pending: with r reopenings one root leads to at most (1 + r)(1 + k + … + k^max_hops) completions, so every cascade ends, and to at most that many tasks less r |
| RoutingHandoffs.CompletionDecreases | jigga/runtime/agent.py:464-482 | Every completion takes at least one off the measure W(h) = 1 + k·W(h+1), W(max_hops) = 1, summed over open tasks |
| RoutingHandoffs.WeightIsGeometric | jigga/runtime/handoffs.py:105-111 | That measure of a root is the geometric sum |
| RoutingHandoffs.BoundIsAttained | jigga/runtime/approvals.py:101-114 | Both bounds are exact for every r: a member routed to itself by k rules, reopened r times, needs all those completions and creates all those tasks; without reopening it is Σ k^i, with one it is more |
| RoutingHandoffs.MeasureIsAttained | jigga/runtime/handoffs.py:49-71 | A self-routing member's open tasks need as many completions as the measure says, and then nothing is open |
| RoutingHandoffs.HopsStayBounded | jigga/runtime/handoffs.py:128-136 | No created task exceeds `max_hops` |
| RoutingHandoffs.NoHopsNoHandoffs | jigga/runtime/handoffs.py:105-111 | A limit of zero or less hands nothing on |
| RoutingHandoffs.FiredExactly | jigga/runtime/handoffs.py:90-142 | One task per eligible rule, in order, for the rule's receiver and one hop further; nothing when the team is unknown or managed, lists no rules, or the hops are used up |
| RoutingHandoffs.EligibleHandoffs | jigga/runtime/handoffs.py:49-71 | The loop keeps, in order, exactly the well-formed rules from the member that match the signal; malformed configs yield none |
| RoutingHandoffs.TaskBoard.FireHandoffs | jigga/runtime/handoffs.py:74-145 | Creates one task per eligible rule, one hop further, unless the team is unknown or lifecycle-managed or the hops are used up |
| RoutingHandoffs.TaskBoard.CompleteTask | jigga/runtime/agent.py:464-482 | Completing a task removes it and fires its member's handoffs |
| LoopGuard.EveryHourIsBounded | jigga/runtime/loop_guard.py:42-63 | For any attempts under a monotone clock and a positive limit, no closed hour of the whole wake history holds more than the limit, although the stored list is pruned again and again |
| LoopGuard.SkipsExactly | jigga/runtime/loop_guard.py:53-56 | A wake is refused if and only if the hour ending now already holds the limit, counted over the whole history |
| LoopGuard.WakesExactly | jigga/runtime/loop_guard.py:53-62 | An attempt adds one wake, now, if and only if there is no limit or the hour that ends now has room in the whole history |
| LoopGuard.NoLimitNoThrottle | jigga/runtime/loop_guard.py:53-55 | A limit of zero or less refuses nothing |
| LoopGuard.SteppingBackOverfillsAnHour | jigga/runtime/loop_guard.py:42-44 | The boundary: with a clock that steps back, a third wake is granted inside an hour under a limit of two |
| LoopGuard.LoopState.PruneWindow | jigga/runtime/loop_guard.py:42-44 | Keeps exactly the entries of the window that ends now |
| LoopGuard.LoopState.ShouldSkipWake | jigga/runtime/loop_guard.py:47-56 | Prunes the agent's list and decides; with no limit it changes nothing |
| LoopGuard.LoopState.RecordWake | jigga/runtime/loop_guard.py:59-62 | Appends and prunes the agent's list |
| LoopGuard.LoopState.Wake | jigga/runtime/supervisor.py:444-455 | Check and record at one instant have the effect of the specified attempt, for that agent only |
| LogRotation.ReadReturnsWhatIsKept | jigga/runtime/audit_query.py:33-49 | Whatever was appended, rotated and pruned, and whatever the clock did, the reader returns each appended event exactly once, except those in pruned archives |
| LogRotation.ReadInOrderExactly | jigga/runtime/audit_query.py:33-49 | Under a clock whose days do not step back, the reader returns events in append order if and only if no retained day was split into several archives |
| LogRotation.RotatesExactly | jigga/runtime/log_rotation.py:105-128 | The active log rolls over if and only if it holds events and started on another day or reached the cap; it becomes one archive, whole, under the day it started and the first free number; kept are exactly the archives not before the cutoff |
| LogRotation.SplitSortsFirst | jigga/runtime/log_rotation.py:67-75 | A same-day split sorts before the day's first archive, although it was written later |
| LogRotation.SplitIsMisread | jigga/runtime/log_rotation.py:86-89 | Any directory holding a split is read out of order |
| LogRotation.TwoRotationsSplitTheDay | jigga/runtime/log_rotation.py:105-128 | Two rotations by size on one day reach such a directory, and the later event is read first (run from an empty log) |
| LogRotation.NamesAreUnique | jigga/runtime/log_rotation.py:65-75 | Different archives have different names, so renaming to a free one overwrites none |
| LogRotation.DaysDecide | jigga/runtime/log_rotation.py:86-89 | Archives of different days sort by day |
| LogRotation.LogDir.AppendEvent | jigga/runtime/audit.py:183-184 | Adds the event at the end of the active log |
| LogRotation.LogDir.ArchivePath | jigga/runtime/log_rotation.py:65-75 | The counter loop finds the first free name |
| LogRotation.LogDir.RotateLogs | jigga/runtime/log_rotation.py:105-128 | Rolls the active log over on a new day or the size cap under the first event's day, then prunes exactly the archives before the cutoff |
| LogRotation.LogDir.Prune | jigga/runtime/log_rotation.py:92-102 | Removes exactly the archives before the cutoff, keeping the order of the rest |
| LogRotation.LogDir.ReadEvents | jigga/runtime/audit_query.py:44-49 | Reads the archives in name order, then the active log |
| ConfigEdit.GetAfterSet | jigga/runtime/config_edit.py:28-56 | What was set is read back, at the path and everywhere below it |
| ConfigEdit.SetTouchesNothingElse | jigga/runtime/config_edit.py:38-56 | Every path neither above nor below the key reads as before |
| ConfigEdit.SetFailsExactly | jigga/runtime/config_edit.py:46-53 | A set descends through something it must not destroy if and only if a proper prefix of the path holds a value that is neither a map nor null |
| ConfigEdit.GetAfterUnset | jigga/runtime/config_edit.py:59-72 | After an unset nothing is read at the path or below it |
| ConfigEdit.UnsetTouchesNothingElse | jigga/runtime/config_edit.py:59-72 | Every path neither above nor below the key reads as before |
| ConfigEdit.UnsetLeavesMapsInPlace | jigga/runtime/config_edit.py:59-61 | Every map above the key stays a map |
| ConfigEdit.UnsetUndoesSet | jigga/runtime/config_edit.py:38-72 | Unsetting a key that a set added to an existing map gives the configuration back |
| ConfigEdit.SplitLosesNothing | jigga/runtime/config_edit.py:31-32 | Splitting a dotted key loses nothing, so different keys are different paths |
| ConfigEdit.Config.SetPath | jigga/runtime/config_edit.py:38-56 | The in-place walk, which creates maps as it descends, ends in the specified configuration and returns what a read returned before; whenever it raises, the configuration is untouched |
| ConfigEdit.Config.UnsetPath | jigga/runtime/config_edit.py:59-72 | The in-place walk ends in the specified configuration and returns what a read returned before |
| ConfigEdit.Config.GetPath | jigga/runtime/config_edit.py:28-35 | The read loop returns the value at the path, or null when anything on the way is missing or no map |
| Deletion.NoAgentFileIsLost | jigga/runtime/deletion.py:85-134 | After an agent is deleted its file and solo workspace are gone, every file that existed is unchanged or has its content in a backup, the record and recipe edits aside, and no earlier backup is altered, although a role directory is saved before the workspace around it |
| Deletion.NoTeamFileIsLost | jigga/runtime/deletion.py:137-182 | The same for a team and the artifacts its record owns, the install record aside; exactly the named trees are gone |
| Deletion.AgentGoneExactly | jigga/runtime/deletion.py:85-134 | What goes is exactly the agent's file, its solo workspace and its role directories; edits to record and recipe aside, everything else outside the backups is as it was |
| Deletion.TeamGoneExactly | jigga/runtime/deletion.py:137-182 | What goes is exactly the team's file, its workspace, its record and the artifacts the record owns; everything else outside the backups is as it was |
| Deletion.GoneAllKeeps | jigga/runtime/deletion.py:185-211 | The same for collecting any list of workspaces: exactly the listed trees are gone |
| Deletion.BackupMirrorsTheTree | jigga/runtime/deletion.py:32-45 | A backup is a copy of the whole tree under a name that nothing had before, and adds nothing else |
| Deletion.NamesDiffer | jigga/runtime/deletion.py:36-39 | The counter never tries one name twice |
| Deletion.Home.BackupFile | jigga/runtime/deletion.py:32-45 | The counter loop and the copy have exactly the specified effect; a missing source is left alone |
| Deletion.Home.DeleteAgent | jigga/runtime/deletion.py:85-134 | The steps, in the program's order, have the effect the lemma is about; an unknown agent changes nothing |
| Deletion.Home.DeleteTeam | jigga/runtime/deletion.py:137-182 | The steps, in the program's order, have the effect the lemma is about; an unknown team changes nothing |
| Deletion.Home.BackupAndRemoveAll | jigga/runtime/deletion.py:201-207 | The loop saves and removes the listed trees one by one |

## Left out

- Ticket ids are consecutive numbers that are never reused, found by exact id; the source draws random ids and also accepts an id prefix (`tasks.py:77-87`).
- Lane declarations are taken as already parsed: the shorthand, duplicate checks and the gate check of `team_lanes` (`lanes.py:72-105`) are configuration errors raised before any board step.
- The refusals of `decompose` (`decompose.py:98-139`) are one predicate: which message is raised first, the rendered epic text, and titles and descriptions of stories are not modelled beyond being non-blank.
- Human overrides (`task set-state`, `task create --lane`) bypass the protocol by design and are not steps of the board.
- Audit events, ticket logs and decision logs are written beside the modelled state and are not part of it.
- HandoffBudget.PairBudget: agent names are exact strings; two spellings of one agent are two names, as in the source.
- Approval codes are compared exactly; the source trims and upper-cases them first (`approvals.py:76-78`). Unreadable record files, which the source skips, are not modelled.
- AgentLoop.RunTaskLoop: the text of prompts, tool schemas, thread context and tool-result JSON is opaque; a handler that raises is one of the outputs its oracle may return; the request for approval writes its record, and the message sent to a channel is not modelled.
- EventQueueCrashes.AtMostOnceNeverLost: one listener process with any number of threads, and one supervisor; several supervisors are kept apart by the execution lock. A crash inside one file operation (a torn write) is not modelled.
- EventQueueDedup.SameKeyIsApart: only a stored key is spaced, and only where no overlapping request disturbs the memory, since the runs in `EventQueueRaces` do break the spacing.
- RoutingHandoffs.CascadeIsBounded: reopenings are counted, not bounded; nothing in the source bounds them.
- LoopGuard.EveryHourIsBounded: for a clock that steps back there is one concrete run and no exact condition.
- Text.Strip: white space is that of ASCII; `str.strip()` also removes the Unicode spaces.
- ChannelTranscript.NothingFallsBetween: the conversation must fit the 100 000 entries a roll reads (`channel_transcript.py:170`); entries beyond them are never read. The caps on rendered text (`channel_transcript.py:141-147`, `channel_transcript.py:186`) and the split of the archive by month are below the level of entries.
- ContextPack.AssembleAgentContext: layer bodies are inputs; how each is read or generated, the token estimate and the counters of pinned facts are left out. The percentage in the nudge is computed in whole numbers; the source's floating point may show one less, with the same length.
- ExecutionLock.OneClaimPerFiling: one agent run at a time per process; runs nested in one process, threads that share the depth table, and Windows, where nothing is locked, are not modelled.
- LogRotation.ReadInOrderExactly: every event carries a day; a first line without a readable time, dated by the rotation's clock instead, is not modelled. The size cap is a yes-or-no input.
- ConfigEdit.Config.SetPath: nested maps are values, so aliasing between sub-maps is not modelled; the coercion of command-line values is left out.
- Deletion.NoAgentFileIsLost: empty directories do not exist in the model; what the de-staffing writes into record and recipe is an input, and their previous contents are not backed up by the source. Backups whose path runs through an existing backup file raise an error in the source and are left out.
- `cron_already_fired` and `record_cron_fire` (`loop_guard.py:34-39`), `parse_approval_reply` (`approvals.py:149-154`), the filters of `query_events` and `trace` (`audit_query.py`): single-body functions that would only add easy members.
- The workflow engine, policy evaluation, channels, model calls, the command line and all encodings are outside the model.
