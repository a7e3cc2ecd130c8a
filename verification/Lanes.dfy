// A team's board: members, lanes, transition rules, and the lookups on them.
module Lanes {
  import opened Text

  const DONE_LANE := "done"
  const DEFAULT_CLOSE_LANE := "ready-for-pr"

  datatype Member = Member(id: Option<string>, role: Option<string>)
  datatype Lane = Lane(id: string, gate: Option<string>)
  // `from` absent means "from anyone".
  datatype Rule = Rule(from: Option<string>, to: Option<string>, lane: string)

  // Lanes in declared order, already normalised; rules and bounce lane as declared.
  datatype Team = Team(members: seq<Member>, lanes: seq<Lane>, rules: seq<Rule>, bounce: Option<string>)

  predicate Truthy(o: Option<string>) {
    o.Some? && o.value != ""
  }

  predicate HasLane(team: Team, lane: string) {
    exists i :: 0 <= i < |team.lanes| && team.lanes[i].id == lane
  }

  // The role of the first member with this id.
  function RoleIn(members: seq<Member>, agent: string): (r: Option<string>) {
    if members == [] then None
    else if members[0].id == Some(agent) then
      if Truthy(members[0].role) then members[0].role else None
    else RoleIn(members[1..], agent)
  }

  function RoleOf(team: Team, agent: string): Option<string> {
    RoleIn(team.members, agent)
  }

  // decompose._lead_of: the first member with role "lead" that has an id.
  function LeadIn(members: seq<Member>): (r: Option<string>)
    ensures Truthy(r) || r == None
  {
    if members == [] then None
    else if members[0].role == Some("lead") && Truthy(members[0].id) then members[0].id
    else LeadIn(members[1..])
  }

  function LeadOf(team: Team): (r: Option<string>)
    ensures Truthy(r) || r == None
  {
    LeadIn(team.members)
  }

  // ticket_outcome._lead_of: the id of the FIRST member with role "lead", if it has one.
  function OutcomeLeadIn(members: seq<Member>): (r: Option<string>)
    ensures Truthy(r) || r == None
  {
    if members == [] then None
    else if members[0].role == Some("lead") then
      if Truthy(members[0].id) then members[0].id else None
    else OutcomeLeadIn(members[1..])
  }

  // lane_transitions: rules naming an undeclared lane are dropped.
  function KnownRules(team: Team, rules: seq<Rule>): seq<Rule> {
    if rules == [] then []
    else if HasLane(team, rules[0].lane) then [rules[0]] + KnownRules(team, rules[1..])
    else KnownRules(team, rules[1..])
  }

  lemma {:induction false} KnownRulesAreKnown(team: Team, rules: seq<Rule>)
    ensures forall rule :: rule in KnownRules(team, rules) <==> rule in rules && HasLane(team, rule.lane)
  {
    if rules != [] {
      KnownRulesAreKnown(team, rules[1..]);
      assert rules == [rules[0]] + rules[1..];
    }
  }

  function UsableRules(team: Team): seq<Rule> {
    KnownRules(team, team.rules)
  }

  function BounceLane(team: Team): Option<string> {
    if team.bounce.Some? && HasLane(team, team.bounce.value) then team.bounce else None
  }

  predicate IsLifecycleManaged(team: Team) {
    team.lanes != [] && HasLane(team, DONE_LANE) && UsableRules(team) != [] && Truthy(BounceLane(team))
  }

  // The lane of the first rule that satisfies the search, if any.
  function FirstToLead(rules: seq<Rule>): (r: Option<string>)
    ensures r.Some? ==> r.value != "" && exists i :: 0 <= i < |rules| && rules[i].lane == r.value && rules[i].to == Some("lead")
  {
    if rules == [] then None
    else if rules[0].to == Some("lead") && rules[0].lane != "" then Some(rules[0].lane)
    else FirstToLead(rules[1..])
  }

  function CloseLane(team: Team): Option<string> {
    FirstToLead(UsableRules(team))
  }

  // `close_lane(team) or DEFAULT_CLOSE_LANE`.
  function ExpectedCloseLane(team: Team): string {
    if CloseLane(team).Some? then CloseLane(team).value else DEFAULT_CLOSE_LANE
  }

  function FirstMatch(rules: seq<Rule>, fromRole: Option<string>, toRole: string): (r: Option<string>)
    ensures r.Some? ==> exists i :: 0 <= i < |rules| && rules[i].lane == r.value
                                    && rules[i].to == Some(toRole)
                                    && (rules[i].from == None || rules[i].from == fromRole)
    ensures r.None? ==> forall i :: 0 <= i < |rules| && rules[i].to == Some(toRole)
                                    ==> rules[i].from != None && rules[i].from != fromRole
  {
    if rules == [] then None
    else if rules[0].to == Some(toRole) && (rules[0].from == None || rules[0].from == fromRole) then
      Some(rules[0].lane)
    else FirstMatch(rules[1..], fromRole, toRole)
  }

  // The lane a handoff moves the ticket into, or None when no rule covers it.
  function DeriveLane(team: Team, from: Option<string>, to: string): (r: Option<string>)
    ensures r.Some? ==> HasLane(team, r.value)
  {
    var fromRole := if Truthy(from) then RoleOf(team, from.value) else None;
    var toRole := RoleOf(team, to);
    KnownRulesAreKnown(team, team.rules);
    if toRole.None? then None else FirstMatch(UsableRules(team), fromRole, toRole.value)
  }

  function FirstTo(rules: seq<Rule>, fromRole: Option<string>): Option<string> {
    if rules == [] then None
    else if rules[0].from == fromRole then rules[0].to
    else FirstTo(rules[1..], fromRole)
  }

  function WithRole(members: seq<Member>, role: string): (r: Option<string>)
    ensures Truthy(r) || r == None
  {
    if members == [] then None
    else if members[0].role == Some(role) && Truthy(members[0].id) then members[0].id
    else WithRole(members[1..], role)
  }

  // decompose._builder_of: whoever the lead's own first rule hands off to.
  function BuilderOf(team: Team): (r: Option<string>)
    ensures Truthy(r) || r == None
  {
    var lead := LeadOf(team);
    if lead.None? then None
    else
      var to := FirstTo(UsableRules(team), RoleOf(team, lead.value));
      if Truthy(to) then WithRole(team.members, to.value) else None
  }

  // decompose._work_lane: where an epic sits while its stories are built.
  function WorkLane(team: Team): (r: Option<string>)
    ensures r.Some? ==> HasLane(team, r.value)
  {
    var lead, builder := LeadOf(team), BuilderOf(team);
    if lead.None? || builder.None? then None else DeriveLane(team, lead, builder.value)
  }

  // Every name the actor answers to: itself, and the id and role of each member it names.
  predicate AnswersTo(team: Team, actor: Option<string>, name: string) {
    Truthy(actor) &&
    (name == actor.value
     || exists i :: 0 <= i < |team.members|
                    && (team.members[i].id == actor || team.members[i].role == actor)
                    && name != "" && (team.members[i].id == Some(name) || team.members[i].role == Some(name)))
  }

  function FindLane(lanes: seq<Lane>, id: string): Option<Lane> {
    if lanes == [] then None
    else if lanes[0].id == id then Some(lanes[0])
    else FindLane(lanes[1..], id)
  }

  // The gate on the lane a ticket sits in refuses this actor.
  predicate Gated(team: Team, lane: Option<string>, actor: Option<string>) {
    lane.Some? &&
    var current := FindLane(team.lanes, lane.value);
    current.Some? && Truthy(current.value.gate) && !AnswersTo(team, actor, current.value.gate.value)
  }
}
