// What the board's lookups return, said directly of the team config as it was declared.
module LaneRules {
  import opened Text
  import opened Lanes

  // A declared rule that can decide a handoff: it names a lane the team has and the roles on both sides.
  predicate Applies(team: Team, rule: Rule, fromRole: Option<string>, toRole: string) {
    HasLane(team, rule.lane) && rule.to == Some(toRole) && (rule.from == None || rule.from == fromRole)
  }

  // `i` is the first declared rule that applies.
  ghost predicate Decides(team: Team, rules: seq<Rule>, i: nat, fromRole: Option<string>, toRole: string) {
    && i < |rules| && Applies(team, rules[i], fromRole, toRole)
    && forall j :: 0 <= j < i ==> !Applies(team, rules[j], fromRole, toRole)
  }

  // The searches, one rule at a time.
  lemma SearchesOneByOne(rule: Rule, rest: seq<Rule>, fromRole: Option<string>, toRole: string)
    ensures FirstMatch([rule] + rest, fromRole, toRole)
            == if rule.to == Some(toRole) && (rule.from == None || rule.from == fromRole) then Some(rule.lane)
               else FirstMatch(rest, fromRole, toRole)
    ensures FirstToLead([rule] + rest)
            == if rule.to == Some("lead") && rule.lane != "" then Some(rule.lane) else FirstToLead(rest)
    ensures FirstTo([rule] + rest, fromRole) == if rule.from == fromRole then rule.to else FirstTo(rest, fromRole)
  {
    assert ([rule] + rest)[1..] == rest;
  }

  lemma KnownOneByOne(team: Team, rules: seq<Rule>)
    requires rules != []
    ensures KnownRules(team, rules)
            == if HasLane(team, rules[0].lane) then [rules[0]] + KnownRules(team, rules[1..])
               else KnownRules(team, rules[1..])
  {
  }

  lemma {:induction false} FirstKnownMatch(team: Team, rules: seq<Rule>, fromRole: Option<string>, toRole: string, i: nat)
    requires i <= |rules|
    requires forall j :: 0 <= j < i ==> !Applies(team, rules[j], fromRole, toRole)
    requires i < |rules| ==> Applies(team, rules[i], fromRole, toRole)
    ensures FirstMatch(KnownRules(team, rules), fromRole, toRole)
            == if i < |rules| then Some(rules[i].lane) else None
  {
    if rules != [] {
      if i > 0 {
        assert !Applies(team, rules[0], fromRole, toRole);
        FirstKnownMatch(team, rules[1..], fromRole, toRole, i - 1);
      }
      KnownOneByOne(team, rules);
      SearchesOneByOne(rules[0], KnownRules(team, rules[1..]), fromRole, toRole);
    }
  }

  // A handoff moves the ticket to the lane of the first declared rule that applies, and leaves the lane alone if and
  // only if there is none or the receiver has no role.
  lemma DeriveLaneExactly(team: Team, from: Option<string>, to: string)
    ensures var fromRole := if Truthy(from) then RoleOf(team, from.value) else None;
            var toRole := RoleOf(team, to);
            var lane := DeriveLane(team, from, to);
            && (toRole.None? ==> lane.None?)
            && (toRole.Some? ==>
                  (lane.None? <==> forall rule :: rule in team.rules ==> !Applies(team, rule, fromRole, toRole.value)))
            && (lane.Some? ==> toRole.Some? && exists i: nat :: Decides(team, team.rules, i, fromRole, toRole.value)
                                                && team.rules[i].lane == lane.value)
  {
    var fromRole := if Truthy(from) then RoleOf(team, from.value) else None;
    var toRole := RoleOf(team, to);
    if toRole.Some? {
      var i := FirstApplying(team, team.rules, fromRole, toRole.value);
      FirstKnownMatch(team, team.rules, fromRole, toRole.value, i);
      if i < |team.rules| {
        assert team.rules[i] in team.rules;
        assert Decides(team, team.rules, i, fromRole, toRole.value);
      }
    }
  }

  lemma {:induction false} FirstApplying(team: Team, rules: seq<Rule>, fromRole: Option<string>, toRole: string)
    returns (i: nat)
    ensures i <= |rules| && forall j :: 0 <= j < i ==> !Applies(team, rules[j], fromRole, toRole)
    ensures i < |rules| ==> Applies(team, rules[i], fromRole, toRole)
  {
    i := 0;
    while i < |rules| && !Applies(team, rules[i], fromRole, toRole)
      invariant i <= |rules| && forall j :: 0 <= j < i ==> !Applies(team, rules[j], fromRole, toRole)
    {
      i := i + 1;
    }
  }

  predicate ToLead(team: Team, rule: Rule) {
    HasLane(team, rule.lane) && rule.to == Some("lead") && rule.lane != ""
  }

  // A ticket closes from the lane of the first declared rule that hands to the lead.
  lemma {:induction false} CloseLaneExactly(team: Team, rules: seq<Rule>, i: nat)
    requires i <= |rules| && forall j :: 0 <= j < i ==> !ToLead(team, rules[j])
    requires i < |rules| ==> ToLead(team, rules[i])
    ensures FirstToLead(KnownRules(team, rules)) == if i < |rules| then Some(rules[i].lane) else None
  {
    if rules != [] {
      if i > 0 {
        assert !ToLead(team, rules[0]);
        CloseLaneExactly(team, rules[1..], i - 1);
      }
      KnownOneByOne(team, rules);
      SearchesOneByOne(rules[0], KnownRules(team, rules[1..]), None, "lead");
    }
  }

  // The two lookups of the lead disagree exactly when the first member with the lead role has no id but a later one
  // has; then a decomposition finds a lead and the end of a run finds none.
  lemma {:induction false} LeadLookupsDisagreeExactly(members: seq<Member>)
    ensures OutcomeLeadIn(members) != LeadIn(members)
            <==> OutcomeLeadIn(members) == None
                 && exists i :: 0 <= i < |members| && members[i].role == Some("lead") && Truthy(members[i].id)
  {
    if members != [] {
      LeadLookupsDisagreeExactly(members[1..]);
      LeadFound(members);
    }
  }

  lemma {:induction false} LeadFound(members: seq<Member>)
    ensures LeadIn(members).Some?
            <==> exists i :: 0 <= i < |members| && members[i].role == Some("lead") && Truthy(members[i].id)
  {
    if members != [] {
      LeadFound(members[1..]);
      if exists i :: 0 <= i < |members[1..]| && members[1..][i].role == Some("lead") && Truthy(members[1..][i].id) {
        var i :| 0 <= i < |members[1..]| && members[1..][i].role == Some("lead") && Truthy(members[1..][i].id);
        assert members[i + 1].role == Some("lead") && Truthy(members[i + 1].id);
      }
      if exists i :: 0 < i < |members| && members[i].role == Some("lead") && Truthy(members[i].id) {
        var i :| 0 < i < |members| && members[i].role == Some("lead") && Truthy(members[i].id);
        assert members[1..][i - 1] == members[i];
      }
    }
  }

  // Where an epic waits: the lane of the lead's own first rule, when that rule hands to a member whose id resolves to
  // its role and no earlier rule lets anyone hand to that role.
  lemma WorkLaneFollowsTheLeadsRule(team: Team, i: nat, builder: string)
    requires LeadOf(team).Some?
    requires i < |team.rules| && HasLane(team, team.rules[i].lane) && Truthy(team.rules[i].to)
    requires RoleOf(team, LeadOf(team).value).Some? && team.rules[i].from == RoleOf(team, LeadOf(team).value)
    requires forall j :: 0 <= j < i && HasLane(team, team.rules[j].lane) ==>
               team.rules[j].from != team.rules[i].from
               && !(team.rules[j].from == None && team.rules[j].to == team.rules[i].to)
    requires WithRole(team.members, team.rules[i].to.value) == Some(builder)
    requires RoleOf(team, builder) == team.rules[i].to
    ensures BuilderOf(team) == Some(builder) && WorkLane(team) == Some(team.rules[i].lane)
  {
    FirstKnownTo(team, team.rules, team.rules[i].from, i);
    FirstKnownMatch(team, team.rules, team.rules[i].from, team.rules[i].to.value, i);
  }

  lemma {:induction false} FirstKnownTo(team: Team, rules: seq<Rule>, fromRole: Option<string>, i: nat)
    requires i < |rules| && HasLane(team, rules[i].lane) && rules[i].from == fromRole
    requires forall j :: 0 <= j < i && HasLane(team, rules[j].lane) ==> rules[j].from != fromRole
    ensures FirstTo(KnownRules(team, rules), fromRole) == rules[i].to
  {
    KnownOneByOne(team, rules);
    SearchesOneByOne(rules[0], KnownRules(team, rules[1..]), fromRole, "");
    if i > 0 {
      FirstKnownTo(team, rules[1..], fromRole, i - 1);
    }
  }

  // A role is that of the first member with the id, if it has one.
  lemma {:induction false} RoleOfExactly(members: seq<Member>, agent: string, i: nat)
    requires i <= |members| && forall j :: 0 <= j < i ==> members[j].id != Some(agent)
    requires i < |members| ==> members[i].id == Some(agent)
    ensures RoleIn(members, agent) == if i < |members| && Truthy(members[i].role) then members[i].role else None
  {
    if i > 0 {
      RoleOfExactly(members[1..], agent, i - 1);
    }
  }

  // The lead is the first member with that role and an id.
  lemma {:induction false} LeadOfExactly(members: seq<Member>, i: nat)
    requires i <= |members|
    requires forall j :: 0 <= j < i ==> !(members[j].role == Some("lead") && Truthy(members[j].id))
    requires i < |members| ==> members[i].role == Some("lead") && Truthy(members[i].id)
    ensures LeadIn(members) == if i < |members| then members[i].id else None
  {
    if i > 0 {
      LeadOfExactly(members[1..], i - 1);
    }
  }

  // At the end of a run it is the first member with that role, whether it has an id or not.
  lemma {:induction false} OutcomeLeadExactly(members: seq<Member>, i: nat)
    requires i <= |members| && forall j :: 0 <= j < i ==> members[j].role != Some("lead")
    requires i < |members| ==> members[i].role == Some("lead")
    ensures OutcomeLeadIn(members) == if i < |members| && Truthy(members[i].id) then members[i].id else None
  {
    if i > 0 {
      OutcomeLeadExactly(members[1..], i - 1);
    }
  }

  // The lane a close asks for: that of the first declared rule that hands to the lead, or the default when there is none.
  lemma ExpectedCloseLaneExactly(team: Team, i: nat)
    requires i <= |team.rules| && forall j :: 0 <= j < i ==> !ToLead(team, team.rules[j])
    requires i < |team.rules| ==> ToLead(team, team.rules[i])
    ensures ExpectedCloseLane(team) == if i < |team.rules| then team.rules[i].lane else "ready-for-pr"
  {
    CloseLaneExactly(team, team.rules, i);
  }
}
