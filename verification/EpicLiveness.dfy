// No epic sleeps for ever: whole-run properties of decompose and release.
module EpicLiveness {
  import opened Text
  import opened Lanes
  import opened TicketOutcome
  import opened Board

  function Children(b: Board, e: nat): seq<nat> {
    if e in b.tickets then b.tickets[e].meta.children else []
  }

  predicate HasParent(b: Board, c: nat, p: nat) {
    c in b.tickets && b.tickets[c].meta.parent == Some(p)
  }

  predicate ParentKnows(b: Board, c: nat, p: nat) {
    p < c && (p in b.tickets ==> c in Children(b, p))
  }

  predicate ChildKnows(b: Board, c: nat, e: nat) {
    e < c < b.next && (c in b.tickets ==> HasParent(b, c, e))
  }

  // Parent and child links are mutually inverse, and a parent is older than its children.
  ghost predicate Linked(b: Board) {
    && b.Ids()
    && (forall c: nat, p: nat :: HasParent(b, c, p) ==> ParentKnows(b, c, p))
    && (forall e: nat, c: nat :: c in Children(b, e) ==> ChildKnows(b, c, e))
  }

  predicate Asleep(b: Board, e: nat) {
    e in b.tickets && b.tickets[e].state == Waiting
  }

  // The child can still be worked, or sleeps itself: present, and neither completed, failed nor blocked.
  predicate Open(b: Board, c: nat) {
    c in b.tickets && !Terminal(b.tickets[c].state)
  }

  ghost predicate HasOpen(b: Board, kids: seq<nat>) {
    exists c :: c in kids && Open(b, c)
  }

  // Every sleeping epic still has a child to wait for.
  ghost predicate Healthy(b: Board) {
    forall e :: Asleep(b, e) ==> HasOpen(b, Children(b, e))
  }

  // --- links ---

  // `c` holds no ticket that `b` did not, with the links it had.
  ghost predicate SameLinks(b: Board, c: Board) {
    && c.next == b.next
    && forall id :: id in c.tickets ==> id in b.tickets
                                        && c.tickets[id].meta.parent == b.tickets[id].meta.parent
                                        && c.tickets[id].meta.children == b.tickets[id].meta.children
  }

  lemma SameLinksLinked(b: Board, c: Board)
    requires Linked(b) && SameLinks(b, c)
    ensures Linked(c)
  {
    forall e: nat, k: nat | k in Children(c, e)
      ensures ChildKnows(c, k, e)
    {
      assert k in Children(b, e);
    }
    forall k: nat, p: nat | HasParent(c, k, p)
      ensures ParentKnows(c, k, p)
    {
      assert HasParent(b, k, p);
    }
  }

  lemma ParkLinked(b: Board, team: Team, e: nat, stories: seq<Spec>)
    requires Linked(b) && e in b.tickets && AllStories(stories) && b.tickets[e].meta.children == []
    ensures Linked(Park(b, team, e, stories))
  {
    var d := Park(b, team, e, stories);
    var kids := Span(b.next, |stories|);
    ParkEffect(b, team, e, stories, e);
    assert Children(d, e) == kids;
    forall x: nat ensures x in d.tickets ==> x < d.next {
      ParkEffect(b, team, e, stories, x);
    }
    forall k: nat, p: nat | HasParent(d, k, p)
      ensures ParentKnows(d, k, p)
    {
      ParkedParent(b, team, e, stories, k, p);
    }
    forall x: nat, k: nat | k in Children(d, x)
      ensures ChildKnows(d, k, x)
    {
      ParkEffect(b, team, e, stories, x);
      ParkEffect(b, team, e, stories, k);
      if x != e {
        assert k in Children(b, x);
      }
    }
  }

  lemma ParkedParent(b: Board, team: Team, e: nat, stories: seq<Spec>, k: nat, p: nat)
    requires Linked(b) && e in b.tickets && AllStories(stories) && b.tickets[e].meta.children == []
    requires HasParent(Park(b, team, e, stories), k, p)
    ensures ParentKnows(Park(b, team, e, stories), k, p)
  {
    ParkEffect(b, team, e, stories, k);
    ParkEffect(b, team, e, stories, p);
    ParkEffect(b, team, e, stories, e);
    if k in b.tickets {
      assert HasParent(b, k, p);
    } else {
      assert p == e;
      assert Span(b.next, |stories|)[k - b.next] == k;
    }
  }

  lemma CreateLinked(b: Board, team: Option<string>, at: Option<string>, to: Option<string>)
    requires Linked(b)
    ensures Linked(Create(b, team, at, to))
  {
    var d := Create(b, team, at, to);
    forall k: nat, p: nat | HasParent(d, k, p) ensures ParentKnows(d, k, p) {
      assert HasParent(b, k, p);
    }
    forall x: nat, k: nat | k in Children(d, x) ensures ChildKnows(d, k, x) {
      assert k in Children(b, x);
    }
  }

  lemma OthersKeepLinks(b: Board, a: Act)
    requires !a.step.DecomposeStep? && !a.step.CreateStep?
    ensures SameLinks(b, Apply(b, a))
  {
    var d := Apply(b, a);
    forall id: nat | id in d.tickets ensures id in b.tickets && Gentle(b.tickets[id], d.tickets[id]) {
      ActEffect(b, a, id);
    }
    ActEffect(b, a, 0);
  }

  lemma LinksStay(b: Board, a: Act)
    requires Linked(b)
    ensures Linked(Apply(b, a))
  {
    match a.step
    case DecomposeStep(e, actor, summary, plan, stories) =>
      if MayDecompose(b, a.teams, e, actor, summary, plan, stories) {
        ParkLinked(b, TeamOf(a.teams, b.tickets[e]).value, e, stories);
      }
    case CreateStep(team, at, to) =>
      CreateLinked(b, team, at, to);
    case _ =>
      OthersKeepLinks(b, a);
      SameLinksLinked(b, Apply(b, a));
  }

  // --- health ---

  ghost predicate SameLinksTicket(t: Ticket, u: Ticket) {
    t.meta.parent == u.meta.parent && t.meta.children == u.meta.children
  }

  // A write that leaves the ticket alive, and asleep only if it slept before.
  lemma LivelyWriteKeepsHealth(b: Board, id: nat, t: Ticket)
    requires Healthy(b) && id in b.tickets && SameLinksTicket(b.tickets[id], t)
    requires !Terminal(t.state) && (t.state == Waiting ==> b.tickets[id].state == Waiting)
    ensures Healthy(b.Put(id, t))
  {
    var c := b.Put(id, t);
    forall e: nat | Asleep(c, e) ensures HasOpen(c, Children(c, e)) {
      assert Asleep(b, e) && Children(c, e) == Children(b, e);
      StillOpen(b, c, Children(b, e));
    }
  }

  // Children that stay open keep their epic waiting for something.
  lemma StillOpen(b: Board, c: Board, kids: seq<nat>)
    requires HasOpen(b, kids)
    requires forall k :: k in kids && Open(b, k) ==> Open(c, k)
    ensures HasOpen(c, kids)
  {
    var k :| k in kids && Open(b, k);
    assert Open(c, k);
  }

  // With no open child left, a release is due: some child is dead or gone, or all completed.
  lemma NoneOpenIsReady(b: Board, kids: seq<nat>)
    requires !HasOpen(b, kids)
    ensures Ready(b, kids)
  {
    forall c | c in kids && !Dead(b, c) ensures Finished(b, c) {
      assert !Open(b, c);
    }
  }

  // A write followed by the release: whatever the write was, no sleeper is left with nothing to wait for.
  lemma ReleasingWriteKeepsHealth(b: Board, teams: Teams, id: nat, t: Ticket)
    requires Linked(b) && Healthy(b) && id in b.tickets && SameLinksTicket(b.tickets[id], t)
    requires t.state == Waiting ==> b.tickets[id].state == Waiting
    ensures Healthy(Release(b.Put(id, t), teams, id))
  {
    var c := b.Put(id, t);
    var d := Release(c, teams, id);
    forall e: nat | Asleep(d, e) ensures HasOpen(d, Children(d, e)) {
      assert Asleep(c, e) && Asleep(b, e);
      var kids := Children(b, e);
      assert Children(d, e) == kids == Children(c, e);
      if !HasOpen(c, kids) {
        StillNamed(b, c, kids, id);
        assert HasParent(b, id, e);
        NoneOpenIsReady(c, kids);
        assert Wakes(c, id);
        assert false;
      }
      StillOpen(c, d, kids);
    }
  }

  // If writing one ticket closed the last open child, that ticket is the child.
  lemma StillNamed(b: Board, c: Board, kids: seq<nat>, id: nat)
    requires HasOpen(b, kids) && !HasOpen(c, kids)
    requires forall k :: k != id && k in b.tickets ==> k in c.tickets && c.tickets[k] == b.tickets[k]
    ensures id in kids
  {
    var k :| k in kids && Open(b, k);
    assert !Open(c, k);
  }

  lemma ParkKeepsHealth(b: Board, team: Team, e: nat, stories: seq<Spec>)
    requires Linked(b) && Healthy(b) && e in b.tickets && AllStories(stories) && stories != []
    requires b.tickets[e].meta.children == []
    ensures Healthy(Park(b, team, e, stories))
  {
    var d := Park(b, team, e, stories);
    ParkEffect(b, team, e, stories, e);
    forall x: nat | Asleep(d, x) ensures HasOpen(d, Children(d, x)) {
      ParkEffect(b, team, e, stories, x);
      if x == e {
        ParkEffect(b, team, e, stories, b.next);
        assert Children(d, e)[0] == b.next && Open(d, b.next);
      } else {
        assert Asleep(b, x) && Children(d, x) == Children(b, x);
        forall k | k in Children(b, x) && Open(b, k) ensures Open(d, k) {
          ParkEffect(b, team, e, stories, k);
        }
        StillOpen(b, d, Children(b, x));
      }
    }
  }

  // --- which acts end a ticket without telling its epic ---

  // A loop-guard block, an archive or delete, or a run that ends off the lifecycle; compaction only takes what ended.
  predicate EndsSilently(b: Board, a: Act) {
    match a.step
    case HandoffStep(id, actor, assignee) => HandoffKindOf(b, a.teams, id, actor, assignee) == LoopBlocked
    case RetireStep(id, actor) => MayRetire(b, a.teams, id, actor)
    case OutcomeStep(id, agent, run) =>
      id in b.tickets && !OnBoard(a.teams, b.tickets[id])
      && Terminal(AfterRun(a.teams, b.tickets[id], agent, run).state)
    case _ => false
  }

  // The act silently ends the last open child of a sleeping epic.
  predicate Strands(b: Board, a: Act) {
    EndsSilently(b, a) &&
    var id := Subject(a);
    b.tickets[id].meta.parent.Some? &&
    var p := b.tickets[id].meta.parent.value;
    Asleep(b, p) && forall c :: c in Children(b, p) && c != id ==> !Open(b, c)
  }

  // A silent end touches its ticket alone, and leaves it ended or gone.
  lemma SilentEndEffect(b: Board, a: Act, k: nat)
    requires EndsSilently(b, a)
    ensures Subject(a) in b.tickets && !Open(Apply(b, a), Subject(a))
    ensures k in Apply(b, a).tickets ==> k in b.tickets
    ensures k != Subject(a) && k in b.tickets ==> k in Apply(b, a).tickets && Apply(b, a).tickets[k] == b.tickets[k]
    ensures k in Apply(b, a).tickets ==> Gentle(b.tickets[k], Apply(b, a).tickets[k])
  {
    ActEffect(b, a, k);
  }

  // Such an act leaves the epic asleep with nothing to wait for.
  lemma StrandingBreaksHealth(b: Board, a: Act)
    requires Linked(b) && Strands(b, a)
    ensures var p := b.tickets[Subject(a)].meta.parent.value;
            Asleep(Apply(b, a), p) && !HasOpen(Apply(b, a), Children(Apply(b, a), p))
  {
    var id := Subject(a);
    var p := b.tickets[id].meta.parent.value;
    var d := Apply(b, a);
    assert HasParent(b, id, p) && p != id;
    SilentEndEffect(b, a, p);
    forall c | c in Children(d, p) ensures !Open(d, c) {
      SilentEndEffect(b, a, c);
      if c != id {
        assert !Open(b, c);
      }
    }
  }

  // A silent end does no harm to a ticket whose epic is awake, or while a sibling is still open.
  lemma SilentEndKeepsHealth(b: Board, a: Act)
    requires Linked(b) && Healthy(b) && EndsSilently(b, a) && !Strands(b, a)
    ensures Healthy(Apply(b, a))
  {
    var id := Subject(a);
    var d := Apply(b, a);
    forall e: nat | Asleep(d, e) ensures HasOpen(d, Children(d, e)) {
      SilentEndEffect(b, a, e);
      var kids := Children(b, e);
      assert Asleep(b, e) && Children(d, e) == kids;
      var c :| c in kids && Open(b, c);
      if id in kids {
        assert HasParent(b, id, e);
        c :| c in kids && c != id && Open(b, c);
      }
      SilentEndEffect(b, a, c);
      assert Open(d, c);
    }
  }

  lemma OutcomeKeepsHealth(b: Board, teams: Teams, id: nat, agent: string, run: RunState)
    requires Linked(b) && Healthy(b) && id in b.tickets
    requires OnBoard(teams, b.tickets[id]) || !Terminal(AfterRun(teams, b.tickets[id], agent, run).state)
    ensures Healthy(ApplyOutcome(b, teams, id, agent, run))
  {
    var t := AfterRun(teams, b.tickets[id], agent, run);
    AfterRunEffect(teams, b.tickets[id], agent, run);
    if Terminal(t.state) {
      ReleasingWriteKeepsHealth(b, teams, id, t);
    } else {
      LivelyWriteKeepsHealth(b, id, t);
    }
  }

  lemma HandoffKeepsHealth(b: Board, teams: Teams, id: nat, actor: Option<string>, assignee: string)
    requires Linked(b) && Healthy(b) && HandoffKindOf(b, teams, id, actor, assignee) != LoopBlocked
    ensures Healthy(Handoff(b, teams, id, actor, assignee))
  {
    if HandoffKindOf(b, teams, id, actor, assignee) != Refused {
      LivelyWriteKeepsHealth(b, id, Handoff(b, teams, id, actor, assignee).tickets[id]);
    }
  }

  lemma CreateKeepsHealth(b: Board, team: Option<string>, at: Option<string>, to: Option<string>)
    requires Linked(b) && Healthy(b)
    ensures Healthy(Create(b, team, at, to))
  {
    var d := Create(b, team, at, to);
    forall e: nat | Asleep(d, e) ensures HasOpen(d, Children(d, e)) {
      assert Asleep(b, e);
      StillOpen(b, d, Children(b, e));
    }
  }

  lemma CompactKeepsHealth(b: Board, id: nat)
    requires Healthy(b)
    ensures Healthy(Compact(b, id))
  {
    var d := Compact(b, id);
    forall e: nat | Asleep(d, e) ensures HasOpen(d, Children(d, e)) {
      assert Asleep(b, e) && Children(d, e) == Children(b, e);
      StillOpen(b, d, Children(b, e));
    }
  }

  lemma StateKeepsHealth(b: Board, id: nat, state: TaskState)
    requires Linked(b) && Healthy(b) && !Terminal(state) && state != Waiting
    ensures Healthy(SetState(b, id, state))
  {
    if id in b.tickets {
      LivelyWriteKeepsHealth(b, id, b.tickets[id].(state := state));
    }
  }

  lemma OtherActsKeepHealth(b: Board, a: Act)
    requires Linked(b) && Healthy(b)
    requires !EndsSilently(b, a)
    ensures Healthy(Apply(b, a))
  {
    match a.step
    case HandoffStep(id, actor, assignee) =>
      HandoffKeepsHealth(b, a.teams, id, actor, assignee);
    case CloseStep(id, actor) =>
      if MayClose(b, a.teams, id, actor) {
        ReleasingWriteKeepsHealth(b, a.teams, id, b.tickets[id].(lane := Some(DONE_LANE), state := Completed));
      }
    case DecomposeStep(e, actor, summary, plan, stories) =>
      if MayDecompose(b, a.teams, e, actor, summary, plan, stories) {
        ParkKeepsHealth(b, TeamOf(a.teams, b.tickets[e]).value, e, stories);
      }
    case OutcomeStep(id, agent, run) =>
      if id in b.tickets {
        OutcomeKeepsHealth(b, a.teams, id, agent, run);
      }
    case SweepStep(id) =>
      if id in b.tickets {
        ReleasingWriteKeepsHealth(b, a.teams, id, b.tickets[id].(state := Failed));
      }
    case MoveStep(id, lane, actor) => MoveKeepsHealth(b, a);
    case RetireStep(id, actor) =>
    case CompactStep(id) => CompactKeepsHealth(b, id);
    case CreateStep(team, at, to) => CreateKeepsHealth(b, team, at, to);
    case ClaimStep(id) => StateKeepsHealth(b, id, Claimed);
    case RunStep(id) => StateKeepsHealth(b, id, Running);
    case HoldStep(id) => StateKeepsHealth(b, id, NeedsApproval);
    case RequeueStep(id) => StateKeepsHealth(b, id, Pending);
  }

  lemma MoveKeepsHealth(b: Board, a: Act)
    requires Healthy(b) && a.step.MoveStep?
    ensures Healthy(Apply(b, a))
  {
    var d := Apply(b, a);
    forall e: nat | Asleep(d, e) ensures HasOpen(d, Children(d, e)) {
      assert Asleep(b, e) && Children(d, e) == Children(b, e);
      StillOpen(b, d, Children(b, e));
    }
  }

  // Exactly which single act can leave an epic asleep with nothing to wait for.
  lemma HealthKeptExactly(b: Board, a: Act)
    requires Linked(b) && Healthy(b)
    ensures Linked(Apply(b, a))
    ensures Healthy(Apply(b, a)) <==> !Strands(b, a)
  {
    LinksStay(b, a);
    if Strands(b, a) {
      StrandingBreaksHealth(b, a);
      assert Asleep(Apply(b, a), b.tickets[Subject(a)].meta.parent.value);
    } else if EndsSilently(b, a) {
      SilentEndKeepsHealth(b, a);
    } else {
      OtherActsKeepHealth(b, a);
    }
  }

  ghost predicate NoneStrands(b: Board, acts: seq<Act>)
    decreases |acts|
  {
    acts == [] || (!Strands(b, acts[0]) && NoneStrands(Apply(b, acts[0]), acts[1..]))
  }

  ghost predicate HealthyThroughout(b: Board, acts: seq<Act>)
    decreases |acts|
  {
    Healthy(b) && (acts == [] || HealthyThroughout(Apply(b, acts[0]), acts[1..]))
  }

  // Over whole runs: every waiting epic has an open child at every moment if and only if no act strands one.
  lemma {:induction false} HealthyRun(b: Board, acts: seq<Act>)
    requires Linked(b) && Healthy(b)
    ensures HealthyThroughout(b, acts) <==> NoneStrands(b, acts)
    ensures Linked(Run(b, acts))
    ensures NoneStrands(b, acts) ==> Healthy(Run(b, acts))
    decreases |acts|
  {
    if acts != [] {
      HealthKeptExactly(b, acts[0]);
      if Strands(b, acts[0]) {
        LinkedRun(Apply(b, acts[0]), acts[1..]);
      } else {
        HealthyRun(Apply(b, acts[0]), acts[1..]);
      }
    }
  }

  lemma {:induction false} LinkedRun(b: Board, acts: seq<Act>)
    requires Linked(b)
    ensures Linked(Run(b, acts))
    decreases |acts|
  {
    if acts != [] {
      LinksStay(b, acts[0]);
      LinkedRun(Apply(b, acts[0]), acts[1..]);
    }
  }

  // --- what a sleeping epic is waiting for ---

  predicate Actionable(s: TaskState) {
    s == Pending || s == Claimed || s == Running || s == NeedsApproval
  }

  ghost predicate Path(b: Board, path: seq<nat>) {
    path != [] && (forall i :: 0 <= i < |path| ==> path[i] in b.tickets)
    && forall i :: 0 <= i < |path| - 1 ==> path[i + 1] in b.tickets[path[i]].meta.children
  }

  // Below every sleeping epic, however deep the decompositions nest, some story can still be worked.
  lemma {:induction false} SomethingIsStillOpen(b: Board, e: nat) returns (path: seq<nat>)
    requires Linked(b) && Healthy(b) && Asleep(b, e)
    ensures Path(b, path) && path[0] == e && Actionable(b.tickets[path[|path| - 1]].state)
    decreases b.next - e
  {
    var kids := Children(b, e);
    var c :| c in kids && Open(b, c);
    assert ChildKnows(b, c, e);
    if b.tickets[c].state == Waiting {
      var rest := SomethingIsStillOpen(b, c);
      path := [e] + rest;
    } else {
      path := [e, c];
    }
  }

  // The whole-run guarantee, from an empty board.
  lemma NoEpicIsStuck(acts: seq<Act>, e: nat) returns (path: seq<nat>)
    requires NoneStrands(EMPTY, acts) && Asleep(Run(EMPTY, acts), e)
    ensures Path(Run(EMPTY, acts), path) && path[0] == e
    ensures Actionable(Run(EMPTY, acts).tickets[path[|path| - 1]].state)
  {
    HealthyRun(EMPTY, acts);
    path := SomethingIsStillOpen(Run(EMPTY, acts), e);
  }

  // --- once decomposed, once released ---

  predicate Decomposes(b: Board, a: Act, e: nat) {
    a.step.DecomposeStep? && a.step.id == e
    && MayDecompose(b, a.teams, e, a.step.actor, a.step.summary, a.step.plan, a.step.stories)
  }

  predicate Wakening(b: Board, a: Act, e: nat) {
    Asleep(b, e) && !Asleep(Apply(b, a), e)
  }

  function Decompositions(b: Board, acts: seq<Act>, e: nat): nat
    decreases |acts|
  {
    if acts == [] then 0
    else (if Decomposes(b, acts[0], e) then 1 else 0) + Decompositions(Apply(b, acts[0]), acts[1..], e)
  }

  function Wakenings(b: Board, acts: seq<Act>, e: nat): nat
    decreases |acts|
  {
    if acts == [] then 0
    else (if Wakening(b, acts[0], e) then 1 else 0) + Wakenings(Apply(b, acts[0]), acts[1..], e)
  }

  // Whether a ticket, or one not created yet, can still be decomposed.
  function DecompositionsLeft(b: Board, e: nat): nat {
    if e in b.tickets then if b.tickets[e].meta.children == [] then 1 else 0
    else if e < b.next then 0 else 1
  }

  function WakeningsLeft(b: Board, e: nat): nat {
    if Asleep(b, e) then 1 else DecompositionsLeft(b, e)
  }

  lemma OneActSpends(b: Board, a: Act, e: nat)
    requires Linked(b) && (Asleep(b, e) ==> b.tickets[e].meta.children != [])
    ensures var d := Apply(b, a);
            && (Asleep(d, e) ==> d.tickets[e].meta.children != [])
            && (if Decomposes(b, a, e) then 1 else 0) + DecompositionsLeft(d, e) <= DecompositionsLeft(b, e)
            && (if Wakening(b, a, e) then 1 else 0) + WakeningsLeft(d, e) <= WakeningsLeft(b, e)
  {
    match a.step
    case DecomposeStep(x, actor, summary, plan, stories) =>
      if MayDecompose(b, a.teams, x, actor, summary, plan, stories) {
        ParkSpends(b, TeamOf(a.teams, b.tickets[x]).value, x, stories, e);
      }
    case CreateStep(team, at, to) =>
    case _ =>
      ActEffect(b, a, e);
  }

  lemma ParkSpends(b: Board, team: Team, x: nat, stories: seq<Spec>, e: nat)
    requires Linked(b) && (Asleep(b, e) ==> b.tickets[e].meta.children != [])
    requires x in b.tickets && AllStories(stories) && stories != [] && b.tickets[x].meta.children == []
    ensures var d := Park(b, team, x, stories);
            && (Asleep(d, e) ==> d.tickets[e].meta.children != [])
            && (if e == x then 1 else 0) + DecompositionsLeft(d, e) <= DecompositionsLeft(b, e)
            && WakeningsLeft(d, e) <= WakeningsLeft(b, e)
            && (Asleep(b, e) ==> Asleep(d, e))
  {
    ParkEffect(b, team, x, stories, e);
  }

  // Over every run of every writer, stranding ones included, a ticket is decomposed at most once and leaves
  // the waiting state at most once.
  lemma {:induction false} OnceDecomposedOnceWoken(b: Board, acts: seq<Act>, e: nat)
    requires Linked(b) && (Asleep(b, e) ==> b.tickets[e].meta.children != [])
    ensures Decompositions(b, acts, e) <= DecompositionsLeft(b, e) <= 1
    ensures Wakenings(b, acts, e) <= WakeningsLeft(b, e) <= 1
    decreases |acts|
  {
    if acts != [] {
      LinksStay(b, acts[0]);
      OneActSpends(b, acts[0], e);
      OnceDecomposedOnceWoken(Apply(b, acts[0]), acts[1..], e);
    }
  }

  // --- a released epic, and one that lost its park ---

  // A released epic lands where its lead can close it, when the lead's id resolves to the lead role.
  lemma ReleasedEpicIsClosable(b: Board, teams: Teams, child: nat)
    requires Wakes(b, child)
    ensures var e := b.tickets[child].meta.parent.value;
            var d := Release(b, teams, child);
            TeamOf(teams, b.tickets[e]).Some? ==>
              var team := TeamOf(teams, b.tickets[e]).value;
              d.tickets[e].state == Pending && d.tickets[e].assignee == LeadOf(team)
              && (LeadOf(team).Some? ==>
                    (MayClose(d, teams, e, LeadOf(team)) <==> RoleOf(team, LeadOf(team).value) == Some("lead")))
  {
  }

  // The run that decomposed the epic ends later. Its end keeps the park exactly when it completed, outside `done`.
  lemma ParkSurvivesExactly(b: Board, teams: Teams, e: nat, agent: string, run: RunState)
    requires Asleep(b, e) && OnBoard(teams, b.tickets[e])
    requires b.tickets[e].meta.parent != Some(e)
    ensures Asleep(ApplyOutcome(b, teams, e, agent, run), e)
            <==> run == RunCompleted && b.tickets[e].lane != Some(DONE_LANE)
  {
  }

  // An epic that is not waiting is never woken: acts on other tickets leave it exactly as it is.
  lemma {:induction false} LostParkIsNeverWoken(b: Board, acts: seq<Act>, e: nat)
    requires b.Ids() && e in b.tickets && !Asleep(b, e)
    requires forall i :: 0 <= i < |acts| ==> acts[i].step.CreateStep? || Subject(acts[i]) != e
    ensures e in Run(b, acts).tickets && Run(b, acts).tickets[e] == b.tickets[e]
    decreases |acts|
  {
    if acts != [] {
      var a := acts[0];
      var c := Apply(b, a);
      assert c.Ids() && e in c.tickets && c.tickets[e] == b.tickets[e] by {
        UntouchedByOthers(b, a, e);
      }
      LostParkIsNeverWoken(c, acts[1..], e);
    }
  }

  lemma UntouchedByOthers(b: Board, a: Act, e: nat)
    requires b.Ids() && e in b.tickets && !Asleep(b, e)
    requires a.step.CreateStep? || Subject(a) != e
    ensures var c := Apply(b, a); c.Ids() && e in c.tickets && c.tickets[e] == b.tickets[e]
  {
    IdsStay(b, a);
    match a.step
    case DecomposeStep(x, actor, summary, plan, stories) =>
      if MayDecompose(b, a.teams, x, actor, summary, plan, stories) {
        ParkEffect(b, TeamOf(a.teams, b.tickets[x]).value, x, stories, e);
      }
    case CreateStep(team, at, to) =>
    case _ =>
      ActEffect(b, a, e);
  }
}
