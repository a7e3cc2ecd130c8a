// Deleting agents, teams and orphaned workspaces: everything removed is backed up first.
module Deletion {
  import opened Text

  type Path = seq<string>

  // The files below the home directory; a directory exists when it holds a file.
  type Files = map<Path, string>

  const BACKUPS: Path := ["state", "backups"]

  predicate Exists(fs: Files, p: Path) {
    exists q :: q in fs && p <= q
  }

  predicate Backup(p: Path) {
    BACKUPS <= p
  }

  // Neither the backup store nor anything around or inside it.
  predicate Live(p: Path) {
    p != [] && !(BACKUPS <= p) && !(p <= BACKUPS)
  }

  lemma LiveElsewhere(p: Path)
    requires p != [] && p[0] != "state"
    ensures Live(p)
  {
  }

  // --- one backup ---

  // The k-th name tried for a backup: the counter goes on the last component.
  function Named(target: Path, k: nat): (p: Path)
    requires target != []
    ensures |p| == |target|
  {
    if k == 0 then target else target[..|target| - 1] + [target[|target| - 1] + "." + Decimal(k)]
  }

  lemma NamedLast(target: Path, k: nat)
    requires target != []
    ensures var last := target[|target| - 1];
            Named(target, k)[|target| - 1] == if k == 0 then last else last + "." + Decimal(k)
  {
  }

  lemma NamesDiffer(target: Path, j: nat, k: nat)
    requires target != [] && Named(target, j) == Named(target, k)
    ensures j == k
  {
    var last := target[|target| - 1];
    NamedLast(target, j);
    NamedLast(target, k);
    if j > 0 && k > 0 {
      assert (last + "." + Decimal(j))[|last| + 1..] == Decimal(j);
      assert (last + "." + Decimal(k))[|last| + 1..] == Decimal(k);
      DecimalNamesTheNumber(j, k);
    }
  }

  predicate Blocks(target: Path, k: nat, q: Path)
    requires target != []
  {
    Named(target, k) <= q
  }

  // The files that stand in the way of a name from the k-th on.
  ghost function InTheWay(fs: Files, target: Path, k: nat): set<Path>
    requires target != []
  {
    set q | q in fs && exists j :: j >= k && Blocks(target, j, q)
  }

  lemma FewerInTheWay(fs: Files, target: Path, k: nat)
    requires target != [] && Exists(fs, Named(target, k))
    ensures |InTheWay(fs, target, k + 1)| < |InTheWay(fs, target, k)|
  {
    var q :| q in fs && Named(target, k) <= q;
    assert Blocks(target, k, q);
    var rest := InTheWay(fs, target, k + 1);
    if q in rest {
      var j :| j >= k + 1 && Blocks(target, j, q);
      assert Named(target, j) == q[..|target|] == Named(target, k);
      NamesDiffer(target, j, k);
    }
    assert rest + {q} <= InTheWay(fs, target, k);
    SubsetIsNoLarger(rest + {q}, InTheWay(fs, target, k));
  }

  // The first free name.
  function FreeName(fs: Files, target: Path, k: nat): (p: Path)
    requires target != []
    ensures !Exists(fs, p) && |p| == |target| && p[..|target| - 1] == target[..|target| - 1]
    decreases |InTheWay(fs, target, k)|
  {
    if Exists(fs, Named(target, k)) then
      FewerInTheWay(fs, target, k);
      FreeName(fs, target, k + 1)
    else Named(target, k)
  }

  function Copied(fs: Files, src: Path, dst: Path): Files {
    map d | d in (set q | q in fs && src <= q :: dst + q[|src|..]) :: Original(fs, src, dst, d)
  }

  function Original(fs: Files, src: Path, dst: Path, d: Path): string {
    if dst <= d && src + d[|dst|..] in fs then fs[src + d[|dst|..]] else ""
  }

  lemma CopiedHas(fs: Files, src: Path, dst: Path, q: Path)
    requires q in fs && src <= q
    ensures dst + q[|src|..] in Copied(fs, src, dst) && Copied(fs, src, dst)[dst + q[|src|..]] == fs[q]
  {
    var d := dst + q[|src|..];
    assert d[|dst|..] == q[|src|..] && src + q[|src|..] == q;
  }

  // _backup_file, on the day `date`.
  function Saved(fs: Files, date: string, src: Path, rel: Path): Files
    requires rel != []
  {
    if Exists(fs, src) then fs + Copied(fs, src, FreeName(fs, BACKUPS + [date] + rel, 0)) else fs
  }

  function Removed(fs: Files, p: Path): Files {
    map q | q in fs && !(p <= q) :: fs[q]
  }

  function Gone(fs: Files, date: string, src: Path, rel: Path): Files
    requires rel != []
  {
    Removed(Saved(fs, date, src, rel), src)
  }

  // --- what every step keeps ---

  predicate Has(fs: Files, q: Path, content: string) {
    q in fs && fs[q] == content
  }

  ghost predicate InBackups(fs: Files, content: string) {
    exists b :: Backup(b) && Has(fs, b, content)
  }

  // No backup is altered, and every other file is unchanged or has its content in a backup; `edited` are the files
  // the step rewrites on purpose.
  ghost predicate Keeps(before: Files, after: Files, edited: set<Path>) {
    && (forall q :: q in before && Backup(q) ==> Has(after, q, before[q]))
    && (forall q :: q in before && q !in edited ==> Has(after, q, before[q]) || InBackups(after, before[q]))
  }

  lemma KeepsTransitive(a: Files, b: Files, c: Files, edited: set<Path>)
    requires Keeps(a, b, edited) && Keeps(b, c, edited)
    ensures Keeps(a, c, edited)
  {
    forall q | q in a && Backup(q) ensures Has(c, q, a[q]) {
      assert Has(b, q, a[q]);
    }
    forall q | q in a && q !in edited ensures Has(c, q, a[q]) || InBackups(c, a[q]) {
      if Has(b, q, a[q]) {
        assert q in b && q !in edited;
      } else {
        var d :| Backup(d) && Has(b, d, a[q]);
        assert Has(c, d, a[q]);
      }
    }
  }

  lemma SavedGrows(fs: Files, date: string, src: Path, rel: Path)
    requires rel != []
    ensures forall q :: q in fs ==> Has(Saved(fs, date, src, rel), q, fs[q])
    ensures forall q :: q in Saved(fs, date, src, rel) && q !in fs ==> Backup(q)
    ensures forall q :: q in fs && src <= q ==> InBackups(Saved(fs, date, src, rel), fs[q])
  {
    var t := Saved(fs, date, src, rel);
    if Exists(fs, src) {
      var target := BACKUPS + [date] + rel;
      var dst := FreeName(fs, target, 0);
      assert dst[..2] == dst[..|target| - 1][..2] == target[..|target| - 1][..2] == BACKUPS;
      forall q | q in fs ensures Has(t, q, fs[q]) {
        assert q !in Copied(fs, src, dst);
      }
      forall q | q in t && q !in fs ensures Backup(q) {
        assert dst <= q;
        assert q[..2] == dst[..2];
      }
      forall q | q in fs && src <= q ensures InBackups(t, fs[q]) {
        CopiedHas(fs, src, dst, q);
        var d := dst + q[|src|..];
        assert d[..2] == dst[..2];
        assert Has(t, d, fs[q]) && Backup(d);
      }
    }
  }

  // A backup is a copy of the whole tree under a name that nothing had before.
  lemma BackupMirrorsTheTree(fs: Files, date: string, src: Path, rel: Path) returns (target: Path)
    requires rel != [] && Exists(fs, src)
    ensures !Exists(fs, target) && BACKUPS <= target
    ensures forall q :: q in fs && src <= q ==> Has(Saved(fs, date, src, rel), target + q[|src|..], fs[q])
    ensures forall q :: q in Saved(fs, date, src, rel) && !(target <= q) ==> q in fs
  {
    target := FreeName(fs, BACKUPS + [date] + rel, 0);
    assert target[..2] == target[..|target| - 1][..2] == BACKUPS;
    forall q | q in fs && src <= q ensures Has(Saved(fs, date, src, rel), target + q[|src|..], fs[q]) {
      CopiedHas(fs, src, target, q);
    }
  }

  lemma GoneKeeps(fs: Files, date: string, src: Path, rel: Path)
    requires rel != [] && Live(src)
    ensures Keeps(fs, Gone(fs, date, src, rel), {})
    ensures forall q :: !Backup(q) ==> (q in Gone(fs, date, src, rel) <==> q in fs && !(src <= q))
  {
    var t := Saved(fs, date, src, rel);
    var u := Gone(fs, date, src, rel);
    SavedGrows(fs, date, src, rel);
    BackupsSurvive(t, src);
    forall q | q in fs && src <= q ensures InBackups(u, fs[q]) {
      var b :| Backup(b) && Has(t, b, fs[q]);
      assert Has(u, b, fs[q]);
    }
  }

  lemma PrefixesMeet(a: Path, b: Path, q: Path)
    requires a <= q && b <= q
    ensures a <= b || b <= a
  {
    if |a| <= |b| {
      assert a == q[..|a|] == b[..|a|];
    } else {
      assert b == q[..|b|] == a[..|b|];
    }
  }

  lemma BackupsSurvive(fs: Files, src: Path)
    requires Live(src)
    ensures forall q :: q in fs && Backup(q) ==> Has(Removed(fs, src), q, fs[q])
  {
    forall q | q in fs && Backup(q) ensures !(src <= q) {
      if src <= q {
        PrefixesMeet(src, BACKUPS, q);
      }
    }
  }

  // A list of removals, each backed up first.
  datatype Item = Item(src: Path, rel: Path)

  predicate AllLive(items: seq<Item>) {
    forall i :: 0 <= i < |items| ==> Live(items[i].src) && items[i].rel != []
  }

  predicate Covered(items: seq<Item>, q: Path) {
    exists i :: 0 <= i < |items| && items[i].src <= q
  }

  function GoneAll(fs: Files, date: string, items: seq<Item>): Files
    requires AllLive(items)
    decreases |items|
  {
    if items == [] then fs else GoneAll(Gone(fs, date, items[0].src, items[0].rel), date, items[1..])
  }

  lemma KeepsItself(fs: Files)
    ensures Keeps(fs, fs, {})
  {
  }

  lemma {:induction false} GoneAllKeeps(fs: Files, date: string, items: seq<Item>)
    requires AllLive(items)
    ensures Keeps(fs, GoneAll(fs, date, items), {})
    ensures forall q :: !Backup(q) ==> (q in GoneAll(fs, date, items) <==> q in fs && !Covered(items, q))
    decreases |items|
  {
    if items == [] {
      KeepsItself(fs);
    } else {
      var next := Gone(fs, date, items[0].src, items[0].rel);
      GoneKeeps(fs, date, items[0].src, items[0].rel);
      GoneAllKeeps(next, date, items[1..]);
      KeepsTransitive(fs, next, GoneAll(fs, date, items), {});
      forall q ensures Covered(items, q) <==> items[0].src <= q || Covered(items[1..], q) {
        if Covered(items[1..], q) {
          var i :| 0 <= i < |items[1..]| && items[1..][i].src <= q;
          assert items[i + 1].src <= q;
        }
        if Covered(items, q) && !(items[0].src <= q) {
          var i :| 0 <= i < |items| && items[i].src <= q;
          assert items[1..][i - 1].src <= q;
        }
      }
    }
  }

  // --- deleting an agent ---

  // What the deletion does to the owning install record and the recipe: new contents, or removal.
  function Edited(fs: Files, edits: map<Path, Option<string>>): Files {
    map q | q in fs.Keys + edits.Keys && (q in edits ==> edits[q].Some?)
      :: if q in edits then edits[q].value else fs[q]
  }

  function AgentYaml(agent: string): Path {
    ["agents", agent + ".yaml"]
  }

  function RoleItem(agent: string, workspace: string): (item: Item)
    ensures Live(item.src) && item.rel != []
  {
    var dir := ["workspaces", workspace, "roles", agent];
    LiveElsewhere(dir);
    Item(dir, dir)
  }

  function RoleItems(agent: string, workspaces: seq<string>): (items: seq<Item>)
    ensures AllLive(items)
  {
    seq(|workspaces|, i requires 0 <= i < |workspaces| => RoleItem(agent, workspaces[i]))
  }

  // `workspaces` are the workspace directories, as listed.
  function AgentDeleted(fs: Files, date: string, agent: string, workspaces: seq<string>,
                        edits: map<Path, Option<string>>): Files
  {
    var yaml := AgentYaml(agent);
    var solo := ["workspaces", agent];
    var saved := Saved(fs, date, yaml, yaml);
    var roles := GoneAll(saved, date, RoleItems(agent, workspaces));
    Removed(Edited(Gone(roles, date, solo, solo), edits), yaml)
  }

  predicate AwayFromBackups(edits: map<Path, Option<string>>) {
    forall q :: q in edits ==> !Backup(q)
  }

  lemma EditKeeps(fs: Files, edits: map<Path, Option<string>>)
    requires AwayFromBackups(edits)
    ensures Keeps(fs, Edited(fs, edits), edits.Keys)
  {
  }

  lemma KeepsMore(a: Files, b: Files, few: set<Path>, many: set<Path>)
    requires Keeps(a, b, few) && few <= many
    ensures Keeps(a, b, many)
  {
  }

  // A file that was saved while it was unchanged may go later.
  lemma RemoveSaved(before: Files, after: Files, edited: set<Path>, p: Path)
    requires Keeps(before, after, edited) && Live(p)
    requires forall q :: q in before && p <= q && q !in edited ==> InBackups(after, before[q])
    ensures Keeps(before, Removed(after, p), edited)
  {
    BackupsSurvive(after, p);
    var gone := Removed(after, p);
    forall q | q in before && q !in edited ensures Has(gone, q, before[q]) || InBackups(gone, before[q]) {
      if !(Has(after, q, before[q]) && !(p <= q)) {
        var b :| Backup(b) && Has(after, b, before[q]);
        assert Has(gone, b, before[q]);
      }
    }
  }

  lemma BackedStays(before: Files, after: Files, edited: set<Path>, content: string)
    requires Keeps(before, after, edited) && InBackups(before, content)
    ensures InBackups(after, content)
  {
    var b :| Backup(b) && Has(before, b, content);
    assert Has(after, b, content);
  }

  // After an agent is deleted its files are gone, yet every file that existed is unchanged or has its content in a
  // backup, the record and recipe edits aside, and no earlier backup is altered. This holds although a workspace's
  // role directory is saved before the workspace around it.
  lemma NoAgentFileIsLost(fs: Files, date: string, agent: string, workspaces: seq<string>,
                          edits: map<Path, Option<string>>)
    requires AwayFromBackups(edits)
    ensures var after := AgentDeleted(fs, date, agent, workspaces, edits);
            && Keeps(fs, after, edits.Keys)
            && AgentYaml(agent) !in after
            && forall q :: q in after && ["workspaces", agent] <= q ==> q in edits
  {
    var yaml := AgentYaml(agent);
    var solo := ["workspaces", agent];
    var saved := Saved(fs, date, yaml, yaml);
    var roles := GoneAll(saved, date, RoleItems(agent, workspaces));
    var empty := Gone(roles, date, solo, solo);
    var edited := Edited(empty, edits);
    LiveElsewhere(yaml);
    LiveElsewhere(solo);
    SavedGrows(fs, date, yaml, yaml);
    GoneAllKeeps(saved, date, RoleItems(agent, workspaces));
    GoneKeeps(roles, date, solo, solo);
    EditKeeps(empty, edits);
    assert Keeps(fs, saved, {});
    KeepsTransitive(fs, saved, roles, {});
    KeepsTransitive(saved, roles, empty, {});
    KeepsMore(saved, empty, {}, edits.Keys);
    KeepsTransitive(saved, empty, edited, edits.Keys);
    KeepsMore(fs, saved, {}, edits.Keys);
    KeepsTransitive(fs, saved, edited, edits.Keys);
    forall q | q in fs && yaml <= q ensures InBackups(edited, fs[q]) {
      BackedStays(saved, edited, edits.Keys, fs[q]);
    }
    RemoveSaved(fs, edited, edits.Keys, yaml);
    SoloIsEmpty(roles, date, solo);
  }

  lemma SoloIsEmpty(fs: Files, date: string, solo: Path)
    requires |solo| == 2 && solo[0] == "workspaces"
    ensures forall q :: q in Gone(fs, date, solo, solo) ==> !(solo <= q)
  {
  }

  lemma GoneContents(fs: Files, date: string, src: Path, rel: Path)
    requires rel != []
    ensures forall q :: q in fs && q in Gone(fs, date, src, rel) ==> Gone(fs, date, src, rel)[q] == fs[q]
  {
    SavedGrows(fs, date, src, rel);
  }

  lemma {:induction false} GoneAllContents(fs: Files, date: string, items: seq<Item>)
    requires AllLive(items)
    ensures forall q :: q in fs && !Backup(q) && q in GoneAll(fs, date, items) ==> GoneAll(fs, date, items)[q] == fs[q]
    decreases |items|
  {
    if items != [] {
      var next := Gone(fs, date, items[0].src, items[0].rel);
      GoneContents(fs, date, items[0].src, items[0].rel);
      GoneKeeps(fs, date, items[0].src, items[0].rel);
      GoneAllContents(next, date, items[1..]);
      GoneAllKeeps(next, date, items[1..]);
    }
  }

  predicate RoleFile(agent: string, workspaces: seq<string>, q: Path) {
    exists i :: 0 <= i < |workspaces| && ["workspaces", workspaces[i], "roles", agent] <= q
  }

  // What goes is exactly the agent's file, its solo workspace and its role directory in each workspace; the record and
  // recipe edits aside, everything else outside the backups is as it was.
  lemma AgentGoneExactly(fs: Files, date: string, agent: string, workspaces: seq<string>,
                         edits: map<Path, Option<string>>, q: Path)
    requires !Backup(q) && q !in edits
    ensures var after := AgentDeleted(fs, date, agent, workspaces, edits);
            && (q in after <==> q in fs && !(["agents", agent + ".yaml"] <= q) && !(["workspaces", agent] <= q)
                                && !RoleFile(agent, workspaces, q))
            && (q in after ==> after[q] == fs[q])
  {
    var yaml, solo := AgentYaml(agent), ["workspaces", agent];
    var items := RoleItems(agent, workspaces);
    var saved := Saved(fs, date, yaml, yaml);
    var roles := GoneAll(saved, date, items);
    LiveElsewhere(solo);
    SavedGrows(fs, date, yaml, yaml);
    GoneAllKeeps(saved, date, items);
    GoneAllContents(saved, date, items);
    GoneKeeps(roles, date, solo, solo);
    GoneContents(roles, date, solo, solo);
    RolesCovered(agent, workspaces, q);
  }

  lemma RolesCovered(agent: string, workspaces: seq<string>, q: Path)
    ensures Covered(RoleItems(agent, workspaces), q) <==> RoleFile(agent, workspaces, q)
  {
    var items := RoleItems(agent, workspaces);
    assert forall i :: 0 <= i < |workspaces| ==> items[i].src == ["workspaces", workspaces[i], "roles", agent];
  }

  // --- deleting a team, and collecting orphaned workspaces ---

  // The record's artifacts, the team's own file aside.
  function OwnedItems(yaml: Path, artifacts: seq<Path>): (items: seq<Item>)
    requires LiveArtifacts(artifacts)
    ensures AllLive(items)
  {
    if artifacts == [] then []
    else (if artifacts[0] == yaml then [] else [Item(artifacts[0], artifacts[0])]) + OwnedItems(yaml, artifacts[1..])
  }

  predicate LiveArtifacts(artifacts: seq<Path>) {
    forall i :: 0 <= i < |artifacts| ==> Live(artifacts[i])
  }

  lemma TeamYamlLive(team: string)
    ensures Live(["teams", team + ".yaml"])
  {
    assert "teams"[0] == 't' && "state"[0] == 's';
    LiveElsewhere(["teams", team + ".yaml"]);
  }

  // Owned artifacts, then the team's file, then its workspace.
  function TeamItems(team: string, artifacts: seq<Path>): (items: seq<Item>)
    requires LiveArtifacts(artifacts)
    ensures AllLive(items)
  {
    var yaml := ["teams", team + ".yaml"];
    var workspace := ["workspaces", team];
    TeamYamlLive(team);
    LiveElsewhere(workspace);
    OwnedItems(yaml, artifacts) + [Item(yaml, yaml), Item(workspace, workspace)]
  }

  // Everything a team deletion removes, its install record aside, is in a backup; nothing else changes.
  lemma NoTeamFileIsLost(fs: Files, date: string, team: string, artifacts: seq<Path>, record: Path)
    requires LiveArtifacts(artifacts) && Live(record)
    ensures var after := Removed(GoneAll(fs, date, TeamItems(team, artifacts)), record);
            && Keeps(fs, after, set q | q in fs && record <= q)
            && forall q :: !Backup(q) ==>
                 (q in after <==> q in fs && !Covered(TeamItems(team, artifacts), q) && !(record <= q))
  {
    var gone := GoneAll(fs, date, TeamItems(team, artifacts));
    var aside := set q | q in fs && record <= q;
    GoneAllKeeps(fs, date, TeamItems(team, artifacts));
    KeepsMore(fs, gone, {}, aside);
    RemoveSaved(fs, gone, aside, record);
  }

  predicate Owned(artifacts: seq<Path>, q: Path) {
    exists i :: 0 <= i < |artifacts| && artifacts[i] <= q
  }

  lemma {:induction false} OwnedCovered(yaml: Path, artifacts: seq<Path>, q: Path)
    requires LiveArtifacts(artifacts)
    ensures Covered(OwnedItems(yaml, artifacts), q) || yaml <= q <==> Owned(artifacts, q) || yaml <= q
  {
    if artifacts != [] {
      OwnedCovered(yaml, artifacts[1..], q);
      assert Owned(artifacts, q) <==> artifacts[0] <= q || Owned(artifacts[1..], q) by {
        if Owned(artifacts[1..], q) {
          var i :| 0 <= i < |artifacts[1..]| && artifacts[1..][i] <= q;
          assert artifacts[i + 1] <= q;
        }
        if Owned(artifacts, q) && !(artifacts[0] <= q) {
          var i :| 0 <= i < |artifacts| && artifacts[i] <= q;
          assert artifacts[1..][i - 1] <= q;
        }
      }
      var first := if artifacts[0] == yaml then [] else [Item(artifacts[0], artifacts[0])];
      CoveredConcat(first, OwnedItems(yaml, artifacts[1..]), q);
      assert first != [] ==> first[0].src == artifacts[0];
    }
  }

  lemma CoveredConcat(a: seq<Item>, b: seq<Item>, q: Path)
    ensures Covered(a + b, q) <==> Covered(a, q) || Covered(b, q)
  {
    if Covered(a, q) {
      var i :| 0 <= i < |a| && a[i].src <= q;
      assert (a + b)[i].src <= q;
    }
    if Covered(b, q) {
      var i :| 0 <= i < |b| && b[i].src <= q;
      assert (a + b)[|a| + i].src <= q;
    }
    if Covered(a + b, q) {
      var i :| 0 <= i < |a + b| && (a + b)[i].src <= q;
      assert if i < |a| then a[i].src <= q else b[i - |a|].src <= q;
    }
  }

  // What goes with a team is exactly its file, its workspace, its record and the artifacts the record owns; everything
  // else outside the backups is as it was.
  lemma TeamGoneExactly(fs: Files, date: string, team: string, artifacts: seq<Path>, record: Path, q: Path)
    requires LiveArtifacts(artifacts) && Live(record) && !Backup(q)
    ensures var after := Removed(GoneAll(fs, date, TeamItems(team, artifacts)), record);
            && (q in after <==> q in fs && !(["teams", team + ".yaml"] <= q) && !(["workspaces", team] <= q)
                                && !Owned(artifacts, q) && !(record <= q))
            && (q in after ==> after[q] == fs[q])
  {
    var yaml, workspace := ["teams", team + ".yaml"], ["workspaces", team];
    var last := [Item(yaml, yaml), Item(workspace, workspace)];
    NoTeamFileIsLost(fs, date, team, artifacts, record);
    GoneAllContents(fs, date, TeamItems(team, artifacts));
    CoveredConcat(OwnedItems(yaml, artifacts), last, q);
    OwnedCovered(yaml, artifacts, q);
    assert last[0].src == yaml && last[1].src == workspace;
  }

  class Home {
    var fs: Files

    constructor (files: Files)
      ensures fs == files
    {
      fs := files;
    }

    method BackupFile(date: string, src: Path, rel: Path) returns (saved: Option<Path>)
      requires rel != []
      modifies this
      ensures fs == Saved(old(fs), date, src, rel)
      ensures saved.Some? <==> Exists(old(fs), src)
      ensures saved.Some? ==> !Exists(old(fs), saved.value)
    {
      if !Exists(fs, src) {
        return None;
      }
      var target := FreeTarget(BACKUPS + [date] + rel);
      fs := fs + Copied(fs, src, target);
      saved := Some(target);
    }

    method FreeTarget(base: Path) returns (target: Path)
      requires base != []
      ensures target == FreeName(fs, base, 0)
    {
      target := base;
      var counter := 0;
      while Exists(fs, target)
        invariant target == Named(base, counter)
        invariant FreeName(fs, base, 0) == FreeName(fs, base, counter)
        decreases |InTheWay(fs, base, counter)|
      {
        FewerInTheWay(fs, base, counter);
        counter := counter + 1;
        target := base[..|base| - 1] + [base[|base| - 1] + "." + Decimal(counter)];
      }
    }

    method RemoveTree(p: Path)
      modifies this
      ensures fs == Removed(old(fs), p)
    {
      fs := Removed(fs, p);
    }

    // gc_workspaces with `apply`, and the loops of the two deletions: save, then remove, one by one.
    method BackupAndRemoveAll(date: string, items: seq<Item>)
      requires AllLive(items)
      modifies this
      ensures fs == GoneAll(old(fs), date, items)
    {
      for i := 0 to |items|
        invariant GoneAll(fs, date, items[i..]) == GoneAll(old(fs), date, items)
      {
        assert items[i..][1..] == items[i + 1..];
        var _ := BackupFile(date, items[i].src, items[i].rel);
        RemoveTree(items[i].src);
      }
    }

    method DeleteAgent(date: string, agent: string, workspaces: seq<string>, edits: map<Path, Option<string>>)
      returns (found: bool)
      modifies this
      ensures found <==> Exists(old(fs), AgentYaml(agent))
      ensures fs == if found then AgentDeleted(old(fs), date, agent, workspaces, edits) else old(fs)
    {
      var yaml, solo := AgentYaml(agent), ["workspaces", agent];
      if !Exists(fs, yaml) {
        return false;
      }
      var _ := BackupFile(date, yaml, yaml);
      BackupAndRemoveAll(date, RoleItems(agent, workspaces));
      var _ := BackupFile(date, solo, solo);
      RemoveTree(solo);
      fs := Edited(fs, edits);
      RemoveTree(yaml);
      found := true;
    }

    method DeleteTeam(date: string, team: string, artifacts: seq<Path>, record: Path) returns (found: bool)
      requires LiveArtifacts(artifacts)
      modifies this
      ensures found <==> Exists(old(fs), ["teams", team + ".yaml"])
      ensures fs == if found then Removed(GoneAll(old(fs), date, TeamItems(team, artifacts)), record) else old(fs)
    {
      if !Exists(fs, ["teams", team + ".yaml"]) {
        return false;
      }
      BackupAndRemoveAll(date, TeamItems(team, artifacts));
      RemoveTree(record);
      found := true;
    }
  }
}
