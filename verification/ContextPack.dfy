// How an agent's prompt is put together from layers under a total budget, and what the accounting of it says.
module ContextPack {
  import opened Text

  const TOTAL_LIMIT := 9000
  const TRUNCATED := "\n\U{2026}(truncated)"
  const VOLATILE_BOUNDARY := "<!-- context: stable layers above \U{B7} volatile below -->"
  const MEMORY_LIMIT := 1200
  const LAYER_LIMIT := 2000

  datatype Name = User | Identity | Soul | Agents | Charter | Lanes | Tools | Skills | Memory
                | SkillsActive | Inbox | Recent | SharedContext

  datatype Layer = Layer(title: string, body: Option<string>, name: Name, private: bool, volatile: bool)

  datatype LayerStat = LayerStat(name: Name, available: nat, included: nat, clipped: bool, dropped: bool,
                                 volatile: bool, private: bool)

  // What goes into the prompt: the marker between stable and volatile layers, or a layer's text.
  datatype Section = Boundary | Block(text: string)

  // The program's assembly in progress; `blocks` are the sections without the boundary marker.
  datatype Pack = Pack(sections: seq<Section>, blocks: seq<string>, loaded: seq<Name>, stats: seq<LayerStat>,
                       total: nat, stableChars: nat, volatileChars: nat, boundary: bool, spent: bool)

  const NOTHING := Pack([], [], [], [], 0, 0, 0, false, false)

  function LayerLimit(name: Name): nat {
    match name
    case User => 1400
    case Identity => 600
    case Soul => 1500
    case Agents => 1500
    case Charter => 1000
    case Tools => 1200
    case Memory => MEMORY_LIMIT
    case Inbox => 1500
    case Recent => 1200
    case SharedContext => 1000
    case Lanes => LAYER_LIMIT
    case Skills => LAYER_LIMIT
    case SkillsActive => LAYER_LIMIT
  }

  function Clip(text: string, limit: nat): (clipped: string)
    ensures |clipped| <= limit + |TRUNCATED|
    ensures |Strip(text)| <= limit ==> clipped == Strip(text)
  {
    var stripped := Strip(text);
    if |stripped| <= limit then stripped else TrimRight(stripped[..limit]) + TRUNCATED
  }

  function Heading(layer: Layer): string {
    "## " + layer.title + "\n"
  }

  predicate Present(layer: Layer, restricted: bool) {
    !(layer.private && restricted) && layer.body.Some? && !Blank(layer.body.value)
  }

  // A layer that is present, as it would read with no total budget.
  datatype Item = Item(name: Name, block: string, available: nat, overCap: bool, volatile: bool, private: bool)

  function ItemOf(layer: Layer): Item
    requires layer.body.Some?
  {
    var raw := Strip(layer.body.value);
    var limit := LayerLimit(layer.name);
    Item(layer.name, Heading(layer) + Clip(layer.body.value, limit), |Heading(layer)| + |raw|, |raw| > limit,
         layer.volatile, layer.private)
  }

  function Render(layer: Layer, restricted: bool): Option<Item> {
    if Present(layer, restricted) then Some(ItemOf(layer)) else None
  }

  function Somes(items: seq<Option<Item>>): seq<Item> {
    if items == [] then []
    else if items[0].Some? then [items[0].value] + Somes(items[1..])
    else Somes(items[1..])
  }

  function Shown(layers: seq<Layer>, restricted: bool): seq<Item> {
    Somes(seq(|layers|, i requires 0 <= i < |layers| => Render(layers[i], restricted)))
  }

  // --- one step of the assembly ---

  function Add(p: Pack, item: Item): Pack {
    if p.spent then
      p.(stats := p.stats + [LayerStat(item.name, item.available, 0, false, true, item.volatile, item.private)])
    else
      var trimmed := p.total + |item.block| > TOTAL_LIMIT;
      var block := if trimmed then item.block[..if p.total <= TOTAL_LIMIT then TOTAL_LIMIT - p.total else 0]
                   else item.block;
      Pack(p.sections + (if item.volatile && !p.boundary then [Boundary] else []) + [Block(block)],
           p.blocks + [block],
           p.loaded + [item.name],
           p.stats + [LayerStat(item.name, item.available, |block|, item.overCap || trimmed, false, item.volatile,
                                item.private)],
           p.total + |block|,
           p.stableChars + (if item.volatile then 0 else |block|),
           p.volatileChars + (if item.volatile then |block| else 0),
           p.boundary || item.volatile,
           p.total + |block| >= TOTAL_LIMIT)
  }

  function Assemble(p: Pack, items: seq<Item>): Pack
    decreases |items|
  {
    if items == [] then p else Assemble(Add(p, items[0]), items[1..])
  }

  function ContextOf(layers: seq<Layer>, restricted: bool): Pack {
    Assemble(NOTHING, Shown(layers, restricted))
  }

  function Rendered(p: Pack): string {
    Join(Texts(p.sections), "\n\n")
  }

  function TextOf(section: Section): string {
    match section
    case Boundary => VOLATILE_BOUNDARY
    case Block(text) => text
  }

  function Texts(sections: seq<Section>): (texts: seq<string>)
    ensures |texts| == |sections|
  {
    if sections == [] then [] else [TextOf(sections[0])] + Texts(sections[1..])
  }

  lemma {:induction false} TextsConcat(a: seq<Section>, b: seq<Section>)
    ensures Texts(a + b) == Texts(a) + Texts(b)
  {
    if a == [] {
      assert a + b == b;
    } else {
      assert (a + b)[1..] == a[1..] + b;
      TextsConcat(a[1..], b);
    }
  }

  // --- what the total budget means: the first TOTAL_LIMIT characters of everything ---

  // Every present layer's block, one after another, with no total budget.
  function Whole(items: seq<Item>): string {
    if items == [] then "" else items[0].block + Whole(items[1..])
  }

  function Flat(blocks: seq<string>): string {
    if blocks == [] then "" else blocks[0] + Flat(blocks[1..])
  }

  function Upto(text: string, limit: int): string {
    if limit <= 0 then "" else if |text| <= limit then text else text[..limit]
  }

  lemma {:induction false} FlatSnoc(blocks: seq<string>, b: string)
    ensures Flat(blocks + [b]) == Flat(blocks) + b
  {
    if blocks == [] {
      assert [b][1..] == [];
    } else {
      assert (blocks + [b])[1..] == blocks[1..] + [b];
      FlatSnoc(blocks[1..], b);
    }
  }

  // The counters agree with the blocks, and the run is over exactly when the budget is used up.
  predicate Counted(p: Pack) {
    && p.total == |Flat(p.blocks)| <= TOTAL_LIMIT
    && p.total == p.stableChars + p.volatileChars
    && (p.spent <==> p.total == TOTAL_LIMIT)
    && |p.loaded| == |p.blocks|
  }

  lemma AddCounted(p: Pack, item: Item)
    requires Counted(p)
    ensures var q := Add(p, item);
            Counted(q) && Flat(q.blocks) == Flat(p.blocks) + Upto(item.block, TOTAL_LIMIT - p.total)
  {
    if !p.spent {
      FlatSnoc(p.blocks, Upto(item.block, TOTAL_LIMIT - p.total));
    }
  }

  lemma UptoAppend(a: string, b: string, room: nat)
    ensures Upto(a + b, room) == Upto(a, room) + Upto(b, room - |Upto(a, room)|)
  {
  }

  lemma {:induction false} AssembleCuts(p: Pack, items: seq<Item>)
    requires Counted(p)
    ensures var q := Assemble(p, items);
            Counted(q) && Flat(q.blocks) == Flat(p.blocks) + Upto(Whole(items), TOTAL_LIMIT - p.total)
    decreases |items|
  {
    if items != [] {
      AddCounted(p, items[0]);
      AssembleCuts(Add(p, items[0]), items[1..]);
      UptoAppend(items[0].block, Whole(items[1..]), TOTAL_LIMIT - p.total);
    }
  }

  // The prompt's layers, one after another, are exactly the first TOTAL_LIMIT characters of what they would be
  // without a budget; the cap is reported if and only if there were that many; and the counters add up.
  lemma FirstCharacters(layers: seq<Layer>, restricted: bool)
    ensures var p := ContextOf(layers, restricted);
            var whole := Whole(Shown(layers, restricted));
            && Flat(p.blocks) == Upto(whole, TOTAL_LIMIT)
            && p.total == |Flat(p.blocks)| == p.stableChars + p.volatileChars <= TOTAL_LIMIT
            && (p.spent <==> p.total == TOTAL_LIMIT)
            && (p.spent <==> |whole| >= TOTAL_LIMIT)
  {
    AssembleCuts(NOTHING, Shown(layers, restricted));
  }

  // --- what each layer is told it got ---

  // Where the k-th layer's block starts in the whole.
  function Offset(items: seq<Item>, k: nat): nat
    requires k <= |items|
  {
    if k == 0 then 0 else |items[0].block| + Offset(items[1..], k - 1)
  }

  // The statistics a layer deserves, by where its block starts in the whole.
  predicate Accounts(stat: LayerStat, item: Item, start: nat) {
    && stat.name == item.name && stat.volatile == item.volatile && stat.private == item.private
    && stat.available == item.available
    && stat.included == |Upto(item.block, TOTAL_LIMIT - start)|
    && (stat.dropped <==> start >= TOTAL_LIMIT)
    && (stat.clipped <==> !stat.dropped && (item.overCap || start + |item.block| > TOTAL_LIMIT))
  }

  predicate AllAccount(stats: seq<LayerStat>, items: seq<Item>, start: nat) {
    && |stats| == |items|
    && forall k :: 0 <= k < |items| ==> Accounts(stats[k], items[k], start + Offset(items, k))
  }

  lemma AddAccounts(p: Pack, item: Item, start: nat)
    requires Counted(p) && p.total == Capped(start)
    ensures var q := Add(p, item);
            && |q.stats| == |p.stats| + 1 && q.stats[..|p.stats|] == p.stats
            && Accounts(q.stats[|p.stats|], item, start)
            && q.total == Capped(start + |item.block|)
  {
  }

  function Capped(n: nat): nat {
    if n < TOTAL_LIMIT then n else TOTAL_LIMIT
  }

  lemma AccountsCons(stat: LayerStat, rest: seq<LayerStat>, items: seq<Item>, start: nat)
    requires items != [] && Accounts(stat, items[0], start)
    requires AllAccount(rest, items[1..], start + |items[0].block|)
    ensures AllAccount([stat] + rest, items, start)
  {
    forall k | 0 <= k < |items| ensures Accounts(([stat] + rest)[k], items[k], start + Offset(items, k)) {
      if k > 0 {
        assert Accounts(rest[k - 1], items[1..][k - 1], start + |items[0].block| + Offset(items[1..], k - 1));
      }
    }
  }

  lemma {:induction false} AssembleAccounts(p: Pack, items: seq<Item>, start: nat)
    requires Counted(p) && p.total == Capped(start)
    ensures var q := Assemble(p, items);
            && |q.stats| >= |p.stats| && q.stats[..|p.stats|] == p.stats
            && AllAccount(q.stats[|p.stats|..], items, start)
    decreases |items|
  {
    if items != [] {
      var next := Add(p, items[0]);
      AddCounted(p, items[0]);
      AddAccounts(p, items[0], start);
      AssembleAccounts(next, items[1..], start + |items[0].block|);
      var q := Assemble(next, items[1..]);
      AccountsCons(next.stats[|p.stats|], q.stats[|next.stats|..], items, start);
      SplitStats(p.stats, next.stats, q.stats);
    }
  }

  lemma SplitStats(a: seq<LayerStat>, b: seq<LayerStat>, c: seq<LayerStat>)
    requires |b| == |a| + 1 && b[..|a|] == a && |c| >= |b| && c[..|b|] == b
    ensures c[..|a|] == a && c[|a|..] == [b[|a|]] + c[|b|..]
  {
    assert c[..|a|] == b[..|a|];
    assert b[|a|] == c[..|b|][|a|];
  }

  lemma {:induction false} OffsetsRise(items: seq<Item>, j: nat, k: nat)
    requires j <= k <= |items|
    ensures Offset(items, j) <= Offset(items, k)
  {
    if j > 0 {
      OffsetsRise(items[1..], j - 1, k - 1);
    }
  }

  // Each present layer is accounted for by where its block starts in the whole: it is dropped if and only if it
  // starts past the budget, and its share is what of it the budget reaches. After the first dropped layer, every
  // later one is dropped.
  lemma AccountingIsExact(layers: seq<Layer>, restricted: bool)
    ensures var stats := ContextOf(layers, restricted).stats;
            && AllAccount(stats, Shown(layers, restricted), 0)
            && forall j, k :: 0 <= j < k < |stats| && stats[j].dropped ==> stats[k].dropped
  {
    var items := Shown(layers, restricted);
    AssembleAccounts(NOTHING, items, 0);
    var stats := Assemble(NOTHING, items).stats;
    assert stats[0..] == stats;
    forall j, k | 0 <= j < k < |stats| && stats[j].dropped ensures stats[k].dropped {
      OffsetsRise(items, j, k);
      assert Accounts(stats[j], items[j], 0 + Offset(items, j)) && Accounts(stats[k], items[k], 0 + Offset(items, k));
    }
  }

  // --- the rendered text ---

  lemma {:induction false} JoinLength(parts: seq<string>, sep: string)
    ensures |Join(parts, sep)| == |Flat(parts)| + (if parts == [] then 0 else |sep| * (|parts| - 1))
  {
    if |parts| > 1 {
      JoinLength(parts[1..], sep);
    } else if |parts| == 1 {
      assert parts[1..] == [];
    }
  }

  predicate Marked(p: Pack) {
    && |Flat(Texts(p.sections))| == p.total + (if p.boundary then |VOLATILE_BOUNDARY| else 0)
    && |p.sections| == |p.blocks| + (if p.boundary then 1 else 0)
  }

  lemma FlatTextsSnoc(sections: seq<Section>, last: Section)
    ensures Flat(Texts(sections + [last])) == Flat(Texts(sections)) + TextOf(last)
  {
    TextsConcat(sections, [last]);
    assert Texts([last]) == [TextOf(last)];
    FlatSnoc(Texts(sections), TextOf(last));
  }

  lemma AddMarked(p: Pack, item: Item)
    requires Marked(p)
    ensures Marked(Add(p, item))
  {
    if !p.spent {
      var block := Block(Add(p, item).blocks[|p.blocks|]);
      if item.volatile && !p.boundary {
        FlatTextsSnoc(p.sections, Boundary);
        FlatTextsSnoc(p.sections + [Boundary], block);
      } else {
        FlatTextsSnoc(p.sections, block);
        assert p.sections + [] == p.sections;
      }
    }
  }

  lemma {:induction false} AssembleMarked(p: Pack, items: seq<Item>)
    requires Marked(p)
    ensures Marked(Assemble(p, items))
    decreases |items|
  {
    if items != [] {
      AddMarked(p, items[0]);
      AssembleMarked(Add(p, items[0]), items[1..]);
    }
  }

  // The rendered prompt is longer than what was counted by exactly the boundary marker and the separators.
  lemma RenderedLength(layers: seq<Layer>, restricted: bool)
    ensures var p := ContextOf(layers, restricted);
            |Rendered(p)| == p.total + (if p.boundary then |VOLATILE_BOUNDARY| else 0)
                             + (if p.sections == [] then 0 else 2 * (|p.sections| - 1))
  {
    AssembleMarked(NOTHING, Shown(layers, restricted));
    JoinLength(Texts(ContextOf(layers, restricted).sections), "\n\n");
  }

  // --- two assemblies ---

  lemma {:induction false} SomesConcat(a: seq<Option<Item>>, b: seq<Option<Item>>)
    ensures Somes(a + b) == Somes(a) + Somes(b)
  {
    if a == [] {
      assert a + b == b;
    } else {
      assert (a + b)[1..] == a[1..] + b;
      SomesConcat(a[1..], b);
    }
  }

  lemma ShownConcat(a: seq<Layer>, b: seq<Layer>, restricted: bool)
    ensures Shown(a + b, restricted) == Shown(a, restricted) + Shown(b, restricted)
  {
    var one := seq(|a|, i requires 0 <= i < |a| => Render(a[i], restricted));
    var two := seq(|b|, i requires 0 <= i < |b| => Render(b[i], restricted));
    var ab := a + b;
    assert seq(|ab|, i requires 0 <= i < |ab| => Render(ab[i], restricted)) == one + two;
    SomesConcat(one, two);
  }

  lemma {:induction false} AssembleConcat(p: Pack, a: seq<Item>, b: seq<Item>)
    ensures Assemble(p, a + b) == Assemble(Assemble(p, a), b)
    decreases |a|
  {
    if a == [] {
      assert a + b == b;
    } else {
      assert (a + b)[1..] == a[1..] + b;
      AssembleConcat(Add(p, a[0]), a[1..], b);
    }
  }

  lemma {:induction false} SectionsGrow(p: Pack, items: seq<Item>)
    ensures p.sections <= Assemble(p, items).sections
    decreases |items|
  {
    if items != [] {
      SectionsGrow(Add(p, items[0]), items[1..]);
    }
  }

  lemma {:induction false} JoinPrefix(a: seq<string>, b: seq<string>, sep: string)
    ensures Join(a, sep) <= Join(a + b, sep)
  {
    if |a| > 1 {
      assert (a + b)[1..] == a[1..] + b;
      JoinPrefix(a[1..], b, sep);
    } else if |a| == 1 && b == [] {
      assert a + b == a;
    } else if |a| == 1 {
      assert (a + b)[0] == a[0];
    }
  }

  // Whatever the volatile layers hold, the prompt starts with the text of the stable layers alone: two assemblies
  // with the same stable layers share it, so a cached prefix stays valid.
  lemma StablePrefix(stable: seq<Layer>, one: seq<Layer>, other: seq<Layer>, restricted: bool)
    ensures var prefix := Rendered(ContextOf(stable, restricted));
            && prefix <= Rendered(ContextOf(stable + one, restricted))
            && prefix <= Rendered(ContextOf(stable + other, restricted))
  {
    StableFirst(stable, one, restricted);
    StableFirst(stable, other, restricted);
  }

  lemma StableFirst(stable: seq<Layer>, rest: seq<Layer>, restricted: bool)
    ensures Rendered(ContextOf(stable, restricted)) <= Rendered(ContextOf(stable + rest, restricted))
  {
    var p := ContextOf(stable, restricted);
    var q := Assemble(p, Shown(rest, restricted));
    ShownConcat(stable, rest, restricted);
    AssembleConcat(NOTHING, Shown(stable, restricted), Shown(rest, restricted));
    SectionsGrow(p, Shown(rest, restricted));
    var added := q.sections[|p.sections|..];
    assert q.sections == p.sections + added;
    TextsConcat(p.sections, added);
    JoinPrefix(Texts(p.sections), Texts(added), "\n\n");
  }

  predicate NoBoundary(sections: seq<Section>) {
    forall i :: 0 <= i < |sections| ==> sections[i].Block?
  }

  lemma {:induction false} StableSections(p: Pack, items: seq<Item>)
    requires NoBoundary(p.sections) && !p.boundary
    requires forall i :: 0 <= i < |items| ==> !items[i].volatile
    ensures NoBoundary(Assemble(p, items).sections) && !Assemble(p, items).boundary
    decreases |items|
  {
    if items != [] {
      StableSections(Add(p, items[0]), items[1..]);
    }
  }

  // What volatile layers add: the marker, unless it stands already, and then layers only.
  lemma {:induction false} VolatileSections(p: Pack, items: seq<Item>) returns (added: seq<Section>)
    requires forall i :: 0 <= i < |items| ==> items[i].volatile
    ensures NoBoundary(added)
    ensures var q := Assemble(p, items);
            if q.boundary == p.boundary then q.sections == p.sections + added
            else q.sections == p.sections + [Boundary] + added
    ensures p.boundary ==> Assemble(p, items).boundary
    ensures !Assemble(p, items).boundary ==> added == []
    decreases |items|
  {
    added := [];
    if items != [] {
      var next := Add(p, items[0]);
      var rest := VolatileSections(next, items[1..]);
      added := if p.spent then rest else [next.sections[|next.sections| - 1]] + rest;
    }
  }

  // In the program's order, stable layers before volatile ones: the marker stands exactly between them, once, and only
  // if a volatile layer follows it.
  lemma BoundaryDivides(stable: seq<Layer>, volatiles: seq<Layer>, restricted: bool) returns (added: seq<Section>)
    requires forall i :: 0 <= i < |stable| ==> !stable[i].volatile
    requires forall i :: 0 <= i < |volatiles| ==> volatiles[i].volatile
    ensures var p := ContextOf(stable + volatiles, restricted);
            var q := ContextOf(stable, restricted);
            && NoBoundary(q.sections) && NoBoundary(added)
            && p.sections == q.sections + (if p.boundary then [Boundary] + added else [])
  {
    var q := ContextOf(stable, restricted);
    ShownAgree(stable, restricted, false);
    ShownAgree(volatiles, restricted, true);
    StableSections(NOTHING, Shown(stable, restricted));
    ShownConcat(stable, volatiles, restricted);
    AssembleConcat(NOTHING, Shown(stable, restricted), Shown(volatiles, restricted));
    added := VolatileSections(q, Shown(volatiles, restricted));
  }

  lemma {:induction false} SomesMembers(items: seq<Option<Item>>)
    ensures forall i :: 0 <= i < |Somes(items)| ==> Some(Somes(items)[i]) in items
  {
    if items != [] {
      SomesMembers(items[1..]);
    }
  }

  lemma ShownAgree(layers: seq<Layer>, restricted: bool, volatile: bool)
    requires forall i :: 0 <= i < |layers| ==> layers[i].volatile == volatile
    ensures forall i :: 0 <= i < |Shown(layers, restricted)| ==> Shown(layers, restricted)[i].volatile == volatile
  {
    SomesMembers(seq(|layers|, i requires 0 <= i < |layers| => Render(layers[i], restricted)));
  }

  // The same layers up to what the private ones say.
  predicate AgreeInPublic(a: Layer, b: Layer) {
    a == b || (a.private && b.private)
  }

  // A restricted assembly does not depend on what any private layer says.
  lemma RestrictedTellsNothing(one: seq<Layer>, other: seq<Layer>)
    requires |one| == |other| && forall i :: 0 <= i < |one| ==> AgreeInPublic(one[i], other[i])
    ensures ContextOf(one, true) == ContextOf(other, true)
  {
    var n := |one|;
    assert seq(n, i requires 0 <= i < n => Render(one[i], true)) == seq(n, i requires 0 <= i < n => Render(other[i], true))
    by {
      forall i | 0 <= i < n ensures Render(one[i], true) == Render(other[i], true) {
        assert AgreeInPublic(one[i], other[i]);
      }
    }
  }

  // --- curated memory ---

  function Percent(length: nat): nat {
    var percent := length * 100 / MEMORY_LIMIT;
    if percent > 100 then 100 else percent
  }

  function Nudge(length: nat): string {
    "\n\n_(MEMORY.md is at " + Decimal(Percent(length)) + "% of its context budget \U{2014} "
    + "consolidate/prune entries before adding new ones.)_"
  }

  // The curated memory as its layer ships it; near the cap, room is left for the nudge.
  function Curated(memory: string, nudge: string): string {
    if |memory| * 10 <= MEMORY_LIMIT * 8 then Clip(memory, MEMORY_LIMIT) else WithNudge(memory, nudge)
  }

  function WithNudge(memory: string, nudge: string): string {
    var room := MEMORY_LIMIT - |nudge| - 20;
    Clip(memory, if room > 200 then room else 200) + nudge
  }

  lemma {:induction false} DecimalLength(n: nat)
    requires n <= 100
    ensures |Decimal(n)| <= 3
  {
    if n >= 10 {
      assert n / 10 <= 10;
      if n >= 100 {
        assert n / 10 == 10 && |Decimal(1)| == 1;
        assert Decimal(10) == Decimal(1) + [Digit(0)];
      }
    }
  }

  lemma NudgeShape(length: nat)
    ensures 0 < |Nudge(length)| <= 120
    ensures Nudge(length)[|Nudge(length)| - 1] == '_'
  {
    DecimalLength(Percent(length));
  }

  lemma RoomForTheNudge(memory: string, nudge: string)
    requires !Blank(memory) && 0 < |nudge| <= 120 && nudge[|nudge| - 1] == '_'
    ensures var text := WithNudge(memory, nudge);
            Clip(text, MEMORY_LIMIT) == text && |nudge| <= |text| <= MEMORY_LIMIT && text[|text| - |nudge|..] == nudge
  {
    var head := Clip(memory, MEMORY_LIMIT - |nudge| - 20);
    assert head != "" && !IsSpace(head[0]);
    var text := head + nudge;
    assert text[0] == head[0] && text[|text| - 1] == nudge[|nudge| - 1];
    assert Strip(text) == text;
  }

  // The consolidation nudge fits in the layer's own cap: the layer's clip leaves the whole of it, at the end. Every
  // nudge has the shape this asks for.
  lemma NudgeSurvivesTheLayerCap(memory: string, nudge: string)
    requires !Blank(memory) && |memory| * 10 > MEMORY_LIMIT * 8
    requires 0 < |nudge| <= 120 && nudge[|nudge| - 1] == '_'
    ensures var text := Curated(memory, nudge);
            && Clip(text, LayerLimit(Memory)) == text
            && |nudge| <= |text| <= MEMORY_LIMIT && text[|text| - |nudge|..] == nudge
  {
    RoomForTheNudge(memory, nudge);
  }

  // Up to 80 % of its cap the curated memory ships without a nudge.
  lemma NoNudgeBelow(memory: string, nudge: string)
    requires |memory| * 5 <= 1200 * 4
    ensures Curated(memory, nudge) == Clip(memory, 1200) == Strip(memory)
  {
    StripShrinks(memory);
  }

  lemma StripShrinks(text: string)
    ensures |Strip(text)| <= |text|
  {
  }

  // --- what a layer's block says ---

  // A text is kept whole up to its limit; beyond it, it is cut at the limit, trailing space dropped, and marked.
  lemma ClipExactly(text: string, limit: nat) returns (n: nat)
    ensures var stripped := Strip(text);
            if |stripped| <= limit then Clip(text, limit) == stripped
            else n <= limit && Clip(text, limit) == stripped[..n] + TRUNCATED
                 && (n > 0 ==> !IsSpace(stripped[n - 1])) && forall i :: n <= i < limit ==> IsSpace(stripped[i])
  {
    n := 0;
    if |Strip(text)| > limit {
      n := CutExactly(Strip(text), limit);
    }
  }

  lemma CutExactly(stripped: string, limit: nat) returns (n: nat)
    requires |stripped| > limit
    ensures n <= limit && TrimRight(stripped[..limit]) == stripped[..n]
    ensures (n > 0 ==> !IsSpace(stripped[n - 1])) && forall i :: n <= i < limit ==> IsSpace(stripped[i])
  {
    var cut := stripped[..limit];
    n := |TrimRight(cut)|;
    TrimmedIsSpace(cut);
    forall i | n <= i < limit ensures IsSpace(stripped[i]) {
      assert cut[i] == stripped[i];
    }
  }

  lemma {:induction false} TrimmedIsSpace(s: string)
    ensures forall i :: |TrimRight(s)| <= i < |s| ==> IsSpace(s[i])
  {
    if s != "" && IsSpace(s[|s| - 1]) {
      TrimmedIsSpace(s[..|s| - 1]);
      forall i | |TrimRight(s)| <= i < |s| - 1 ensures IsSpace(s[i]) {
        assert s[i] == s[..|s| - 1][i];
      }
    }
  }

  // A layer is shown, under its heading, if and only if it says something and is not private in a restricted session.
  lemma LayerShownExactly(layer: Layer, restricted: bool)
    ensures var shown := Shown([layer], restricted);
            if (layer.private && restricted) || layer.body.None? || Strip(layer.body.value) == "" then shown == []
            else
              |shown| == 1 && shown[0].name == layer.name && shown[0].volatile == layer.volatile
              && shown[0].private == layer.private
              && shown[0].block == "## " + layer.title + "\n" + Clip(layer.body.value, LayerLimit(layer.name))
              && shown[0].available == 4 + |layer.title| + |Strip(layer.body.value)|
              && (shown[0].overCap <==> |Strip(layer.body.value)| > LayerLimit(layer.name))
  {
    ShownOne(layer, restricted);
  }

  // --- the loop ---

  lemma ShownOne(layer: Layer, restricted: bool)
    ensures Shown([layer], restricted) == if Present(layer, restricted) then [ItemOf(layer)] else []
  {
    var one := [layer];
    var item := Render(layer, restricted);
    assert seq(|one|, i requires 0 <= i < |one| => Render(one[i], restricted)) == [item];
    assert Somes([item]) == if item.Some? then [item.value] + Somes([item][1..]) else Somes([item][1..]);
    assert [item][1..] == [];
  }

  // One more layer: either it is not shown, or it is added last.
  lemma OneMoreLayer(layers: seq<Layer>, i: nat, restricted: bool)
    requires i < |layers|
    ensures ContextOf(layers[..i + 1], restricted)
            == if Present(layers[i], restricted) then Add(ContextOf(layers[..i], restricted), ItemOf(layers[i]))
               else ContextOf(layers[..i], restricted)
  {
    var last := Shown([layers[i]], restricted);
    assert layers[..i + 1] == layers[..i] + [layers[i]];
    ShownConcat(layers[..i], [layers[i]], restricted);
    AssembleConcat(NOTHING, Shown(layers[..i], restricted), last);
    ShownOne(layers[i], restricted);
    assert last != [] ==> last[1..] == [];
  }

  method AssembleAgentContext(layers: seq<Layer>, restricted: bool) returns (text: string, p: Pack)
    ensures p == ContextOf(layers, restricted) && text == Rendered(p)
  {
    p := NOTHING;
    for i := 0 to |layers|
      invariant p == ContextOf(layers[..i], restricted)
    {
      OneMoreLayer(layers, i, restricted);
      if Present(layers[i], restricted) {
        p := AddItem(p, ItemOf(layers[i]));
      }
    }
    assert layers[..|layers|] == layers;
    text := Rendered(p);
  }

  // One present layer, variable by variable.
  method AddItem(p: Pack, item: Item) returns (q: Pack)
    ensures q == Add(p, item)
  {
    var sections, loaded, stats, total := p.sections, p.loaded, p.stats, p.total;
    var stableChars, volatileChars, boundaryEmitted, budgetSpent := p.stableChars, p.volatileChars, p.boundary, p.spent;
    if budgetSpent {
      stats := stats + [LayerStat(item.name, item.available, 0, false, true, item.volatile, item.private)];
      return p.(stats := stats);
    }
    if item.volatile && !boundaryEmitted {
      sections := sections + [Boundary];
      boundaryEmitted := true;
    }
    var block := item.block;
    var budgetTrimmed := total + |block| > TOTAL_LIMIT;
    if budgetTrimmed {
      block := block[..if TOTAL_LIMIT > total then TOTAL_LIMIT - total else 0];
    }
    sections := sections + [Block(block)];
    loaded := loaded + [item.name];
    total := total + |block|;
    stats := stats + [LayerStat(item.name, item.available, |block|, item.overCap || budgetTrimmed, false,
                                item.volatile, item.private)];
    if item.volatile {
      volatileChars := volatileChars + |block|;
    } else {
      stableChars := stableChars + |block|;
    }
    if total >= TOTAL_LIMIT {
      budgetSpent := true;
    }
    q := Pack(sections, p.blocks + [block], loaded, stats, total, stableChars, volatileChars, boundaryEmitted,
              budgetSpent);
  }
}
