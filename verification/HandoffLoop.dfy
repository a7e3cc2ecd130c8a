// The guard against two agents handing one ticket back and forth for ever.
module HandoffLoop {
  import opened Text

  const MAX_PAIR_HANDOFFS := 6

  // `str(x)` of a possibly absent actor.
  function Shown(actor: Option<string>): string {
    if actor.Some? then actor.value else "None"
  }

  // "|".join(sorted([one, other])).
  function PairKey(one: string, other: string): string {
    if StrLe(one, other) then one + "|" + other else other + "|" + one
  }

  datatype Verdict = Proceed | Redirect(lead: string) | Block

  predicate Guarded(actor: Option<string>, assignee: string) {
    actor.Some? && actor.value != "" && assignee != "" && actor.value != assignee
  }

  function Evaluate(counts: map<string, nat>, escalated: seq<string>, actor: Option<string>,
                    assignee: string, lead: Option<string>, limit: int): (v: Verdict)
  {
    if !Guarded(actor, assignee) then Proceed
    else
      var key := PairKey(actor.value, assignee);
      var seen := if key in counts then counts[key] else 0;
      if seen + 1 < (if limit > 1 then limit else 1) then Proceed
      else if key !in escalated && lead.Some? && lead.value != "" && lead.value != actor.value && lead.value != assignee then
        Redirect(lead.value)
      else Block
  }

  lemma PairKeySymmetric(a: string, b: string)
    ensures PairKey(a, b) == PairKey(b, a)
  {
    StrLeTotal(a, b);
    if StrLe(a, b) && StrLe(b, a) {
      StrLeAntisymmetric(a, b);
    }
  }

  predicate NoBar(s: string) {
    '|' !in s
  }

  lemma SplitAtBar(x: string, y: string, u: string, v: string)
    requires NoBar(x) && NoBar(u)
    requires x + "|" + y == u + "|" + v
    ensures x == u && y == v
  {
    var s, t := x + "|" + y, u + "|" + v;
    assert s[|x|] == '|' && t[|u|] == '|';
    assert |x| == |u|;
    assert s[..|x|] == x && t[..|u|] == u;
    assert s[|x| + 1..] == y && t[|u| + 1..] == v;
  }

  // Among names without the separator, one key means one unordered pair.
  lemma PairKeyNamesThePair(a: string, b: string, c: string, d: string)
    requires NoBar(a) && NoBar(b) && NoBar(c) && NoBar(d)
    ensures PairKey(a, b) == PairKey(c, d) <==> (a == c && b == d) || (a == d && b == c)
  {
    if PairKey(a, b) == PairKey(c, d) {
      var (x, y) := if StrLe(a, b) then (a, b) else (b, a);
      var (u, v) := if StrLe(c, d) then (c, d) else (d, c);
      SplitAtBar(x, y, u, v);
    }
    PairKeySymmetric(c, d);
  }

  // With the separator in a name two different pairs share one counter.
  lemma BarsMergePairs()
    ensures PairKey("a|b", "c") == PairKey("a", "b|c")
  {
    assert StrLe("a|b", "c") && StrLe("a", "b|c");
    assert "a|b" + "|" + "c" == "a" + "|" + "b|c";
  }
}
