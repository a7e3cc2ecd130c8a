// Dotted-path reads and writes over a nested configuration.
module ConfigEdit {
  import opened Text

  // Anything that is neither a map nor null cannot be descended through.
  datatype Value = Null | Scalar(text: string) | Map(entries: map<string, Value>)

  type Path = seq<string>

  // `dotted.split(".")`.
  function Split(dotted: string): (parts: Path)
    ensures parts != []
  {
    if dotted == "" then [""]
    else if dotted[0] == '.' then [""] + Split(dotted[1..])
    else
      var rest := Split(dotted[1..]);
      [[dotted[0]] + rest[0]] + rest[1..]
  }

  // Different keys are different paths.
  lemma {:induction false} SplitLosesNothing(dotted: string)
    ensures Join(Split(dotted), ".") == dotted
  {
    if dotted != "" {
      var rest := Split(dotted[1..]);
      SplitLosesNothing(dotted[1..]);
      if dotted[0] == '.' {
        assert ([""] + rest)[1..] == rest;
        assert "" + "." + Join(rest, ".") == dotted;
      } else {
        var parts := [[dotted[0]] + rest[0]] + rest[1..];
        assert parts[1..] == rest[1..];
        assert Join(parts, ".") == [dotted[0]] + Join(rest, ".");
      }
    }
  }

  function Lookup(m: map<string, Value>, key: string): Value {
    if key in m then m[key] else Null
  }

  // What a read returns: absent and null look the same.
  function Get(v: Value, path: Path): Value {
    if path == [] then v
    else if v.Map? && path[0] in v.entries then Get(v.entries[path[0]], path[1..])
    else Null
  }

  // The configuration with the value set, its intermediate maps created; nothing when a scalar is in the way.
  function Set(m: map<string, Value>, path: Path, value: Value): Option<map<string, Value>>
    requires path != []
    decreases |path|
  {
    var existing := Lookup(m, path[0]);
    if |path| == 1 then Some(m[path[0] := value])
    else if existing.Scalar? then None
    else
      var inner := Set(if existing.Map? then existing.entries else map[], path[1..], value);
      if inner.None? then None else Some(m[path[0] := Map(inner.value)])
  }

  function Unset(m: map<string, Value>, path: Path): map<string, Value>
    requires path != []
    decreases |path|
  {
    if |path| == 1 then m - {path[0]}
    else if Lookup(m, path[0]).Map? then m[path[0] := Map(Unset(m[path[0]].entries, path[1..]))]
    else m
  }

  predicate Apart(p: Path, q: Path) {
    !(p <= q) && !(q <= p)
  }

  // --- set ---

  // A set fails exactly when some proper prefix of the path holds something that is neither a map nor null.
  lemma {:induction false} SetFailsExactly(m: map<string, Value>, path: Path, value: Value)
    requires path != []
    ensures Set(m, path, value).None? <==> exists i :: 0 < i < |path| && Get(Map(m), path[..i]).Scalar?
    decreases |path|
  {
    if |path| > 1 {
      var existing := Lookup(m, path[0]);
      var inner := if existing.Map? then existing.entries else map[];
      SetFailsExactly(inner, path[1..], value);
      GetFirst(m, path[0]);
      assert path[..1] == [path[0]];
      forall i | 1 < i < |path|
        ensures Get(Map(m), path[..i]).Scalar? <==> existing.Map? && Get(Map(inner), path[1..][..i - 1]).Scalar?
      {
        assert path[..i][1..] == path[1..][..i - 1];
      }
      if !existing.Map? {
        forall i | 0 < i < |path| - 1 ensures !Get(Map(inner), path[1..][..i]).Scalar? {
        }
      }
      if Set(inner, path[1..], value).None? && !existing.Scalar? {
        var i :| 0 < i < |path[1..]| && Get(Map(inner), path[1..][..i]).Scalar?;
        assert Get(Map(m), path[..i + 1]).Scalar?;
      }
    }
  }

  lemma GetFirst(m: map<string, Value>, key: string)
    ensures Get(Map(m), [key]) == Lookup(m, key)
  {
    assert [key][1..] == [];
  }

  lemma {:induction false} GetBelow(v: Value, path: Path, below: Path)
    ensures Get(v, path + below) == Get(Get(v, path), below)
  {
    if path == [] {
      assert path + below == below;
    } else {
      assert (path + below)[1..] == path[1..] + below;
      if v.Map? && path[0] in v.entries {
        GetBelow(v.entries[path[0]], path[1..], below);
      }
    }
  }

  // What was set is what is read back, at the path and everywhere below it.
  lemma {:induction false} GetAfterSet(m: map<string, Value>, path: Path, value: Value, below: Path)
    requires path != [] && Set(m, path, value).Some?
    ensures Get(Map(Set(m, path, value).value), path + below) == Get(value, below)
    decreases |path|
  {
    GetBelow(Map(Set(m, path, value).value), path, below);
    if |path| > 1 {
      var existing := Lookup(m, path[0]);
      var inner := if existing.Map? then existing.entries else map[];
      GetAfterSet(inner, path[1..], value, []);
      assert path[1..] + [] == path[1..];
    } else {
      assert path[1..] == [];
    }
  }

  lemma ApartTails(p: Path, q: Path)
    requires p != [] && q != [] && p[0] == q[0] && Apart(p, q)
    ensures Apart(p[1..], q[1..])
  {
    assert p == [p[0]] + p[1..] && q == [q[0]] + q[1..];
  }

  // Nothing else changes: every path that is neither above nor below the key reads as before.
  lemma {:induction false} SetTouchesNothingElse(m: map<string, Value>, path: Path, value: Value, other: Path)
    requires path != [] && Set(m, path, value).Some? && Apart(path, other)
    ensures Get(Map(Set(m, path, value).value), other) == Get(Map(m), other)
    decreases |path|
  {
    if other[0] == path[0] {
      ApartTails(path, other);
      var existing := Lookup(m, path[0]);
      var inner := if existing.Map? then existing.entries else map[];
      SetTouchesNothingElse(inner, path[1..], value, other[1..]);
      if !existing.Map? {
        GetInNothing(other[1..]);
      }
    }
  }

  lemma GetInNothing(path: Path)
    requires path != []
    ensures Get(Map(map[]), path) == Null && Get(Null, path) == Null
  {
  }

  // --- unset ---

  lemma {:induction false} GetAfterUnset(m: map<string, Value>, path: Path, below: Path)
    requires path != []
    ensures Get(Map(Unset(m, path)), path + below) == Null
    decreases |path|
  {
    GetBelow(Map(Unset(m, path)), path, below);
    if |path| > 1 && Lookup(m, path[0]).Map? {
      GetAfterUnset(m[path[0]].entries, path[1..], []);
      assert path[1..] + [] == path[1..];
    }
    assert Get(Map(Unset(m, path)), path) == Null;
    assert below == [] ==> Get(Null, below) == Null;
  }

  lemma {:induction false} UnsetTouchesNothingElse(m: map<string, Value>, path: Path, other: Path)
    requires path != [] && Apart(path, other)
    ensures Get(Map(Unset(m, path)), other) == Get(Map(m), other)
    decreases |path|
  {
    if other[0] == path[0] && Lookup(m, path[0]).Map? {
      ApartTails(path, other);
      UnsetTouchesNothingElse(m[path[0]].entries, path[1..], other[1..]);
    }
  }

  // Every map above the key stays a map.
  lemma {:induction false} UnsetLeavesMapsInPlace(m: map<string, Value>, path: Path, i: nat)
    requires path != [] && i < |path| && Get(Map(m), path[..i]).Map?
    ensures Get(Map(Unset(m, path)), path[..i]).Map?
    decreases |path|
  {
    if i > 0 {
      assert path[..i][1..] == path[1..][..i - 1];
      UnsetLeavesMapsInPlace(m[path[0]].entries, path[1..], i - 1);
    }
  }

  // Unsetting what a set added gives the configuration back, when the map above it was there and held no such key.
  lemma {:induction false} UnsetUndoesSet(m: map<string, Value>, path: Path, value: Value)
    requires path != []
    requires var above := Get(Map(m), path[..|path| - 1]); above.Map? && path[|path| - 1] !in above.entries
    ensures Set(m, path, value).Some? && Unset(Set(m, path, value).value, path) == m
    decreases |path|
  {
    if |path| > 1 {
      assert path[..|path| - 1][1..] == path[1..][..|path| - 2];
      UnsetUndoesSet(m[path[0]].entries, path[1..], value);
    }
  }

  // --- walking and writing in place ---

  // A walk that reaches a map starts through one.
  lemma ThroughFirst(m: map<string, Value>, path: Path, i: nat)
    requires 0 < i <= |path| && Get(Map(m), path[..i]).Map?
    ensures path[0] in m && m[path[0]].Map?
    ensures Get(m[path[0]], path[1..][..i - 1]) == Get(Map(m), path[..i])
  {
    assert path[..i][0] == path[0] && path[..i][1..] == path[1..][..i - 1];
  }

  // `node[key] = v` on the map that the walk reached.
  function WriteAt(m: map<string, Value>, path: Path, v: Value): map<string, Value>
    requires path != [] && Get(Map(m), path[..|path| - 1]).Map?
    decreases |path|
  {
    if |path| == 1 then m[path[0] := v]
    else
      ThroughFirst(m, path, |path| - 1);
      m[path[0] := Map(WriteAt(m[path[0]].entries, path[1..], v))]
  }

  lemma {:induction false} WriteIsSet(m: map<string, Value>, path: Path, v: Value)
    requires path != [] && Get(Map(m), path[..|path| - 1]).Map?
    ensures Set(m, path, v) == Some(WriteAt(m, path, v))
    decreases |path|
  {
    if |path| > 1 {
      assert path[..|path| - 1][1..] == path[1..][..|path| - 2];
      WriteIsSet(m[path[0]].entries, path[1..], v);
    }
  }

  // Creating the next map on the way changes nothing for the set as a whole.
  lemma {:induction false} CreatingOnTheWay(m: map<string, Value>, path: Path, i: nat, value: Value)
    requires i < |path| - 1 && Get(Map(m), path[..i]).Map? && Get(Map(m), path[..i + 1]) == Null
    ensures path[..i + 1][..i] == path[..i]
    ensures Set(WriteAt(m, path[..i + 1], Map(map[])), path, value) == Set(m, path, value)
    decreases |path|
  {
    assert path[..i + 1][..i] == path[..i];
    GetFirst(m, path[0]);
    if i == 0 {
      assert path[..1] == [path[0]] && path[..1][0] == path[0];
      var created := WriteAt(m, path[..1], Map(map[]));
      assert created == m[path[0] := Map(map[])];
      var inner := Set(map[], path[1..], value);
      if inner.Some? {
        assert created[path[0] := Map(inner.value)] == m[path[0] := Map(inner.value)];
      }
    } else {
      ThroughFirst(m, path, i);
      assert path[..i + 1][0] == path[0] && path[..i + 1][1..] == path[1..][..i];
      CreatingOnTheWay(m[path[0]].entries, path[1..], i - 1, value);
      var created := WriteAt(m, path[..i + 1], Map(map[]));
      assert created == m[path[0] := Map(WriteAt(m[path[0]].entries, path[1..][..i], Map(map[])))];
      var inner := Set(m[path[0]].entries, path[1..], value);
      assert Set(created[path[0]].entries, path[1..], value) == inner;
      if inner.Some? {
        assert created[path[0] := Map(inner.value)] == m[path[0] := Map(inner.value)];
      }
    }
  }

  lemma GetNext(v: Value, path: Path, i: nat)
    requires i < |path|
    ensures Get(v, path[..i + 1]) == Get(Get(v, path[..i]), [path[i]])
  {
    GetBelow(v, path[..i], [path[i]]);
    assert path[..i + 1] == path[..i] + [path[i]];
  }

  lemma NothingBelowNull(v: Value, path: Path, i: nat)
    requires i <= |path| && Get(v, path[..i]) == Null
    ensures Get(v, path) == Null
  {
    GetBelow(v, path[..i], path[i..]);
    assert path == path[..i] + path[i..];
  }

  lemma StuckOnScalar(m: map<string, Value>, path: Path, i: nat, value: Value)
    requires 0 < i < |path| && Get(Map(m), path[..i]).Scalar?
    ensures Set(m, path, value).None?
  {
    SetFailsExactly(m, path, value);
  }

  datatype Outcome = Old(value: Value) | InvalidKey | NotAMap

  class Config {
    var root: map<string, Value>

    constructor ()
      ensures root == map[]
    {
      root := map[];
    }

    method GetPath(dotted: string) returns (value: Value)
      ensures value == Get(Map(root), Split(dotted))
    {
      var parts := Split(dotted);
      var node := Map(root);
      for i := 0 to |parts|
        invariant node == Get(Map(root), parts[..i])
      {
        GetNext(Map(root), parts, i);
        GetFirstOf(node, parts[i]);
        if !node.Map? || parts[i] !in node.entries {
          NothingBelowNull(Map(root), parts, i + 1);
          return Null;
        }
        node := node.entries[parts[i]];
      }
      assert parts[..|parts|] == parts;
      return node;
    }

    // A set that raises leaves the configuration as it was, although the walk creates maps on its way down.
    method SetPath(dotted: string, value: Value) returns (r: Outcome)
      modifies this
      ensures r.InvalidKey? <==> "" in Split(dotted)
      ensures !r.InvalidKey? ==> (r.NotAMap? <==> Set(old(root), Split(dotted), value).None?)
      ensures r.Old? ==> Some(root) == Set(old(root), Split(dotted), value)
      ensures r.Old? ==> r.value == Get(Map(old(root)), Split(dotted))
      ensures !r.Old? ==> root == old(root)
    {
      var parts := Split(dotted);
      if "" in parts {
        return InvalidKey;
      }
      var node := root;
      for i := 0 to |parts| - 1
        invariant Get(Map(root), parts[..i]) == Map(node)
        invariant Set(root, parts, value) == Set(old(root), parts, value)
        invariant root != old(root) ==> node == map[] && Get(Map(old(root)), parts) == Null
      {
        GetNext(Map(root), parts, i);
        GetFirst(node, parts[i]);
        var existing := Lookup(node, parts[i]);
        if existing.Null? {
          CreatingOnTheWay(root, parts, i, value);
          if root == old(root) {
            NothingBelowNull(Map(root), parts, i + 1);
          }
          Created(root, parts[..i + 1]);
          root := WriteAt(root, parts[..i + 1], Map(map[]));
          node := map[];
        } else if existing.Scalar? {
          StuckOnScalar(root, parts, i + 1, value);
          return NotAMap;
        } else {
          node := existing.entries;
        }
      }
      var last := |parts| - 1;
      GetNext(Map(root), parts, last);
      GetFirst(node, parts[last]);
      assert parts[..last + 1] == parts;
      WriteIsSet(root, parts, value);
      r := Old(Lookup(node, parts[last]));
      root := WriteAt(root, parts, value);
    }

    method UnsetPath(dotted: string) returns (removed: Value)
      modifies this
      ensures root == Unset(old(root), Split(dotted))
      ensures removed == Get(Map(old(root)), Split(dotted))
    {
      var parts := Split(dotted);
      var node := Map(root);
      for i := 0 to |parts| - 1
        invariant node == Get(Map(root), parts[..i]) && root == old(root)
      {
        GetNext(Map(root), parts, i);
        GetFirstOf(node, parts[i]);
        if !node.Map? || parts[i] !in node.entries {
          NothingBelowNull(Map(root), parts, i + 1);
          UnsetNothing(root, parts, i);
          return Null;
        }
        node := node.entries[parts[i]];
      }
      var last := |parts| - 1;
      GetNext(Map(root), parts, last);
      GetFirstOf(node, parts[last]);
      assert parts[..last + 1] == parts;
      if !node.Map? {
        UnsetNothing(root, parts, last);
        return Null;
      }
      removed := Lookup(node.entries, parts[last]);
      PopIsUnset(root, parts);
      root := RemoveAt(root, parts);
    }
  }

  lemma GetFirstOf(v: Value, key: string)
    ensures Get(v, [key]) == if v.Map? && key in v.entries then v.entries[key] else Null
  {
    assert [key][1..] == [];
  }

  lemma {:induction false} Created(m: map<string, Value>, path: Path)
    requires path != [] && Get(Map(m), path[..|path| - 1]).Map?
    ensures Get(Map(WriteAt(m, path, Map(map[]))), path) == Map(map[])
  {
    WriteIsSet(m, path, Map(map[]));
    GetAfterSet(m, path, Map(map[]), []);
    assert path + [] == path;
  }

  // `node.pop(key)` on the map that the walk reached.
  function RemoveAt(m: map<string, Value>, path: Path): map<string, Value>
    requires path != [] && Get(Map(m), path[..|path| - 1]).Map?
    decreases |path|
  {
    if |path| == 1 then m - {path[0]}
    else
      ThroughFirst(m, path, |path| - 1);
      m[path[0] := Map(RemoveAt(m[path[0]].entries, path[1..]))]
  }

  lemma {:induction false} PopIsUnset(m: map<string, Value>, path: Path)
    requires path != [] && Get(Map(m), path[..|path| - 1]).Map?
    ensures RemoveAt(m, path) == Unset(m, path)
    decreases |path|
  {
    if |path| > 1 {
      assert path[..|path| - 1][1..] == path[1..][..|path| - 2];
      PopIsUnset(m[path[0]].entries, path[1..]);
    }
  }

  // When the walk meets anything but a map, or a missing key, there is nothing to remove.
  lemma {:induction false} UnsetNothing(m: map<string, Value>, path: Path, i: nat)
    requires i < |path|
    requires var v := Get(Map(m), path[..i]); !v.Map? || path[i] !in v.entries
    ensures Unset(m, path) == m
    decreases |path|
  {
    if i == 0 {
      assert |path| == 1 ==> m - {path[0]} == m;
    } else if Lookup(m, path[0]).Map? {
      assert path[..i][1..] == path[1..][..i - 1];
      UnsetNothing(m[path[0]].entries, path[1..], i - 1);
    }
  }
}
