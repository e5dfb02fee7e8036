/**
 A configuration tree flattened to dotted keys, and the keys by which two flattenings differ. A table's
 entries stand in the order one iteration met them.
 */
module Flatten {
  datatype Tree = Leaf(rendering: string) | Table(entries: seq<Entry>)

  datatype Entry = Entry(key: string, tree: Tree)

  function KeyOf(prefix: string, k: string): string {
    if prefix != "" then prefix + "." + k else k
  }

  function FlattenInto(out: map<string, string>, prefix: string, entries: seq<Entry>): map<string, string>
    decreases entries
  {
    if entries == [] then out
    else
      var key := KeyOf(prefix, entries[0].key);
      var rest := match entries[0].tree { case Table(sub) => FlattenInto(out, key, sub) case Leaf(r) => out[key := r] };
      FlattenInto(rest, prefix, entries[1..])
  }

  function FlattenKeys(entries: seq<Entry>): map<string, string> {
    FlattenInto(map[], "", entries)
  }

  class Flattener {
    var out: map<string, string>

    constructor ()
      ensures out == map[]
    {
      out := map[];
    }

    method FlattenTable(prefix: string, entries: seq<Entry>)
      modifies this
      ensures out == FlattenInto(old(out), prefix, entries)
      decreases entries
    {
      for i := 0 to |entries|
        invariant FlattenInto(out, prefix, entries[i..]) == FlattenInto(old(out), prefix, entries)
      {
        assert entries[i..][0] == entries[i] && entries[i..][1..] == entries[i + 1..];
        var key := if prefix != "" then prefix + "." + entries[i].key else entries[i].key;
        if entries[i].tree.Table? {
          FlattenTable(key, entries[i].tree.entries);
          continue;
        }
        out := out[key := entries[i].tree.rendering];
      }
    }
  }

  // ----- what a tree holds at a path -----

  datatype Node = Nothing | Value(rendering: string) | Branch

  function NodeOf(t: Tree): Node {
    match t case Leaf(r) => Value(r) case Table(_) => Branch
  }

  function At(entries: seq<Entry>, path: seq<string>): Node
    requires path != []
    decreases entries
  {
    if entries == [] then Nothing
    else if entries[0].key != path[0] then At(entries[1..], path)
    else if |path| == 1 then NodeOf(entries[0].tree)
    else match entries[0].tree case Leaf(_) => Nothing case Table(sub) => At(sub, path[1..])
  }

  predicate GoodKey(k: string) {
    k != "" && forall i :: 0 <= i < |k| ==> k[i] != '.'
  }

  predicate GoodPath(path: seq<string>) {
    forall i :: 0 <= i < |path| ==> GoodKey(path[i])
  }

  /** Keys are not empty, hold no dot and name one entry of their table; no table inside is empty. */
  predicate Good(entries: seq<Entry>)
    decreases entries
  {
    entries == [] ||
    (&& GoodKey(entries[0].key)
     && (forall j :: 0 < j < |entries| ==> entries[j].key != entries[0].key)
     && (entries[0].tree.Table? ==> entries[0].tree.entries != [] && Good(entries[0].tree.entries))
     && Good(entries[1..]))
  }

  // ----- leaves and their paths -----

  datatype Bound = Bound(path: seq<string>, rendering: string)

  function Leaves(path: seq<string>, entries: seq<Entry>): seq<Bound>
    decreases entries
  {
    if entries == [] then []
    else
      var here := path + [entries[0].key];
      (match entries[0].tree case Leaf(r) => [Bound(here, r)] case Table(sub) => Leaves(here, sub)) + Leaves(path, entries[1..])
  }

  function PathKey(path: seq<string>): string {
    if path == [] then "" else KeyOf(PathKey(path[..|path| - 1]), path[|path| - 1])
  }

  function Put(out: map<string, string>, bounds: seq<Bound>): map<string, string> {
    if bounds == [] then out
    else Put(out, bounds[..|bounds| - 1])[PathKey(bounds[|bounds| - 1].path) := bounds[|bounds| - 1].rendering]
  }

  lemma {:induction false} PutConcat(out: map<string, string>, a: seq<Bound>, b: seq<Bound>)
    ensures Put(out, a + b) == Put(Put(out, a), b)
  {
    if b == [] {
      assert a + b == a;
    } else {
      PutConcat(out, a, b[..|b| - 1]);
      assert (a + b)[..|a + b| - 1] == a + b[..|b| - 1];
    }
  }

  lemma PathKeySnoc(path: seq<string>, k: string)
    ensures PathKey(path + [k]) == KeyOf(PathKey(path), k)
  {
    assert (path + [k])[..|path|] == path;
  }

  lemma {:induction false} FlattenPutsLeaves(out: map<string, string>, path: seq<string>, entries: seq<Entry>)
    ensures FlattenInto(out, PathKey(path), entries) == Put(out, Leaves(path, entries))
    decreases entries
  {
    hide Put;
    if entries == [] {
      assert Put(out, []) == out by { PutNothing(out); }
    } else {
      var here := path + [entries[0].key];
      PathKeySnoc(path, entries[0].key);
      var first := match entries[0].tree { case Leaf(r) => [Bound(here, r)] case Table(sub) => Leaves(here, sub) };
      match entries[0].tree
      case Table(sub) =>
        FlattenPutsLeaves(out, here, sub);
        FlattenPutsLeaves(Put(out, first), path, entries[1..]);
        PutConcat(out, first, Leaves(path, entries[1..]));
      case Leaf(r) =>
        PutOne(out, Bound(here, r));
        FlattenPutsLeaves(Put(out, first), path, entries[1..]);
        PutConcat(out, first, Leaves(path, entries[1..]));
    }
  }

  lemma PutNothing(out: map<string, string>)
    ensures Put(out, []) == out
  {
  }

  lemma PutOne(out: map<string, string>, b: Bound)
    ensures Put(out, [b]) == out[PathKey(b.path) := b.rendering]
  {
    assert [b][..0] == [];
  }

  /** The leaves below a path are exactly the values the tree holds at its extensions. */
  lemma {:induction false} LeafIsBelow(path: seq<string>, entries: seq<Entry>, b: Bound)
    requires Good(entries) && b in Leaves(path, entries)
    ensures |path| < |b.path| && b.path[..|path|] == path && GoodPath(b.path[|path|..])
    ensures At(entries, b.path[|path|..]) == Value(b.rendering)
    decreases entries
  {
    var here := path + [entries[0].key];
    var first := match entries[0].tree { case Leaf(r) => [Bound(here, r)] case Table(sub) => Leaves(here, sub) };
    if b in first {
      match entries[0].tree
      case Leaf(r) => assert b.path[|path|..] == [entries[0].key];
      case Table(sub) =>
        LeafIsBelow(here, sub, b);
        assert b.path[..|path|] == b.path[..|here|][..|path|];
        assert b.path[|path|..][1..] == b.path[|here|..] && b.path[|path|] == b.path[..|here|][|path|] == entries[0].key;
        assert b.path[|path|..] == [entries[0].key] + b.path[|here|..];
    } else {
      LeafIsBelow(path, entries[1..], b);
      KeyOfFirst(entries[1..], b.path[|path|..]);
    }
  }

  lemma {:induction false} KeyOfFirst(entries: seq<Entry>, path: seq<string>)
    requires path != [] && At(entries, path) != Nothing
    ensures exists j :: 0 <= j < |entries| && entries[j].key == path[0]
  {
    if entries[0].key != path[0] {
      KeyOfFirst(entries[1..], path);
      var j :| 0 <= j < |entries[1..]| && entries[1..][j].key == path[0];
      assert entries[j + 1].key == path[0];
    }
  }

  lemma {:induction false} BelowIsLeaf(path: seq<string>, entries: seq<Entry>, q: seq<string>)
    requires q != [] && At(entries, q).Value?
    ensures Bound(path + q, At(entries, q).rendering) in Leaves(path, entries)
    decreases entries
  {
    var here := path + [entries[0].key];
    if entries[0].key != q[0] {
      BelowIsLeaf(path, entries[1..], q);
    } else if |q| == 1 {
      assert path + q == here;
    } else {
      BelowIsLeaf(here, entries[0].tree.entries, q[1..]);
      assert here + q[1..] == path + q;
    }
  }

  // ----- dotted keys spell one path -----

  lemma LastDotAt(a: string, k: string)
    requires GoodKey(k)
    ensures (a + "." + k)[|a|] == '.'
    ensures forall i :: |a| < i < |a + "." + k| ==> (a + "." + k)[i] != '.'
  {
    var s := a + "." + k;
    assert forall i :: |a| < i < |s| ==> s[i] == k[i - |a| - 1];
  }

  lemma LastDot(a: string, k: string, b: string, l: string)
    requires GoodKey(k) && GoodKey(l) && a + "." + k == b + "." + l
    ensures a == b && k == l
  {
    var s := a + "." + k;
    LastDotAt(a, k);
    LastDotAt(b, l);
    assert a == s[..|a|] && b == s[..|b|];
    assert k == s[|a| + 1..] && l == s[|b| + 1..];
  }

  lemma {:induction false} PathKeyIsNotEmpty(path: seq<string>)
    requires GoodPath(path) && path != []
    ensures PathKey(path) != ""
  {
  }

  lemma PlainIsNotDotted(k: string, a: string, l: string)
    requires GoodKey(k)
    ensures k != a + "." + l
  {
    var s := a + "." + l;
    assert s[|a|] == '.';
  }

  lemma {:induction false} PathKeyIsInjective(p: seq<string>, q: seq<string>)
    requires GoodPath(p) && GoodPath(q) && PathKey(p) == PathKey(q)
    ensures p == q
  {
    if p == [] || q == [] {
      if p != [] { PathKeyIsNotEmpty(p); }
      if q != [] { PathKeyIsNotEmpty(q); }
    } else {
      var a, b, k, l := p[..|p| - 1], q[..|q| - 1], p[|p| - 1], q[|q| - 1];
      if a != [] { PathKeyIsNotEmpty(a); }
      if b != [] { PathKeyIsNotEmpty(b); }
      if a != [] && b != [] {
        LastDot(PathKey(a), k, PathKey(b), l);
        PathKeyIsInjective(a, b);
      } else if a != [] {
        PlainIsNotDotted(l, PathKey(a), k);
      } else if b != [] {
        PlainIsNotDotted(k, PathKey(b), l);
      }
      assert p == a + [k] && q == b + [l];
    }
  }

  // ----- the flattening can be undone -----

  lemma {:induction false} PutHolds(bounds: seq<Bound>, key: string)
    ensures key in Put(map[], bounds) ==> exists b :: b in bounds && PathKey(b.path) == key && b.rendering == Put(map[], bounds)[key]
    ensures (exists b :: b in bounds && PathKey(b.path) == key) ==> key in Put(map[], bounds)
  {
    if bounds != [] {
      var n := |bounds| - 1;
      PutHolds(bounds[..n], key);
      assert bounds == bounds[..n] + [bounds[n]];
      if key in Put(map[], bounds) {
        if PathKey(bounds[n].path) == key {
          assert bounds[n] in bounds;
        } else {
          var b :| b in bounds[..n] && PathKey(b.path) == key && b.rendering == Put(map[], bounds[..n])[key];
          assert b in bounds;
        }
      }
    }
  }

  /** A key of the flattening spells the path of a value, and every value has its key. */
  lemma FlatHolds(entries: seq<Entry>, path: seq<string>)
    requires Good(entries) && path != [] && GoodPath(path)
    ensures PathKey(path) in FlattenKeys(entries) <==> At(entries, path).Value?
    ensures At(entries, path).Value? ==> FlattenKeys(entries)[PathKey(path)] == At(entries, path).rendering
  {
    var bounds := Leaves([], entries);
    FlattenPutsLeaves(map[], [], entries);
    PutHolds(bounds, PathKey(path));
    if At(entries, path).Value? {
      BelowIsLeaf([], entries, path);
      assert [] + path == path;
    }
    if PathKey(path) in FlattenKeys(entries) {
      var b :| b in bounds && PathKey(b.path) == PathKey(path) && b.rendering == Put(map[], bounds)[PathKey(path)];
      LeafIsBelow([], entries, b);
      assert b.path[0..] == b.path;
      PathKeyIsInjective(b.path, path);
    }
  }

  lemma FlatKeyIsPath(entries: seq<Entry>, key: string) returns (path: seq<string>)
    requires Good(entries) && key in FlattenKeys(entries)
    ensures path != [] && GoodPath(path) && PathKey(path) == key && At(entries, path).Value?
  {
    var bounds := Leaves([], entries);
    FlattenPutsLeaves(map[], [], entries);
    PutHolds(bounds, key);
    var b :| b in bounds && PathKey(b.path) == key;
    LeafIsBelow([], entries, b);
    assert b.path[0..] == b.path;
    path := b.path;
  }

  /** The tree a flattening came from, read off its keys alone. */
  ghost function Unflatten(flat: map<string, string>, path: seq<string>): Node {
    if PathKey(path) in flat then Value(flat[PathKey(path)])
    else if exists q :: q != [] && GoodPath(q) && PathKey(path + q) in flat then Branch
    else Nothing
  }

  lemma {:induction false} BranchHoldsValue(entries: seq<Entry>, path: seq<string>) returns (q: seq<string>)
    requires Good(entries) && path != [] && At(entries, path).Branch?
    ensures q != [] && GoodPath(q) && At(entries, path + q).Value?
    decreases entries
  {
    if entries[0].key != path[0] {
      q := BranchHoldsValue(entries[1..], path);
    } else {
      var sub := entries[0].tree.entries;
      if |path| == 1 {
        var t := sub[0].tree;
        if t.Leaf? {
          q := [sub[0].key];
        } else {
          var more := BranchHoldsValue(sub, [sub[0].key]);
          q := [sub[0].key] + more;
        }
        assert (path + q)[1..] == q;
      } else {
        q := BranchHoldsValue(sub, path[1..]);
        assert (path + q)[1..] == path[1..] + q;
      }
    }
  }

  lemma {:induction false} ValueHasBranches(entries: seq<Entry>, path: seq<string>, q: seq<string>)
    requires path != [] && q != [] && At(entries, path + q).Value?
    ensures At(entries, path).Branch?
    decreases entries
  {
    if entries[0].key != path[0] {
      ValueHasBranches(entries[1..], path, q);
    } else if |path| > 1 {
      assert (path + q)[1..] == path[1..] + q;
      ValueHasBranches(entries[0].tree.entries, path[1..], q);
    }
  }

  /** Unflattening gives back what the tree holds, at every path. */
  lemma FlattenIsInvertible(entries: seq<Entry>, path: seq<string>)
    requires Good(entries) && path != [] && GoodPath(path)
    ensures Unflatten(FlattenKeys(entries), path) == At(entries, path)
  {
    FlatHolds(entries, path);
    if At(entries, path).Branch? {
      var q := BranchHoldsValue(entries, path);
      FlatHolds(entries, path + q);
    } else if At(entries, path).Nothing? {
      forall q | q != [] && GoodPath(q) ensures PathKey(path + q) !in FlattenKeys(entries) {
        FlatHolds(entries, path + q);
        if At(entries, path + q).Value? { ValueHasBranches(entries, path, q); }
      }
    }
  }

  /** Two trees that hold the same at every path. */
  ghost predicate SameTree(a: seq<Entry>, b: seq<Entry>) {
    forall path :: path != [] && GoodPath(path) ==> At(a, path) == At(b, path)
  }

  /** Flattenings are equal exactly when the trees are, whatever order the tables were met in. */
  lemma FlattenEqualIff(a: seq<Entry>, b: seq<Entry>)
    requires Good(a) && Good(b)
    ensures FlattenKeys(a) == FlattenKeys(b) <==> SameTree(a, b)
  {
    if FlattenKeys(a) == FlattenKeys(b) {
      forall path | path != [] && GoodPath(path) ensures At(a, path) == At(b, path) {
        FlattenIsInvertible(a, path);
        FlattenIsInvertible(b, path);
      }
    }
    if SameTree(a, b) {
      SameTreeSameKeys(a, b);
      SameTreeSameKeys(b, a);
      assert FlattenKeys(a) == FlattenKeys(b);
    }
  }

  lemma SameTreeSameKeys(a: seq<Entry>, b: seq<Entry>)
    requires Good(a) && Good(b) && SameTree(a, b)
    ensures forall key :: key in FlattenKeys(a) ==> key in FlattenKeys(b) && FlattenKeys(b)[key] == FlattenKeys(a)[key]
  {
    forall key | key in FlattenKeys(a) ensures key in FlattenKeys(b) && FlattenKeys(b)[key] == FlattenKeys(a)[key] {
      var path := FlatKeyIsPath(a, key);
      FlatHolds(a, path);
      FlatHolds(b, path);
    }
  }

  /** Outside those trees it is not: a dotted key spells a table, and an empty table leaves no trace. */
  lemma DottedAndEmptyAreLost(x: string)
    ensures FlattenKeys([Entry("a.b", Leaf(x))]) == FlattenKeys([Entry("a", Table([Entry("b", Leaf(x))]))])
    ensures FlattenKeys([Entry("a", Table([]))]) == FlattenKeys([])
  {
    assert KeyOf("a", "b") == "a.b" && KeyOf("", "a.b") == "a.b" && KeyOf("", "a") == "a";
    var inner := [Entry("b", Leaf(x))];
    assert inner[1..] == [] && FlattenInto(map[], "a", inner) == map["a.b" := x];
    var plain, nested := [Entry("a.b", Leaf(x))], [Entry("a", Table(inner))];
    var out: map<string, string> := map[];
    assert plain[1..] == [] && FlattenKeys(plain) == FlattenInto(out["a.b" := x], "", []);
    assert nested[1..] == [] && FlattenKeys(nested) == FlattenInto(map["a.b" := x], "", []);
  }

  // ----- changed keys -----

  predicate ZeroRendering(v: string) {
    v == "false" || v == "0" || v == "\"\"" || v == "[]interface {}{}" || v == "[]map[string]interface {}{}"
  }

  /** Whether the key's value differs, an absent key standing for any zero value. */
  predicate Differs(before: map<string, string>, after: map<string, string>, k: string) {
    if k in before && k in after then before[k] != after[k]
    else if k in after then !ZeroRendering(after[k])
    else k in before && !ZeroRendering(before[k])
  }

  /** Strings in the order of their characters' codes. */
  predicate Less(a: string, b: string) {
    b != "" && (a == "" || a[0] < b[0] || (a[0] == b[0] && Less(a[1..], b[1..])))
  }

  lemma {:induction false} LessIsTotal(a: string, b: string)
    ensures Less(a, b) || Less(b, a) || a == b
  {
    if a != "" && b != "" && a[0] == b[0] {
      LessIsTotal(a[1..], b[1..]);
      assert a == [a[0]] + a[1..] && b == [b[0]] + b[1..];
    }
  }

  lemma {:induction false} LessIsTransitive(a: string, b: string, c: string)
    requires Less(a, b) && Less(b, c)
    ensures Less(a, c)
  {
    if a != "" && a[0] == b[0] && b[0] == c[0] { LessIsTransitive(a[1..], b[1..], c[1..]); }
  }

  predicate Ascending(keys: seq<string>) {
    forall i, j :: 0 <= i < j < |keys| ==> Less(keys[i], keys[j])
  }

  /** Puts a new key in its place. */
  method InsertKey(keys: seq<string>, k: string) returns (r: seq<string>)
    requires Ascending(keys) && k !in keys
    ensures Ascending(r) && forall x :: x in r <==> x in keys || x == k
  {
    var i := |keys|;
    while i > 0 && Less(k, keys[i - 1])
      invariant 0 <= i <= |keys|
      invariant forall j :: i <= j < |keys| ==> Less(k, keys[j])
    {
      i := i - 1;
    }
    r := keys[..i] + [k] + keys[i..];
    forall j | 0 <= j < i ensures Less(keys[j], k) {
      LessIsTotal(k, keys[i - 1]);
      if j < i - 1 { LessIsTransitive(keys[j], keys[i - 1], k); }
    }
    assert keys == keys[..i] + keys[i..];
  }

  /** The keys that differ, each once, in order. */
  method ChangedKeys(before: map<string, string>, after: map<string, string>) returns (out: seq<string>)
    ensures Ascending(out)
    ensures forall k :: k in out <==> Differs(before, after, k)
  {
    out := [];
    var todo := after.Keys;
    while todo != {}
      invariant todo <= after.Keys && Ascending(out)
      invariant forall k :: k in out <==> k in after && k !in todo && Differs(before, after, k)
      decreases todo
    {
      var k :| k in todo;
      if (k in before && before[k] != after[k]) || (k !in before && !ZeroRendering(after[k])) {
        out := InsertKey(out, k);
      }
      todo := todo - {k};
    }
    todo := before.Keys;
    while todo != {}
      invariant todo <= before.Keys && Ascending(out)
      invariant forall k :: k in out <==> (k in after || (k in before && k !in todo)) && Differs(before, after, k)
      decreases todo
    {
      var k :| k in todo;
      if k !in after && !ZeroRendering(before[k]) {
        out := InsertKey(out, k);
      }
      todo := todo - {k};
    }
  }

  /** A sorted list of keys is the only one with its keys, so the two directions of a change read the same. */
  lemma {:induction false} AscendingIsUnique(a: seq<string>, b: seq<string>)
    requires Ascending(a) && Ascending(b) && forall k :: k in a <==> k in b
    ensures a == b
  {
    BothEmpty(a, b);
    if a != [] {
      assert a[0] in b && b[0] in a;
      var i :| 0 <= i < |b| && b[i] == a[0];
      var j :| 0 <= j < |a| && a[j] == b[0];
      if i > 0 && j > 0 { LessIsTransitive(a[0], b[0], a[0]); }
      LessIsIrreflexive(a[0]);
      assert a[0] == b[0];
      forall k ensures k in a[1..] <==> k in b[1..] {
        TailHolds(a, k);
        TailHolds(b, k);
      }
      AscendingIsUnique(a[1..], b[1..]);
      assert a == [a[0]] + a[1..] && b == [b[0]] + b[1..];
    }
  }

  lemma BothEmpty(a: seq<string>, b: seq<string>)
    requires forall k :: k in a <==> k in b
    ensures a == [] <==> b == []
  {
    if a != [] { assert a[0] in b; }
    if b != [] { assert b[0] in a; }
  }

  lemma TailHolds(a: seq<string>, k: string)
    requires Ascending(a) && a != []
    ensures k in a[1..] <==> k in a && k != a[0]
  {
    LessIsIrreflexive(a[0]);
    if k in a && k != a[0] {
      var i :| 0 <= i < |a| && a[i] == k;
      assert a[1..][i - 1] == k;
    }
  }

  lemma {:induction false} LessIsIrreflexive(a: string)
    ensures !Less(a, a)
  {
    if a != "" { LessIsIrreflexive(a[1..]); }
  }

  lemma NothingChanges(m: map<string, string>, keys: seq<string>)
    requires forall k :: k in keys <==> Differs(m, m, k)
    ensures keys == []
  {
    BothEmpty(keys, []);
  }

  /** Going back changes the same keys as going forth. */
  lemma ChangesAreSymmetric(before: map<string, string>, after: map<string, string>, there: seq<string>, back: seq<string>)
    requires Ascending(there) && forall k :: k in there <==> Differs(before, after, k)
    requires Ascending(back) && forall k :: k in back <==> Differs(after, before, k)
    ensures there == back
    ensures before == after ==> there == []
  {
    AscendingIsUnique(there, back);
    if before == after { NothingChanges(before, there); }
  }
}
