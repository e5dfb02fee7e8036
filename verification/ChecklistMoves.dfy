/** What reordering does to the tree of a checklist, and exactly when it leaves every parent alone. */
module ChecklistMoves {
  import opened Checklist

  // ----- exchanging two adjacent runs of items -----

  /** Where the item at position k stands after the runs [a, b) and [b, c) changed places. */
  function Image(k: int, a: int, b: int, c: int): int {
    if a <= k < b then k + (c - b) else if b <= k < c then k - (b - a) else k
  }

  /** Every item is where `Image` says, under the image of its parent, with its subtree whole behind it. */
  ghost predicate SameTree(items: seq<Line>, after: seq<Line>, a: int, b: int, c: int) {
    && 0 <= a <= b <= c <= |items| == |after|
    && (forall k {:trigger items[k]} :: 0 <= k < |items| ==>
          && after[Image(k, a, b, c)] == items[k]
          && Parent(after, Image(k, a, b, c)) == Image(Parent(items, k), a, b, c)
          && SubtreeSize(after, Image(k, a, b, c)) == SubtreeSize(items, k))
  }

  lemma ExchangeAt<T>(s: seq<T>, a: nat, b: nat, c: nat)
    requires a <= b <= c <= |s|
    ensures |Exchange(s, a, b, c)| == |s|
    ensures forall k {:trigger Image(k, a, b, c)} :: 0 <= k < |s| ==> Exchange(s, a, b, c)[Image(k, a, b, c)] == s[k]
  {
  }

  /** Reading the result by position. */
  lemma ExchangeFrom<T>(s: seq<T>, a: nat, b: nat, c: nat, j: nat) returns (k: nat)
    requires a <= b <= c <= |s| && j < |s|
    ensures k < |s| && Image(k, a, b, c) == j && |Exchange(s, a, b, c)| == |s| && Exchange(s, a, b, c)[j] == s[k]
  {
    k := Image(j, a, a + (c - b), c);
  }

  lemma ExchangeTwice<T>(s: seq<T>, a: nat, b: nat, c: nat)
    requires a <= b <= c <= |s|
    ensures |Exchange(s, a, b, c)| == |s|
    ensures Exchange(Exchange(s, a, b, c), a, a + (c - b), c) == s
  {
    var t := Exchange(s, a, b, c);
    assert t[..a] == s[..a] && t[a..a + (c - b)] == s[b..c] && t[a + (c - b)..c] == s[a..b] && t[c..] == s[c..];
    assert s == s[..a] + s[a..b] + s[b..c] + s[c..];
  }

  /** Two runs headed at one depth, holding nothing shallower, and followed by nothing deeper than their heads. */
  ghost predicate LevelRuns(items: seq<Line>, a: int, b: int, c: int) {
    && 0 <= a < b < c <= |items|
    && items[a].indent == items[b].indent
    && (forall x :: a <= x < c ==> items[x].indent >= items[a].indent)
    && (c < |items| ==> items[c].indent <= items[a].indent)
  }

  lemma ExchangeKeepsParent(items: seq<Line>, a: nat, b: nat, c: nat, k: nat)
    requires LevelRuns(items, a, b, c) && k < |items|
    ensures Parent(Exchange(items, a, b, c), Image(k, a, b, c)) == Image(Parent(items, k), a, b, c)
  {
    hide Parent, Exchange;
    var after, p, j := Exchange(items, a, b, c), Parent(items, k), Image(k, a, b, c);
    ExchangeAt(items, a, b, c);
    ParentIsUnique(items, k, p);
    var q := Image(p, a, b, c);
    assert p >= 0 ==> after[q] == items[p];
    assert after[j] == items[k];
    forall x: nat | q < x < j ensures after[x].indent >= after[j].indent {
      var y := ExchangeFrom(items, a, b, c, x);
      assert p < y < k || (a <= y < c && items[y].indent >= items[a].indent >= items[k].indent);
    }
    assert IsParent(after, j, q);
    ParentIsUnique(after, j, q);
  }

  lemma ExchangeKeepsSubtree(items: seq<Line>, a: nat, b: nat, c: nat, k: nat)
    requires LevelRuns(items, a, b, c) && k < |items|
    ensures SubtreeSize(Exchange(items, a, b, c), Image(k, a, b, c)) == SubtreeSize(items, k)
  {
    hide SubtreeSize, Exchange;
    var after, n, j := Exchange(items, a, b, c), SubtreeSize(items, k), Image(k, a, b, c);
    ExchangeAt(items, a, b, c);
    SubtreeSizeIsUnique(items, k, n);
    assert after[j] == items[k];
    assert a <= k < b ==> k + n <= b;
    assert b <= k < c ==> k + n <= c;
    assert k < a && items[k].indent >= items[a].indent ==> k + n <= a;
    assert k < a && items[k].indent < items[a].indent && k + n > a ==> k + n >= c;
    forall x: nat | j < x < j + n ensures after[x].indent > after[j].indent {
      var y := ExchangeFrom(items, a, b, c, x);
    }
    if j + n < |items| {
      var y := ExchangeFrom(items, a, b, c, j + n);
    }
    assert IsSubtree(after, j, n);
    SubtreeSizeIsUnique(after, j, n);
  }

  lemma ExchangeKeepsTree(items: seq<Line>, a: nat, b: nat, c: nat)
    requires LevelRuns(items, a, b, c)
    ensures SameTree(items, Exchange(items, a, b, c), a, b, c)
  {
    ExchangeAt(items, a, b, c);
    forall k | 0 <= k < |items|
      ensures Parent(Exchange(items, a, b, c), Image(k, a, b, c)) == Image(Parent(items, k), a, b, c)
      ensures SubtreeSize(Exchange(items, a, b, c), Image(k, a, b, c)) == SubtreeSize(items, k)
    {
      ExchangeKeepsParent(items, a, b, c, k);
      ExchangeKeepsSubtree(items, a, b, c, k);
    }
  }

  // ----- from lines to items -----

  lemma ItemsOfExchange(lines: seq<Line>, a: nat, b: nat, c: nat)
    requires a <= b <= c <= |lines|
    ensures |Items(lines[..a])| <= |Items(lines[..b])| <= |Items(lines[..c])| <= |Items(lines)|
    ensures Items(Exchange(lines, a, b, c))
            == Exchange(Items(lines), |Items(lines[..a])|, |Items(lines[..b])|, |Items(lines[..c])|)
  {
    hide Items;
    var w, x, y, z := lines[..a], lines[a..b], lines[b..c], lines[c..];
    assert lines == w + x + y + z && lines[..b] == w + x && lines[..c] == w + x + y;
    ItemsConcat(w, x);
    ItemsConcat(w + x, y);
    ItemsConcat(w + x + y, z);
    ItemsConcat(w, y);
    ItemsConcat(w + y, x);
    ItemsConcat(w + y + x, z);
  }

  lemma {:induction false} RunIsDeeper(lines: seq<Line>, base: nat)
    ensures forall ln :: ln in Items(lines[..RunTail(lines, base)]) ==> ln.indent > base
  {
    var n := RunTail(lines, base);
    if n > 0 {
      RunIsDeeper(lines[1..], base);
      assert lines[..n][0] == lines[0] && lines[..n][1..] == lines[1..][..n - 1];
    }
  }

  /** The items of a travelling run: its head, and deeper ones. */
  lemma HeadOfRun(lines: seq<Line>, i: nat)
    requires i < |lines| && lines[i].kind.Item?
    ensures var run := Items(lines[i..SubtreeEnd(lines, i)]);
            run != [] && run[0] == lines[i] && forall x :: 0 < x < |run| ==> run[x].indent > lines[i].indent
  {
    hide RunTail;
    var end := SubtreeEnd(lines, i);
    RunIsDeeper(lines[i..][1..], lines[i].indent);
    var rest := lines[i..end][1..];
    assert rest == lines[i..][1..][..end - i - 1];
    assert Items(lines[i..end]) == [lines[i]] + Items(rest);
    forall x | 0 < x < |Items(lines[i..end])| ensures Items(lines[i..end])[x].indent > lines[i].indent {
      assert Items(lines[i..end])[x] in Items(rest);
    }
  }

  lemma ItemsInPlace(a: seq<Line>, b: seq<Line>, c: seq<Line>)
    ensures |Items(a)| + |Items(b)| <= |Items(a + b + c)|
    ensures forall x :: 0 <= x < |Items(b)| ==> Items(a + b + c)[|Items(a)| + x] == Items(b)[x]
  {
    hide Items;
    ItemsConcat(a + b, c);
    ItemsConcat(a, b);
  }

  /** What travels with an item is nested under it, though more may be nested than travels. */
  lemma TravellingIsNested(lines: seq<Line>, k: nat)
    requires k < |Items(lines)|
    ensures 1 <= Travelling(lines, k) <= SubtreeSize(Items(lines), k)
    ensures k + Travelling(lines, k) <= |Items(lines)|
  {
    hide Items, LineNo, SubtreeSize, SubtreeEnd;
    var i := LineNo(lines, k);
    var end := SubtreeEnd(lines, i);
    var items, run := Items(lines), Items(lines[i..end]);
    ItemsBefore(lines, k);
    HeadOfRun(lines, i);
    assert lines == lines[..i] + lines[i..end] + lines[end..];
    ItemsInPlace(lines[..i], lines[i..end], lines[end..]);
    forall x | k < x < k + |run| ensures items[x].indent > items[k].indent {
      assert items[k + (x - k)] == run[x - k] && items[k + 0] == run[0];
    }
    SubtreeSizeIsUnique(items, k, SubtreeSize(items, k));
  }

  // ----- one accepted move -----

  ghost predicate Accepted(lines: seq<Line>, from: int, to: int) {
    from != to && Move(lines, from, to).Moved?
  }

  /** The bounds of the two runs of items an accepted move exchanges. */
  function Bounds(lines: seq<Line>, from: int, to: int): (int, int, int)
    requires 1 <= from <= |Items(lines)| && 1 <= to <= |Items(lines)|
  {
    var moved := Travelling(lines, from - 1);
    if to < from then (to - 1, from - 1, from - 1 + moved)
    else (from - 1, from - 1 + moved, to - 1 + Travelling(lines, to - 1))
  }

  /** The lines an accepted move exchanges. */
  lemma MoveExchangesLines(lines: seq<Line>, from: int, to: int) returns (a: nat, b: nat, c: nat)
    requires Accepted(lines, from, to)
    ensures a <= b <= c <= |lines| && Move(lines, from, to).lines == Exchange(lines, a, b, c)
    ensures Whole(lines, from - 1) && Parent(Items(lines), from - 1) == Parent(Items(lines), to - 1)
    ensures if to < from then a == LineNo(lines, to - 1) && b == LineNo(lines, from - 1) && c == SubtreeEnd(lines, b)
            else a == LineNo(lines, from - 1) && b == SubtreeEnd(lines, a) && c == SubtreeEnd(lines, LineNo(lines, to - 1))
  {
    hide Items, LineNo, Parent, SubtreeSize, SubtreeEnd, Exchange, Travelling, Whole;
    TargetIsOutside(lines, from - 1, to - 1);
    var start, target := LineNo(lines, from - 1), LineNo(lines, to - 1);
    if to < from {
      a, b, c := target, start, SubtreeEnd(lines, start);
    } else {
      a, b, c := start, SubtreeEnd(lines, start), SubtreeEnd(lines, target);
    }
  }

  /** A move rearranges whole lines, and its items are the exchange of the two runs. */
  lemma MoveExchangesItems(lines: seq<Line>, from: int, to: int)
    requires Accepted(lines, from, to)
    ensures multiset(Move(lines, from, to).lines) == multiset(lines)
    ensures var (a, b, c) := Bounds(lines, from, to);
            0 <= a < b < c <= |Items(lines)| && Items(Move(lines, from, to).lines) == Exchange(Items(lines), a, b, c)
  {
    hide Items, LineNo, Parent, SubtreeSize, SubtreeEnd, Exchange, Travelling, Whole, Move;
    var a, b, c := MoveExchangesLines(lines, from, to);
    assert 1 <= from <= |Items(lines)| && 1 <= to <= |Items(lines)| by { MoveIsInRange(lines, from, to); }
    var f, t := from - 1, to - 1;
    TargetIsOutside(lines, f, t);
    ItemsBefore(lines, f);
    ItemsBefore(lines, t);
    ItemsThrough(lines, f);
    ItemsThrough(lines, t);
    TravellingIsNested(lines, f);
    TravellingIsNested(lines, t);
    ItemsOfExchange(lines, a, b, c);
    ExchangeIsPermutation(lines, a, b, c);
  }

  lemma MoveIsInRange(lines: seq<Line>, from: int, to: int)
    requires Accepted(lines, from, to)
    ensures 1 <= from <= |Items(lines)| && 1 <= to <= |Items(lines)|
  {
    hide Items, LineNo, Parent, SubtreeEnd, Exchange, Whole;
  }

  lemma ExchangeIsPermutation<T>(s: seq<T>, a: nat, b: nat, c: nat)
    requires a <= b <= c <= |s|
    ensures multiset(Exchange(s, a, b, c)) == multiset(s)
  {
    assert s == s[..a] + s[a..b] + s[b..c] + s[c..];
  }

  /** Siblings need not be indented alike: only then does their order not matter to the tree. */
  predicate Level(lines: seq<Line>, from: int, to: int)
    requires 1 <= from <= |Items(lines)| && 1 <= to <= |Items(lines)|
  {
    Items(lines)[from - 1].indent == Items(lines)[to - 1].indent
  }

  /** The condition under which an accepted move is a reordering and nothing else. */
  predicate Orderly(lines: seq<Line>, from: int, to: int)
    requires 1 <= from <= |Items(lines)| && 1 <= to <= |Items(lines)|
  {
    Level(lines, from, to) && (to < from || Whole(lines, to - 1))
  }

  /** Nothing between a sibling and a later one is shallower than the later one. */
  lemma SiblingsSpan(items: seq<Line>, first: nat, second: nat)
    requires first < second < |items| && Parent(items, first) == Parent(items, second)
    ensures forall x :: first <= x <= second ==> items[x].indent >= items[second].indent
    ensures Parent(items, second) < first
  {
    ParentIsUnique(items, second, Parent(items, second));
    ParentIsUnique(items, first, Parent(items, first));
  }

  lemma OrderlyRunsAreLevel(lines: seq<Line>, from: int, to: int)
    requires Accepted(lines, from, to) && Orderly(lines, from, to)
    ensures var (a, b, c) := Bounds(lines, from, to); LevelRuns(Items(lines), a, b, c)
  {
    hide Items, LineNo, Parent, SubtreeSize, RunLength;
    var items, f, t := Items(lines), from - 1, to - 1;
    MoveExchangesItems(lines, from, to);
    SubtreeSizeIsUnique(items, f, SubtreeSize(items, f));
    SubtreeSizeIsUnique(items, t, SubtreeSize(items, t));
    if t < f { SiblingsSpan(items, t, f); } else { SiblingsSpan(items, f, t); }
  }

  /** A move between siblings of different depth hangs one of them under the other. */
  lemma UnlevelReparents(lines: seq<Line>, from: int, to: int)
    requires Accepted(lines, from, to) && !Level(lines, from, to)
    ensures var (a, b, c) := Bounds(lines, from, to);
            !SameTree(Items(lines), Items(Move(lines, from, to).lines), a, b, c)
  {
    hide Items, LineNo, Parent, SubtreeSize, RunLength, Exchange;
    var items, f, t := Items(lines), from - 1, to - 1;
    var (a, b, c) := Bounds(lines, from, to);
    var after := Items(Move(lines, from, to).lines);
    MoveExchangesItems(lines, from, to);
    ExchangeAt(items, a, b, c);
    TravellingIsNested(lines, f);
    TravellingIsNested(lines, t);
    var first, second := if t < f then t else f, if t < f then f else t;
    SiblingsSpan(items, first, second);
    TargetIsOutside(lines, f, t);
    var i, j := Image(first, a, b, c), Image(second, a, b, c);
    assert after[i] == items[first] && after[j] == items[second] && j < i;
    ParentIsUnique(after, i, Parent(after, i));
    assert Parent(after, i) >= j;
    assert Image(Parent(items, first), a, b, c) == Parent(items, first) < j;
  }

  /** Moving down past an item whose sub-tasks do not all travel with it adopts the ones left over. */
  lemma SplitTargetAdopts(lines: seq<Line>, from: int, to: int)
    requires Accepted(lines, from, to) && Level(lines, from, to) && from < to && !Whole(lines, to - 1)
    ensures var (a, b, c) := Bounds(lines, from, to);
            !SameTree(Items(lines), Items(Move(lines, from, to).lines), a, b, c)
  {
    hide Items, LineNo, Parent, SubtreeSize, RunLength, Exchange;
    var items, f, t := Items(lines), from - 1, to - 1;
    var (a, b, c) := Bounds(lines, from, to);
    var after := Items(Move(lines, from, to).lines);
    MoveExchangesItems(lines, from, to);
    ExchangeAt(items, a, b, c);
    TravellingIsNested(lines, t);
    TargetIsOutside(lines, f, t);
    SubtreeSizeIsUnique(items, t, SubtreeSize(items, t));
    assert t < c < t + SubtreeSize(items, t) && items[c].indent > items[t].indent;
    ParentIsUnique(items, c, Parent(items, c));
    assert t <= Parent(items, c) < c;
    var root := Image(f, a, b, c);
    assert after[root] == items[f] && Image(c, a, b, c) == c && after[c] == items[c];
    ParentIsUnique(after, c, Parent(after, c));
    assert Parent(after, c) >= root;
    assert Image(Parent(items, c), a, b, c) < root;
  }

  /**
   An accepted move keeps every item under its own parent and every subtree in one piece exactly when
   the two siblings are indented alike and, going down, the sibling passed over travels whole.
   */
  lemma MoveKeepsTreeIff(lines: seq<Line>, from: int, to: int)
    requires Accepted(lines, from, to)
    ensures var (a, b, c) := Bounds(lines, from, to);
            SameTree(Items(lines), Items(Move(lines, from, to).lines), a, b, c) <==> Orderly(lines, from, to)
  {
    hide Items, LineNo, Parent, SubtreeSize, RunLength, Exchange;
    var (a, b, c) := Bounds(lines, from, to);
    MoveExchangesItems(lines, from, to);
    if Orderly(lines, from, to) {
      OrderlyRunsAreLevel(lines, from, to);
      ExchangeKeepsTree(Items(lines), a, b, c);
    } else if !Level(lines, from, to) {
      UnlevelReparents(lines, from, to);
    } else {
      SplitTargetAdopts(lines, from, to);
    }
  }

  /** The moved item lands where the program reports exactly when, going down, the sibling travels whole. */
  lemma LandingIsReportedIff(lines: seq<Line>, from: int, to: int)
    requires Accepted(lines, from, to)
    ensures var (a, b, c) := Bounds(lines, from, to);
            var landed := Image(from - 1, a, b, c);
            && 0 <= landed < |Items(lines)| == |Items(Move(lines, from, to).lines)|
            && Items(Move(lines, from, to).lines)[landed] == Items(lines)[from - 1]
            && (landed + 1 == MoveLanding(Items(lines), from, to) <==> to < from || Whole(lines, to - 1))
  {
    hide Items, LineNo, Parent, SubtreeSize, RunLength, Exchange;
    var (a, b, c) := Bounds(lines, from, to);
    MoveExchangesItems(lines, from, to);
    ExchangeAt(Items(lines), a, b, c);
    assert Image(from - 1, a, b, c) == Image(from - 1, a, b, c);
  }

  lemma FirstTwoExchanged<T>(s: seq<T>)
    requires |s| >= 2
    ensures Exchange(s, 0, 1, 2) == [s[1], s[0]] + s[2..]
  {
    assert s[..0] == [] && s[1..2] == [s[1]] && s[0..1] == [s[0]];
  }

  /** Two spaces too many are enough: moving `b` above its sibling `a` makes `a` a sub-task of `b`. */
  lemma UnlevelWitness() returns (lines: seq<Line>, after: seq<Line>)
    ensures Move(lines, 2, 1) == Moved(after) && |Items(lines)| == |Items(after)| == 2
    ensures Parent(Items(lines), 0) == -1 && Items(after)[1] == Items(lines)[0] && Parent(Items(after), 1) == 0
  {
    hide Exchange;
    var a, b := Line(Item, 2, "a"), Line(Item, 0, "b");
    lines, after := [a, b], [b, a];
    assert Items([]) == [] && lines[1..] == [b] && lines[2..] == [] && [b][1..] == [];
    assert Items([b]) == [b] && Items(lines) == [a, b];
    assert LineNo(lines, 1) == 1 && LineNo(lines, 0) == 0;
    assert lines[1..2] == [b];
    FirstTwoExchanged(lines);
    assert after[1..] == [a] && [a][1..] == [] && Items([a]) == [a] && Items(after) == after;
  }

  lemma SplitItems(f: Line, t: Line, p: Line, c: Line)
    requires f.kind.Item? && t.kind.Item? && p.kind.Prose? && c.kind.Item?
    ensures Items([f]) == [f] && Items([f, t, p, c]) == [f, t, c]
    ensures LineNo([f, t, p, c], 0) == 0 && LineNo([f, t, p, c], 1) == 1
  {
    assert [f][1..] == [] && [c][1..] == [] && [p, c][1..] == [c] && Items([c]) == [c];
    assert [t, p, c][1..] == [p, c] && [f, t, p, c][1..] == [t, p, c] && Items([t, p, c]) == [t, c];
  }

  lemma SplitEnds(f: Line, t: Line, p: Line, c: Line)
    requires f == Line(Item, 0, "f") && t == Line(Item, 0, "t") && p == Line(Prose, 0, "p") && c == Line(Item, 2, "c")
    ensures SubtreeEnd([f, t, p, c], 0) == 1 && SubtreeEnd([f, t, p, c], 1) == 2
  {
    var lines := [f, t, p, c];
    assert lines[0..] == lines && lines[1..] == [t, p, c] && [t, p, c][1..] == [p, c];
  }

  lemma SplitTree(f: Line, t: Line, c: Line)
    requires f == Line(Item, 0, "f") && t == Line(Item, 0, "t") && c == Line(Item, 2, "c")
    ensures Parent([f, t, c], 0) == Parent([f, t, c], 1) == -1 && Parent([f, t, c], 2) == 1
    ensures SubtreeSize([f, t, c], 0) == 1 && SubtreeSize([f, t, c], 1) == 2
  {
    var items := [f, t, c];
    assert items[1..] == [t, c] && items[2..] == [c] && [c][1..] == [];
    assert ParentFrom(items, 1, 0) == -1;
  }

  /**
   A line of prose in the sibling's sub-tasks is enough: moving `f` down past `t` leaves `c` below `f`,
   which adopts it, and `f` lands one place above the one reported.
   */
  lemma SplitWitness(f: Line, t: Line, p: Line, c: Line)
    requires f == Line(Item, 0, "f") && t == Line(Item, 0, "t") && p == Line(Prose, 0, "p") && c == Line(Item, 2, "c")
    ensures Move([f, t, p, c], 1, 2) == Moved([t, f, p, c])
    ensures Items([f, t, p, c]) == [f, t, c] && Items([t, f, p, c]) == [t, f, c]
    ensures Parent([f, t, c], 2) == 1 && Parent([t, f, c], 2) == 1
    ensures MoveLanding([f, t, c], 1, 2) == 3
  {
    hide Items, LineNo, SubtreeEnd, SubtreeSize, Exchange;
    SplitItems(f, t, p, c);
    SplitItems(t, f, p, c);
    SplitEnds(f, t, p, c);
    SplitTree(f, t, c);
    assert [f, t, p, c][0..1] == [f];
    FirstTwoExchanged([f, t, p, c]);
    assert [t, f] + [f, t, p, c][2..] == [t, f, p, c];
  }

  // ----- up, then down again -----

  lemma {:induction false} SiblingAboveIsNearest(items: seq<Line>, k: nat, i: int)
    requires -1 <= i < k < |items|
    ensures var to := SiblingScan(items, k, i, true);
            to > 0 ==> to - 1 <= i && forall x :: to - 1 < x <= i ==> items[x].indent >= items[k].indent && Parent(items, x) != Parent(items, k)
    decreases i + 1
  {
    hide Parent;
    if i >= 0 && Parent(items, i) != Parent(items, k) && items[i].indent >= items[k].indent {
      SiblingAboveIsNearest(items, k, i - 1);
    }
  }

  lemma {:induction false} SiblingBelowFound(items: seq<Line>, k: nat, i: nat, j: nat)
    requires k < i <= j < |items| && Parent(items, j) == Parent(items, k)
    requires forall x :: i <= x < j ==> items[x].indent > items[k].indent && Parent(items, x) != Parent(items, k)
    ensures SiblingScan(items, k, i, false) == j + 1
    decreases j - i
  {
    hide Parent;
    if i < j { SiblingBelowFound(items, k, i + 1, j); }
  }

  /** A level sibling found going up ends where the item begins: nothing but its own sub-tasks between them. */
  lemma LevelSiblingIsAdjacent(items: seq<Line>, index: int, to: int)
    requires 1 <= index <= |items| && to == Sibling(items, index, true) > 0
    requires items[to - 1].indent == items[index - 1].indent
    ensures to < index && to - 1 + SubtreeSize(items, to - 1) == index - 1
  {
    hide Parent, SubtreeSize;
    var f, t := index - 1, to - 1;
    SiblingAboveIsNearest(items, f, f - 1);
    SiblingsSpan(items, t, f);
    forall x | t < x < f ensures items[x].indent > items[t].indent {
      ParentIsUnique(items, f, Parent(items, f));
      ParentIsUnique(items, x, Parent(items, f));
    }
    SubtreeSizeIsUnique(items, t, f - t);
  }

  lemma {:induction false} RunTailMeets(run: seq<Line>, x: seq<Line>, y: seq<Line>, base: nat)
    requires RunTail(x, base) == 0 && RunTail(y, base) == 0
    ensures RunTail(run + x, base) == RunTail(run + y, base) <= |run|
  {
    if run == [] {
      assert run + x == x && run + y == y;
    } else {
      assert (run + x)[1..] == run[1..] + x && (run + y)[1..] == run[1..] + y;
      RunTailMeets(run[1..], x, y, base);
    }
  }

  lemma {:induction false} RunTailEnds(run: seq<Line>, x: seq<Line>, base: nat)
    requires RunTail(run + x, base) == |run|
    ensures RunTail(x, base) == 0
  {
    if run == [] {
      assert run + x == x;
    } else {
      assert (run + x)[1..] == run[1..] + x;
      RunTailEnds(run[1..], x, base);
    }
  }

  /** After a level move up, both siblings still travel with the same number of items. */
  lemma TravelAfterUp(lines: seq<Line>, f: nat, t: nat)
    requires t < f < |Items(lines)| && Accepted(lines, f + 1, t + 1) && Level(lines, f + 1, t + 1)
    ensures var mid := Move(lines, f + 1, t + 1).lines;
            var m := Travelling(lines, f);
            && t + m < |Items(mid)| && Travelling(mid, t) == m && Travelling(mid, t + m) == Travelling(lines, t)
            && LineNo(mid, t) == LineNo(lines, t)
            && SubtreeEnd(mid, LineNo(mid, t)) == LineNo(mid, t + m)
            && LineNo(mid, t + m) == LineNo(lines, t) + SubtreeEnd(lines, LineNo(lines, f)) - LineNo(lines, f)
            && SubtreeEnd(mid, LineNo(mid, t + m)) == LineNo(mid, t + m) + RunLength(lines[LineNo(lines, t)..])
            && RunLength(lines[LineNo(lines, t)..]) <= LineNo(lines, f) - LineNo(lines, t)
  {
    hide Items, LineNo, Parent, SubtreeSize, RunLength, Travelling, Whole, Move;
    var target, start, end := MoveExchangesLines(lines, f + 1, t + 1);
    ItemsBefore(lines, t);
    var above, between, block, below := lines[..target], lines[target..start], lines[start..end], lines[end..];
    assert lines[start..] == block + below && lines[target..] == between + (block + below);
    TargetIsOutside(lines, f, t);
    TravelInPieces(above, between, block, below);
    assert Move(lines, f + 1, t + 1).lines == above + block + between + below;
    TravellingIs(lines, f);
    TravellingIs(lines, t);
    var r := RunLength(between + (block + below));
    assert r == RunLength(lines[target..]) && r <= |between|;
    SliceOfSlice(lines, target, start, r);
  }

  lemma SliceOfSlice<T>(s: seq<T>, a: nat, b: nat, r: nat)
    requires a <= a + r <= b <= |s|
    ensures s[a..b][..r] == s[a..a + r]
  {
  }

  lemma TravellingIs(lines: seq<Line>, k: nat)
    requires k < |Items(lines)|
    ensures var i := LineNo(lines, k); Travelling(lines, k) == |Items(lines[i..i + RunLength(lines[i..])])|
  {
    hide Items, LineNo, RunLength;
  }

  lemma TravelInPieces(above: seq<Line>, between: seq<Line>, block: seq<Line>, below: seq<Line>)
    requires between != [] && block != [] && between[0].kind.Item? && block[0].kind.Item?
    requires between[0].indent == block[0].indent && RunLength(block + below) == |block|
    ensures var mid, t, m, r := above + block + between + below, |Items(above)|, |Items(block)|, RunLength(between + (block + below));
            && r <= |between| && t + m < |Items(mid)|
            && LineNo(mid, t) == |above| && LineNo(mid, t + m) == |above| + |block|
            && SubtreeEnd(mid, |above|) == |above| + |block|
            && SubtreeEnd(mid, |above| + |block|) == |above| + |block| + r
            && Travelling(mid, t) == m && Travelling(mid, t + m) == |Items(between[..r])|
  {
    hide Items, LineNo, RunLength, SubtreeEnd, Travelling;
    var mid := above + block + between + below;
    RunsMeet(above, between, block, below, between[0].indent);
    assert mid == above + (block + (between + below)) == (above + block) + (between + below);
    ItemAtCut(above, block + (between + below));
    ItemAtCut(above + block, between + below);
    ItemsConcat(above, block);
    assert (block + (between + below))[..|block|] == block;
    var r := RunLength(between + below);
    assert (between + below)[..r] == between[..r];
  }

  /** The first item below a cut. */
  lemma ItemAtCut(above: seq<Line>, below: seq<Line>)
    requires below != [] && below[0].kind.Item?
    ensures |Items(above)| < |Items(above + below)|
    ensures LineNo(above + below, |Items(above)|) == |above|
    ensures SubtreeEnd(above + below, |above|) == |above| + RunLength(below)
    ensures Travelling(above + below, |Items(above)|) == |Items(below[..RunLength(below)])|
  {
    hide Items, LineNo, RunLength;
    assert (above + below)[|above|] == below[0] && (above + below)[..|above|] == above;
    assert (above + below)[|above|..] == below;
    LineNoAt(above + below, |above|);
    var n := RunLength(below);
    assert (above + below)[|above|..|above| + n] == below[..n];
  }

  /** The lines that travel with either run are the same in both orders. */
  lemma RunsMeet(above: seq<Line>, between: seq<Line>, block: seq<Line>, below: seq<Line>, base: nat)
    requires between != [] && block != [] && between[0].kind.Item? && block[0].kind.Item?
    requires between[0].indent == base == block[0].indent
    requires RunLength(block + below) == |block|
    ensures RunLength(block + (between + below)) == |block|
    ensures RunLength(between + below) == RunLength(between + (block + below)) <= |between|
  {
    hide Items, LineNo;
    assert (block + below)[1..] == block[1..] + below;
    RunTailEnds(block[1..], below, base);
    assert (block + (between + below))[1..] == block[1..] + (between + below);
    assert RunTail(between + below, base) == 0 && RunTail(block + below, base) == 0;
    RunTailMeets(block[1..], below, between + below, base);
    assert (between + below)[1..] == between[1..] + below;
    assert (between + (block + below))[1..] == between[1..] + (block + below);
    RunTailMeets(between[1..], below, block + below, base);
  }

  /** What `down` does after a level `up`: the moved run and the sibling's own run change places again. */
  lemma LevelStepBack(lines: seq<Line>, index: int, to: int, mid: seq<Line>, m: nat, r: nat)
    requires 1 <= index <= |Items(lines)| && to == Sibling(Items(lines), index, true) > 0
    requires Accepted(lines, index, to) && Level(lines, index, to)
    requires Move(lines, index, to) == Moved(mid) && m == Travelling(lines, index - 1) && r == Travelling(lines, to - 1)
    ensures to - 1 + r <= index - 1 == to - 1 + SubtreeSize(Items(lines), to - 1)
    ensures Accepted(mid, to, to + m) && Stepped(mid, to, Down) == Move(mid, to, to + m).lines
    ensures to - 1 + m + r <= |Items(mid)|
    ensures Items(Stepped(mid, to, Down)) == Exchange(Items(mid), to - 1, to - 1 + m, to - 1 + m + r)
  {
    hide Items, LineNo, Parent, SubtreeSize, SubtreeEnd, RunLength, Exchange, Sibling, Travelling, Move;
    var items, f, t := Items(lines), index - 1, to - 1;
    LevelSiblingIsAdjacent(items, index, to);
    MoveKeepsTreeIff(lines, index, to);
    MoveExchangesItems(lines, index, to);
    var _, _, _ := MoveExchangesLines(lines, index, to);
    TravelAfterUp(lines, f, t);
    TravellingIsNested(lines, t);
    SiblingBelowMoved(items, Items(mid), t, f, f + m);
    MovesBack(mid, to, to + m);
    MoveExchangesItems(mid, to, to + m);
  }

  /** After an unlevel `up` whatever stands first below the moved run is too shallow to be the sibling. */
  lemma UnlevelNeverReturns(lines: seq<Line>, index: int, to: int)
    requires 1 <= index <= |Items(lines)| && to == Sibling(Items(lines), index, true) > 0
    requires Accepted(lines, index, to) && !Level(lines, index, to)
    ensures Items(Stepped(Move(lines, index, to).lines, to, Down)) != Items(lines)
  {
    hide Items, LineNo, Parent, SubtreeSize, SubtreeEnd, RunLength, Exchange, Sibling, Travelling, Move;
    var items, f, t := Items(lines), index - 1, to - 1;
    SiblingIsAbove(items, index);
    SiblingsSpan(items, t, f);
    MoveExchangesItems(lines, index, to);
    var mid := Move(lines, index, to).lines;
    var after, back := Items(mid), MoveDestination(Down, to, Items(mid));
    FirstOfExchange(items, t, f, f + Travelling(lines, f));
    assert after[t] == items[f] && items[f].indent < items[t].indent;
    DownIsBelow(after, to);
    if Accepted(mid, to, back) {
      MoveIsInRange(mid, to, back);
      MoveExchangesItems(mid, to, back);
      var _, _, _ := MoveExchangesLines(mid, to, back);
      var b := t + Travelling(mid, t);
      FirstOfExchange(after, t, b, back - 1 + Travelling(mid, back - 1));
      SubtreeSizeIsUnique(after, t, SubtreeSize(after, t));
      assert after[b].indent <= after[t].indent;
      assert Items(Stepped(mid, to, Down))[t] == after[b];
    } else {
      assert Stepped(mid, to, Down) == mid;
    }
  }

  lemma SiblingIsAbove(items: seq<Line>, index: int)
    requires 1 <= index <= |items| && Sibling(items, index, true) > 0
    ensures Sibling(items, index, true) < index
    ensures Parent(items, Sibling(items, index, true) - 1) == Parent(items, index - 1)
  {
    hide Parent;
  }

  lemma DownIsBelow(items: seq<Line>, index: int)
    requires 1 <= index <= |items|
    ensures MoveDestination(Down, index, items) > index
  {
    hide Parent;
  }

  lemma FirstOfExchange<T>(s: seq<T>, a: nat, b: nat, c: nat)
    requires a < b < c <= |s|
    ensures |Exchange(s, a, b, c)| == |s| && Exchange(s, a, b, c)[a] == s[b]
  {
  }

  lemma ExchangeBack<T>(s: seq<T>, a: nat, b: nat, c: nat, r: nat)
    requires a <= a + r < b < c <= |s|
    ensures var t := Exchange(s, a, b, c); var m := c - b;
            |t| == |s| && |Exchange(t, a, a + m, a + m + r)| == |s| && Exchange(t, a, a + m, a + m + r)[a + r] == s[b]
  {
    var t := Exchange(s, a, b, c);
    assert t[a] == s[b];
  }

  /** A split sibling comes back above the moved run, but the sub-tasks left over stay below it. */
  lemma SplitNeverReturns(lines: seq<Line>, index: int, to: int)
    requires 1 <= index <= |Items(lines)| && to == Sibling(Items(lines), index, true) > 0
    requires Accepted(lines, index, to) && Level(lines, index, to) && !Whole(lines, to - 1)
    ensures Items(Stepped(Move(lines, index, to).lines, to, Down)) != Items(lines)
  {
    hide Items, LineNo, Parent, SubtreeSize, SubtreeEnd, RunLength, Exchange, Sibling, Travelling, Move, Stepped;
    var items, f, t := Items(lines), index - 1, to - 1;
    var m, r := Travelling(lines, f), Travelling(lines, t);
    LevelStepBack(lines, index, to, Move(lines, index, to).lines, m, r);
    MoveExchangesItems(lines, index, to);
    ExchangeBack(items, t, f, f + m, r);
    TravellingIsNested(lines, t);
    WholeIs(lines, t);
    SubtreeSizeIsUnique(items, t, SubtreeSize(items, t));
    assert items[t + r].indent > items[t].indent;
  }

  /** Whether nothing stands between what travels with the sibling and the item's own line. */
  predicate Abuts(lines: seq<Line>, to: int, index: int)
    requires 1 <= to <= |Items(lines)| && 1 <= index <= |Items(lines)|
  {
    SubtreeEnd(lines, LineNo(lines, to - 1)) == LineNo(lines, index - 1)
  }

  lemma AbuttingIsWhole(lines: seq<Line>, to: int, index: int)
    requires 1 <= to < index <= |Items(lines)| && Abuts(lines, to, index)
    requires to - 1 + SubtreeSize(Items(lines), to - 1) == index - 1
    ensures Whole(lines, to - 1)
  {
    hide Items, LineNo, SubtreeSize, SubtreeEnd, Travelling;
    ItemsThrough(lines, to - 1);
    ItemsBefore(lines, index - 1);
  }

  /** The file in pieces: up exchanges two of them, and down puts back only the sibling's own run. */
  lemma PiecesBack(above: seq<Line>, between: seq<Line>, block: seq<Line>, below: seq<Line>, r: nat)
    requires r <= |between| && block != [] && block[0].kind.Item? && |Items(between[..r])| == |Items(between)|
    ensures var lines, mid := above + between + block + below, above + block + between + below;
            var out := Exchange(mid, |above|, |above| + |block|, |above| + |block| + r);
            out == lines <==> r == |between|
  {
    hide Items, Exchange;
    var lines, mid := above + between + block + below, above + block + between + below;
    var out := Exchange(mid, |above|, |above| + |block|, |above| + |block| + r);
    PutBack(above, between, block, below, r);
    if r == |between| {
      assert between[..r] == between && between[r..] == [];
    } else {
      assert between == between[..r] + between[r..];
      ItemsConcat(between[..r], between[r..]);
      FirstIsItem(between[r..]);
      assert out[|above| + r] == block[0] && lines[|above| + r] == between[r];
    }
  }

  lemma FirstIsItem(lines: seq<Line>)
    ensures lines != [] && lines[0].kind.Item? ==> Items(lines) != []
  {
  }

  lemma PutBack<T>(above: seq<T>, between: seq<T>, block: seq<T>, below: seq<T>, r: nat)
    requires r <= |between|
    ensures var mid := above + block + between + below;
            Exchange(mid, |above|, |above| + |block|, |above| + |block| + r)
            == above + between[..r] + block + (between[r..] + below)
  {
    var mid := above + block + between + below;
    assert mid[..|above|] == above && mid[|above|..|above| + |block|] == block;
    assert mid[|above| + |block|..|above| + |block| + r] == between[..r];
    assert mid[|above| + |block| + r..] == between[r..] + below;
  }

  lemma FileBackIff(lines: seq<Line>, index: int, to: int)
    requires 1 <= index <= |Items(lines)| && to == Sibling(Items(lines), index, true) > 0
    requires Accepted(lines, index, to) && Level(lines, index, to) && Whole(lines, to - 1)
    ensures Stepped(Move(lines, index, to).lines, to, Down) == lines <==> Abuts(lines, to, index)
  {
    hide Items, LineNo, Parent, SubtreeSize, SubtreeEnd, RunLength, Exchange, Sibling, Travelling, Move, Stepped;
    var f, t := index - 1, to - 1;
    var mid, m := Move(lines, index, to).lines, Travelling(lines, f);
    LevelStepBack(lines, index, to, mid, m, Travelling(lines, t));
    TravelAfterUp(lines, f, t);
    var target, start, end := MoveExchangesLines(lines, index, to);
    var r := RunLength(lines[target..]);
    var a, b, c := MoveExchangesLines(mid, to, to + m);
    var above, between, block, below := lines[..target], lines[target..start], lines[start..end], lines[end..];
    assert lines == above + between + block + below;
    assert mid == above + block + between + below by { ExchangedPieces(lines, target, start, end); }
    ItemsBefore(lines, f);
    ItemsBefore(lines, t);
    assert above + between == lines[..start];
    ItemsConcat(above, between);
    TravellingIs(lines, t);
    SliceOfSlice(lines, target, start, r);
    assert |Items(between[..r])| == |Items(between)|;
    EndOfRun(lines, target);
    PiecesBack(above, between, block, below, r);
  }

  lemma ExchangedPieces<T>(s: seq<T>, a: nat, b: nat, c: nat)
    requires a <= b <= c <= |s|
    ensures Exchange(s, a, b, c) == s[..a] + s[b..c] + s[a..b] + s[c..]
  {
  }

  lemma EndOfRun(lines: seq<Line>, i: nat)
    requires i < |lines|
    ensures SubtreeEnd(lines, i) == i + RunLength(lines[i..])
  {
  }

  /**
   `up` and then `down` from where the item landed restores the items exactly when the two siblings are
   indented alike and the one above travels whole, and the file exactly when, indented alike, nothing
   stands between what travels with the sibling and the item: no heading, no blank line, no detail.
   */
  lemma DownUndoesUpIff(lines: seq<Line>, index: int)
    requires 1 <= index <= |Items(lines)| && Sibling(Items(lines), index, true) > 0
    requires Accepted(lines, index, Sibling(Items(lines), index, true))
    ensures var to := Sibling(Items(lines), index, true);
            var out := Stepped(Move(lines, index, to).lines, to, Down);
            && (Items(out) == Items(lines) <==> Level(lines, index, to) && Whole(lines, to - 1))
            && (out == lines <==> Level(lines, index, to) && Abuts(lines, to, index))
  {
    hide Items, LineNo, Parent, SubtreeSize, SubtreeEnd, RunLength, Exchange, Sibling, Travelling, Move, Stepped, Whole, Abuts;
    var items, to := Items(lines), Sibling(Items(lines), index, true);
    var f, t := index - 1, to - 1;
    if !Level(lines, index, to) {
      UnlevelNeverReturns(lines, index, to);
    } else {
      LevelSiblingIsAdjacent(items, index, to);
      if Abuts(lines, to, index) { AbuttingIsWhole(lines, to, index); }
      if !Whole(lines, t) {
        SplitNeverReturns(lines, index, to);
      } else {
        FileBackIff(lines, index, to);
        LevelStepBack(lines, index, to, Move(lines, index, to).lines, Travelling(lines, f), Travelling(lines, t));
        WholeIs(lines, t);
        MoveExchangesItems(lines, index, to);
        ExchangeTwice(items, t, f, f + Travelling(lines, f));
      }
    }
  }

  lemma WholeIs(lines: seq<Line>, k: nat)
    requires k < |Items(lines)|
    ensures Whole(lines, k) <==> Travelling(lines, k) == SubtreeSize(Items(lines), k)
  {
    hide Items, Travelling, SubtreeSize;
  }

  /** Two items of one depth with a line of prose above the second or below it, as `up` and `down` move them. */
  lemma PlainSiblingsMove(a: Line, h: Line, b: Line)
    requires a.kind.Item? && b.kind.Item? && h.kind.Prose? && a.indent == b.indent == h.indent == 0
    ensures Items([a, h, b]) == [a, b] && Sibling([a, b], 2, true) == 1 && Move([a, h, b], 2, 1) == Moved([b, a, h])
  {
    var lines := [a, h, b];
    assert lines[1..] == [h, b] && lines[2..] == [b] && [h, b][1..] == [b] && [b][1..] == [];
    assert Items([b]) == [b] && Items([h, b]) == [b] && Items(lines) == [a, b];
    assert LineNo(lines, 0) == 0 && LineNo(lines, 1) == 2;
    assert lines[2..3] == [b] && RunLength(lines[2..]) == 1;
    assert [a, b][1..] == [b] && [a, b][2..] == [];
    assert ParentFrom([a, b], 1, 1) == -1 && ParentFrom([a, b], 0, 0) == -1;
    assert Exchange(lines, 0, 2, 3) == [b, a, h];
  }

  lemma PlainSiblingsMoveBack(b: Line, a: Line, h: Line)
    requires a.kind.Item? && b.kind.Item? && h.kind.Prose? && a.indent == b.indent == h.indent == 0
    ensures Items([b, a, h]) == [b, a] && Sibling([b, a], 1, false) == 2 && Move([b, a, h], 1, 2) == Moved([a, b, h])
  {
    var lines := [b, a, h];
    assert lines[1..] == [a, h] && lines[2..] == [h] && [a, h][1..] == [h] && [h][1..] == [];
    assert Items([h]) == [] && Items([a, h]) == [a] && Items(lines) == [b, a];
    assert LineNo(lines, 0) == 0 && LineNo(lines, 1) == 1;
    assert lines[0..1] == [b] && [b][1..] == [] && Items([b]) == [b];
    assert RunLength(lines[0..]) == 1 && RunLength(lines[1..]) == 1;
    assert [b, a][1..] == [a] && [a][1..] == [];
    assert ParentFrom([b, a], 1, 1) == -1 && ParentFrom([b, a], 0, 0) == -1;
    assert Exchange(lines, 0, 1, 2) == [a, b, h];
  }

  /** A heading between two tasks: up and down puts the second task into the first one's section. */
  lemma HeadingIsCrossed(t: Line, h: Line, x: Line)
    requires t == Line(Item, 0, "t") && h == Line(Prose, 0, "# two") && x == Line(Item, 0, "x")
    ensures Stepped([t, h, x], 2, Up) == [x, t, h]
    ensures Stepped([x, t, h], 1, Down) == [t, x, h]
  {
    hide Items, Sibling, Move;
    PlainSiblingsMove(t, h, x);
    PlainSiblingsMoveBack(x, t, h);
  }

  lemma MovesBack(lines: seq<Line>, from: int, to: int)
    requires 1 <= from < to <= |Items(lines)|
    requires Parent(Items(lines), from - 1) == Parent(Items(lines), to - 1) && Whole(lines, from - 1)
    ensures Accepted(lines, from, to)
  {
    hide Items, LineNo, Parent, SubtreeEnd, Exchange, Whole;
  }

  /** In the new order the sibling that was above is the next one below. */
  lemma SiblingBelowMoved(items: seq<Line>, after: seq<Line>, t: nat, f: nat, c: nat)
    requires SameTree(items, after, t, f, c) && t < f < c
    requires Parent(items, f) == Parent(items, t) && items[t].indent == items[f].indent
    requires c == f + SubtreeSize(items, f) && f == t + SubtreeSize(items, t)
    ensures Sibling(after, t + 1, false) == t + 1 + (c - f)
  {
    hide Parent, SubtreeSize;
    var m := c - f;
    assert Image(t, t, f, c) == t + m && Image(f, t, f, c) == t;
    assert Parent(items, t) < t;
    assert after[t + m] == items[t] && Parent(after, t + m) == Parent(items, t);
    assert after[t] == items[f] && Parent(after, t) == Parent(items, t);
    SubtreeSizeIsUnique(items, f, SubtreeSize(items, f));
    forall x | t + 1 <= x < t + m ensures after[x].indent > after[t].indent && Parent(after, x) != Parent(after, t) {
      assert Image(f + x - t, t, f, c) == x && after[x] == items[f + x - t];
      ParentIsUnique(after, x, Parent(after, x));
    }
    SiblingBelowFound(after, t, t + 1, t + m);
  }
}
