/**
 A markdown checklist as the lines of its file. Items are addressed by their position among all
 checklist items, counted from 1; positions inside this module's sequences count from 0.
 */
module Checklist {
  datatype Kind = Blank | Prose | Item

  /** `indent` is the number of leading blanks, `text` everything after them, mark included. */
  datatype Line = Line(kind: Kind, indent: nat, text: string)

  // ----- parsing -----

  /** The checklist items of a file, in file order. */
  function Items(lines: seq<Line>): seq<Line> {
    if lines == [] then []
    else (if lines[0].kind.Item? then [lines[0]] else []) + Items(lines[1..])
  }

  /** The line the item at position k stands on. */
  function LineNo(lines: seq<Line>, k: nat): (i: nat)
    requires k < |Items(lines)|
    ensures i < |lines| && lines[i].kind.Item? && lines[i] == Items(lines)[k]
  {
    if !lines[0].kind.Item? then 1 + LineNo(lines[1..], k)
    else if k == 0 then 0
    else 1 + LineNo(lines[1..], k - 1)
  }

  // ----- the tree the indentation spells -----

  /** The nearest item above position k that is indented strictly less, or -1. */
  function Parent(items: seq<Line>, k: nat): (p: int)
    requires k < |items|
    ensures -1 <= p < k
  {
    ParentFrom(items, k, k)
  }

  function ParentFrom(items: seq<Line>, k: nat, below: nat): (p: int)
    requires below <= k < |items|
    ensures -1 <= p < below
    decreases below
  {
    if below == 0 then -1
    else if items[below - 1].indent < items[k].indent then below - 1
    else ParentFrom(items, k, below - 1)
  }

  ghost predicate IsParent(items: seq<Line>, k: nat, p: int)
    requires k < |items|
  {
    && -1 <= p < k
    && (p >= 0 ==> items[p].indent < items[k].indent)
    && (forall x :: p < x < k ==> items[x].indent >= items[k].indent)
  }

  lemma ParentIsUnique(items: seq<Line>, k: nat, p: int)
    requires k < |items|
    ensures IsParent(items, k, Parent(items, k))
    ensures IsParent(items, k, p) ==> p == Parent(items, k)
  {
    ParentFromIsNearest(items, k, k);
  }

  lemma {:induction false} ParentFromIsNearest(items: seq<Line>, k: nat, below: nat)
    requires below <= k < |items|
    ensures var p := ParentFrom(items, k, below);
            && (p >= 0 ==> items[p].indent < items[k].indent)
            && (forall x :: p < x < below ==> items[x].indent >= items[k].indent)
    decreases below
  {
    if below > 0 { ParentFromIsNearest(items, k, below - 1); }
  }

  /** How many items are nested under the one at position k, itself included. */
  function SubtreeSize(items: seq<Line>, k: nat): (n: nat)
    requires k < |items|
    ensures 1 <= n <= |items| - k
  {
    1 + DeeperRun(items[k + 1..], items[k].indent)
  }

  function DeeperRun(items: seq<Line>, indent: nat): (n: nat)
    ensures n <= |items|
  {
    if items == [] || items[0].indent <= indent then 0 else 1 + DeeperRun(items[1..], indent)
  }

  lemma {:induction false} DeeperRunIsMaximal(items: seq<Line>, indent: nat)
    ensures var n := DeeperRun(items, indent);
            && (forall x :: 0 <= x < n ==> items[x].indent > indent)
            && (n < |items| ==> items[n].indent <= indent)
  {
    if items != [] && items[0].indent > indent { DeeperRunIsMaximal(items[1..], indent); }
  }

  ghost predicate IsSubtree(items: seq<Line>, k: nat, n: nat)
    requires k < |items|
  {
    && 1 <= n <= |items| - k
    && (forall x :: k < x < k + n ==> items[x].indent > items[k].indent)
    && (k + n < |items| ==> items[k + n].indent <= items[k].indent)
  }

  lemma SubtreeSizeIsUnique(items: seq<Line>, k: nat, n: nat)
    requires k < |items|
    ensures IsSubtree(items, k, SubtreeSize(items, k))
    ensures IsSubtree(items, k, n) ==> n == SubtreeSize(items, k)
  {
    var m := SubtreeSize(items, k);
    var below, indent := items[k + 1..], items[k].indent;
    DeeperRunIsMaximal(below, indent);
    forall x | k < x < k + m ensures items[x].indent > indent { assert items[x] == below[x - k - 1]; }
    assert k + m < |items| ==> items[k + m] == below[m - 1];
  }

  /**
   The run of lines that travels with lines[0] when it moves: everything indented deeper, interior
   blanks included, trailing ones not.
   */
  function RunLength(lines: seq<Line>): (n: nat)
    requires lines != []
    ensures 1 <= n <= |lines|
  {
    1 + RunTail(lines[1..], lines[0].indent)
  }

  function RunTail(lines: seq<Line>, base: nat): (n: nat)
    ensures n <= |lines|
  {
    if lines == [] then 0
    else if lines[0].kind.Blank? then
      var n := RunTail(lines[1..], base);
      if n == 0 then 0 else n + 1
    else if lines[0].indent <= base then 0
    else 1 + RunTail(lines[1..], base)
  }

  function SubtreeEnd(lines: seq<Line>, i: nat): (end: nat)
    requires i < |lines|
    ensures i < end <= |lines|
  {
    i + RunLength(lines[i..])
  }

  // ----- the loops of tasklist.go -----

  method ChecklistParent(items: seq<Line>, k: nat) returns (p: int)
    requires k < |items|
    ensures p == Parent(items, k)
  {
    var i := k;
    while i > 0
      invariant 0 <= i <= k
      invariant ParentFrom(items, k, i) == Parent(items, k)
    {
      i := i - 1;
      if items[i].indent < items[k].indent { return i; }
    }
    return -1;
  }

  method CountSubtree(items: seq<Line>, index: int) returns (n: nat)
    ensures n == if 1 <= index <= |items| then SubtreeSize(items, index - 1) else 0
  {
    if index < 1 || index > |items| { return 0; }
    n := 1;
    var i: nat := index;
    while i < |items| && items[i].indent > items[index - 1].indent
      invariant index <= i <= |items| && n == i - index + 1
      invariant forall x: nat :: index <= x < i ==> items[x].indent > items[index - 1].indent
    {
      n := n + 1;
      i := i + 1;
    }
    SubtreeSizeIsUnique(items, index - 1, n);
  }

  method FindSubtreeEnd(lines: seq<Line>, i: nat) returns (end: nat)
    requires i < |lines|
    ensures end == SubtreeEnd(lines, i)
  {
    var base := lines[i].indent;
    end := i + 1;
    var j := i + 1;
    assert lines[i..][1..] == lines[i + 1..];
    while j < |lines|
      invariant i < end <= j <= |lines|
      invariant RunTail(lines[j..], base) == 0 ==> SubtreeEnd(lines, i) == end
      invariant RunTail(lines[j..], base) > 0 ==> SubtreeEnd(lines, i) == j + RunTail(lines[j..], base)
    {
      assert lines[j..][0] == lines[j] && lines[j..][1..] == lines[j + 1..];
      if !lines[j].kind.Blank? {
        if lines[j].indent <= base { return; }
        end := j + 1;
      }
      j := j + 1;
    }
  }

  /** One sibling step from 1-based `index`, up or down; 0 when there is no sibling that way. */
  function Sibling(items: seq<Line>, index: int, up: bool): (to: int)
    ensures 0 <= to <= |items|
  {
    if index < 1 || index > |items| then 0
    else SiblingScan(items, index - 1, if up then index - 2 else index, up)
  }

  function SiblingScan(items: seq<Line>, k: nat, i: int, up: bool): (to: int)
    requires k < |items| && -1 <= i <= |items|
    ensures 0 <= to <= |items|
    ensures to > 0 ==> Parent(items, to - 1) == Parent(items, k) && (if up then to - 1 <= i else i <= to - 1)
    decreases if up then i + 1 else |items| - i
  {
    if i < 0 || i >= |items| then 0
    else if Parent(items, i) == Parent(items, k) then i + 1
    else if items[i].indent < items[k].indent then 0
    else SiblingScan(items, k, if up then i - 1 else i + 1, up)
  }

  method SiblingPosition(items: seq<Line>, index: int, up: bool) returns (to: int)
    ensures to == Sibling(items, index, up)
  {
    if index < 1 || index > |items| { return 0; }
    var parent := ChecklistParent(items, index - 1);
    var i := if up then index - 2 else index;
    while 0 <= i < |items|
      invariant -1 <= i <= |items|
      invariant SiblingScan(items, index - 1, i, up) == Sibling(items, index, up)
      decreases if up then i + 1 else |items| - i
    {
      var p := ChecklistParent(items, i);
      if p == parent { return i + 1; }
      if items[i].indent < items[index - 1].indent { return 0; }
      i := if up then i - 1 else i + 1;
    }
    return 0;
  }

  // ----- moving an item with its subtree -----

  datatype MoveError = OutOfRange | DifferentParents | SplitSubtree

  datatype MoveResult = Moved(lines: seq<Line>) | Refused(error: MoveError)

  /** Exchanges the adjacent runs [a, b) and [b, c). */
  function Exchange<T>(s: seq<T>, a: nat, b: nat, c: nat): seq<T>
    requires a <= b <= c <= |s|
  {
    s[..a] + s[b..c] + s[a..b] + s[c..]
  }

  /** The number of items that travel with the item at position k. */
  function Travelling(lines: seq<Line>, k: nat): nat
    requires k < |Items(lines)|
  {
    var i := LineNo(lines, k);
    |Items(lines[i..SubtreeEnd(lines, i)])|
  }

  /** Whether everything nested under the item at position k lies in the run of lines that travels with it. */
  predicate Whole(lines: seq<Line>, k: nat)
    requires k < |Items(lines)|
  {
    Travelling(lines, k) == SubtreeSize(Items(lines), k)
  }

  /** Moving the item at 1-based `from` past its sibling at `to`. */
  function Move(lines: seq<Line>, from: int, to: int): MoveResult {
    var items := Items(lines);
    if from < 1 || from > |items| || to < 1 || to > |items| then Refused(OutOfRange)
    else if from == to then Moved(lines)
    else if Parent(items, from - 1) != Parent(items, to - 1) then Refused(DifferentParents)
    else if !Whole(lines, from - 1) then Refused(SplitSubtree)
    else
      TargetIsOutside(lines, from - 1, to - 1);
      var start, target := LineNo(lines, from - 1), LineNo(lines, to - 1);
      if to < from then Moved(Exchange(lines, target, start, SubtreeEnd(lines, start)))
      else Moved(Exchange(lines, start, SubtreeEnd(lines, start), SubtreeEnd(lines, target)))
  }

  lemma {:induction false} ItemsConcat(a: seq<Line>, b: seq<Line>)
    ensures Items(a + b) == Items(a) + Items(b)
  {
    if a == [] {
      assert a + b == b;
    } else {
      assert (a + b)[1..] == a[1..] + b;
      ItemsConcat(a[1..], b);
    }
  }

  lemma {:induction false} ItemsBefore(lines: seq<Line>, k: nat)
    requires k < |Items(lines)|
    ensures |Items(lines[..LineNo(lines, k)])| == k
  {
    var i := LineNo(lines, k);
    if i > 0 {
      assert lines[..i][0] == lines[0] && lines[..i][1..] == lines[1..][..i - 1];
      ItemsBefore(lines[1..], if lines[0].kind.Item? then k - 1 else k);
    }
  }

  /** Counting the items above a line gives its position back. */
  lemma {:induction false} LineNoAt(lines: seq<Line>, i: nat)
    requires i < |lines| && lines[i].kind.Item?
    ensures |Items(lines[..i])| < |Items(lines)| && LineNo(lines, |Items(lines[..i])|) == i
  {
    if i > 0 {
      assert lines[..i][0] == lines[0] && lines[..i][1..] == lines[1..][..i - 1];
      LineNoAt(lines[1..], i - 1);
    }
  }

  lemma LineNoLeft(a: seq<Line>, b: seq<Line>, k: nat)
    requires k < |Items(a)|
    ensures k < |Items(a + b)| && LineNo(a + b, k) == LineNo(a, k)
  {
    var i := LineNo(a, k);
    ItemsBefore(a, k);
    assert (a + b)[..i] == a[..i];
    LineNoAt(a + b, i);
  }

  lemma LineNoRight(a: seq<Line>, b: seq<Line>, k: nat)
    requires k < |Items(b)|
    ensures |Items(a)| + k < |Items(a + b)| && LineNo(a + b, |Items(a)| + k) == |a| + LineNo(b, k)
  {
    var i := LineNo(b, k);
    ItemsBefore(b, k);
    assert (a + b)[..|a| + i] == a + b[..i];
    ItemsConcat(a, b[..i]);
    LineNoAt(a + b, |a| + i);
  }

  /** An item at or past a cut stands at or past the cut, and keeps its distance from it. */
  lemma LineNoPast(lines: seq<Line>, cut: nat, k: nat)
    requires cut <= |lines| && |Items(lines[..cut])| <= k < |Items(lines)|
    ensures k - |Items(lines[..cut])| < |Items(lines[cut..])|
    ensures LineNo(lines, k) == cut + LineNo(lines[cut..], k - |Items(lines[..cut])|)
  {
    assert lines == lines[..cut] + lines[cut..];
    ItemsConcat(lines[..cut], lines[cut..]);
    LineNoRight(lines[..cut], lines[cut..], k - |Items(lines[..cut])|);
  }

  lemma LineNoShort(lines: seq<Line>, cut: nat, k: nat)
    requires cut <= |lines| && k < |Items(lines[..cut])|
    ensures k < |Items(lines)| && LineNo(lines, k) == LineNo(lines[..cut], k) < cut
  {
    assert lines == lines[..cut] + lines[cut..];
    LineNoLeft(lines[..cut], lines[cut..], k);
  }

  /** The items of a file cut at an item's line and at the end of what travels with it. */
  lemma ItemsThrough(lines: seq<Line>, k: nat)
    requires k < |Items(lines)|
    ensures |Items(lines[..SubtreeEnd(lines, LineNo(lines, k))])| == k + Travelling(lines, k)
  {
    var i := LineNo(lines, k);
    var end := SubtreeEnd(lines, i);
    ItemsBefore(lines, k);
    ItemsConcat(lines[..i], lines[i..end]);
    assert lines[..end] == lines[..i] + lines[i..end];
  }

  /** The sibling a task is moved past never stands inside the lines that travel with the task. */
  lemma TargetIsOutside(lines: seq<Line>, f: nat, t: nat)
    requires f < |Items(lines)| && t < |Items(lines)| && f != t
    requires Parent(Items(lines), f) == Parent(Items(lines), t) && Whole(lines, f)
    ensures t < f ==> LineNo(lines, t) < LineNo(lines, f)
    ensures f < t ==> f + Travelling(lines, f) <= t
                      && SubtreeEnd(lines, LineNo(lines, f)) <= LineNo(lines, t)
  {
    var items := Items(lines);
    if t < f {
      ItemsBefore(lines, f);
      LineNoShort(lines, LineNo(lines, f), t);
    } else {
      ParentIsUnique(items, t, Parent(items, t));
      SubtreeSizeIsUnique(items, f, SubtreeSize(items, f));
      assert items[f].indent >= items[t].indent;
      ItemsThrough(lines, f);
      LineNoPast(lines, SubtreeEnd(lines, LineNo(lines, f)), t);
    }
  }

  lemma ExchangeByCutting<T>(s: seq<T>, a: nat, b: nat, c: nat)
    requires a <= b <= c <= |s|
    ensures var rest := s[..b] + s[c..]; rest[..a] + s[b..c] + rest[a..] == Exchange(s, a, b, c)
    ensures var rest := s[..a] + s[b..]; var at := c - (b - a); rest[..at] + s[a..b] + rest[at..] == Exchange(s, a, b, c)
  {
  }

  /** After the cut an item above it stands where it stood. */
  lemma RestAbove(lines: seq<Line>, start: nat, end: nat, t: nat)
    requires start <= end <= |lines| && t < |Items(lines[..start])|
    ensures t < |Items(lines)| && t < |Items(lines[..start] + lines[end..])|
    ensures LineNo(lines[..start] + lines[end..], t) == LineNo(lines, t)
  {
    LineNoShort(lines, start, t);
    LineNoLeft(lines[..start], lines[end..], t);
  }

  lemma SubtreeEndRight(a: seq<Line>, b: seq<Line>, i: nat)
    requires i < |b|
    ensures SubtreeEnd(a + b, |a| + i) == |a| + SubtreeEnd(b, i)
  {
    assert (a + b)[|a| + i..] == b[i..];
  }

  /** What stands below a cut, and the lines that travel with it, only moves up by the cut. */
  lemma RestBelow(above: seq<Line>, cut: seq<Line>, below: seq<Line>, j: nat)
    requires j < |Items(below)|
    ensures var t := |Items(above)| + |Items(cut)| + j;
            && t < |Items(above + cut + below)| && |Items(above)| + j < |Items(above + below)|
            && LineNo(above + cut + below, t) == |above| + |cut| + LineNo(below, j)
            && LineNo(above + below, |Items(above)| + j) == |above| + LineNo(below, j)
            && SubtreeEnd(above + cut + below, |above| + |cut| + LineNo(below, j))
               == |cut| + SubtreeEnd(above + below, |above| + LineNo(below, j))
  {
    hide Items, LineNo, SubtreeEnd;
    ItemsConcat(above, cut);
    LineNoRight(above + cut, below, j);
    LineNoRight(above, below, j);
    SubtreeEndRight(above + cut, below, LineNo(below, j));
    SubtreeEndRight(above, below, LineNo(below, j));
  }

  /** Cutting the subtree first and locating the target in what remains, as the program does it. */
  method MoveChecklistItem(lines: seq<Line>, from: int, to: int) returns (r: MoveResult)
    ensures r == Move(lines, from, to)
  {
    var items := Items(lines);
    if from < 1 || from > |items| { return Refused(OutOfRange); }
    if to < 1 || to > |items| { return Refused(OutOfRange); }
    if from == to { return Moved(lines); }
    var a := ChecklistParent(items, from - 1);
    var b := ChecklistParent(items, to - 1);
    if a != b { return Refused(DifferentParents); }
    var start := LineNo(lines, from - 1);
    var end := FindSubtreeEnd(lines, start);
    var moved := |Items(lines[start..end])|;
    var want := CountSubtree(items, from);
    if moved != want { return Refused(SplitSubtree); }
    var out := CutAndInsert(lines, from, to, start, end, moved);
    r := Moved(out);
  }

  method CutAndInsert(lines: seq<Line>, from: int, to: int, start: nat, end: nat, moved: nat) returns (out: seq<Line>)
    requires 1 <= from <= |Items(lines)| && 1 <= to <= |Items(lines)| && from != to
    requires Parent(Items(lines), from - 1) == Parent(Items(lines), to - 1) && Whole(lines, from - 1)
    requires start == LineNo(lines, from - 1) && end == SubtreeEnd(lines, start) && moved == Travelling(lines, from - 1)
    ensures Move(lines, from, to) == Moved(out)
  {
    hide Items, LineNo, Parent, SubtreeSize, SubtreeEnd, Exchange, Travelling;
    var above, block, below := lines[..start], lines[start..end], lines[end..];
    var rest := above + below;
    TargetIsOutside(lines, from - 1, to - 1);
    ItemsBefore(lines, from - 1);
    var at;
    if to > from {
      BelowTheCut(lines, from, to, start, end, moved);
      var anchor := LineNo(rest, to - moved - 1);
      at := FindSubtreeEnd(rest, anchor);
      ExchangeByCutting(lines, start, end, SubtreeEnd(lines, LineNo(lines, to - 1)));
    } else {
      RestAbove(lines, start, end, to - 1);
      at := LineNo(rest, to - 1);
      ExchangeByCutting(lines, at, start, end);
    }
    out := rest[..at] + block + rest[at..];
  }

  lemma BelowTheCut(lines: seq<Line>, from: int, to: int, start: nat, end: nat, moved: nat)
    requires 1 <= from < to <= |Items(lines)|
    requires Parent(Items(lines), from - 1) == Parent(Items(lines), to - 1) && Whole(lines, from - 1)
    requires start == LineNo(lines, from - 1) && end == SubtreeEnd(lines, start) && moved == Travelling(lines, from - 1)
    ensures from + moved <= to
    ensures var rest := lines[..start] + lines[end..];
            && to - moved - 1 < |Items(rest)|
            && SubtreeEnd(rest, LineNo(rest, to - moved - 1)) == SubtreeEnd(lines, LineNo(lines, to - 1)) - (end - start)
  {
    hide Items, LineNo, SubtreeEnd;
    var above, block, below := lines[..start], lines[start..end], lines[end..];
    TargetIsOutside(lines, from - 1, to - 1);
    ItemsBefore(lines, from - 1);
    var j := to - 1 - (from - 1) - moved;
    assert lines == above + block + below;
    ItemsConcat(above + block, below);
    ItemsConcat(above, block);
    RestBelow(above, block, below, j);
  }

  // ----- the command around it -----

  /** Where the program says the moved item ends up, computed from the list before the move. */
  function MoveLanding(items: seq<Line>, from: int, to: int): int {
    if to < from then to else to + SizeAt(items, to) - SizeAt(items, from)
  }

  /** The size of the subtree at a position counted from 1; nothing has none. */
  function SizeAt(items: seq<Line>, n: int): nat {
    if 1 <= n <= |items| then SubtreeSize(items, n - 1) else 0
  }

  datatype Destination = Up | Down | Position(n: int)

  /** Off the end in the direction asked for, when a relative step finds no sibling. */
  function MoveDestination(arg: Destination, index: int, items: seq<Line>): int {
    match arg
    case Up => Sibling(items, index, true)
    case Down => if Sibling(items, index, false) > 0 then Sibling(items, index, false) else |items| + 1
    case Position(n) => n
  }

  /** The file as the command leaves it: the move when one is made, else the file as it was. */
  function Stepped(lines: seq<Line>, index: int, arg: Destination): seq<Line> {
    var r := Move(lines, index, MoveDestination(arg, index, Items(lines)));
    if r.Moved? then r.lines else lines
  }

  datatype Reply =
    | AtTheEdge(index: int, bottom: bool)
    | AlreadyThere(index: int)
    | Reported(index: int, landing: int, lines: seq<Line>)
    | TaskChanged
    | Failed(error: MoveError)

  /** Under the lock the file is read again; the move goes on only if the item still carries the words it was named by. */
  predicate StillThere(seen: seq<Line>, file: seq<Line>, index: int, sameWords: (Line, Line) -> bool) {
    1 <= index <= |Items(seen)| && index <= |Items(file)| && sameWords(Items(seen)[index - 1], Items(file)[index - 1])
  }

  /**
   `move <item> <up|down|position>`: destination and reported landing are decided from the list as it was
   seen, and the lines are moved in the file as it is when it is written.
   */
  method TaskMove(seen: seq<Line>, file: seq<Line>, index: int, arg: Destination, sameWords: (Line, Line) -> bool)
    returns (r: Reply)
    requires 1 <= index <= |Items(seen)|
    ensures var to := MoveDestination(arg, index, Items(seen));
            && (r.AtTheEdge? <==> !arg.Position? && !(1 <= to <= |Items(seen)|))
            && (r.AtTheEdge? ==> r.bottom == arg.Down? && r.index == index)
            && (r.AlreadyThere? <==> to == index)
            && (r.TaskChanged? <==> !r.AtTheEdge? && !r.AlreadyThere? && !StillThere(seen, file, index, sameWords))
            && (r.Failed? ==> Move(file, index, to) == Refused(r.error))
            && (r.Reported? ==> Move(file, index, to) == Moved(r.lines) && r.landing == MoveLanding(Items(seen), index, to)
                                && r.index == index)
    ensures seen == file && sameWords(Items(seen)[index - 1], Items(seen)[index - 1]) ==>
              Stepped(file, index, arg) == (if r.Reported? then r.lines else file)
  {
    hide Move, Items, Sibling, SubtreeSize, Parent;
    var items := Items(seen);
    var to := ResolveDestination(items, index, arg);
    StandingStill(file, index, to);
    if !arg.Position? && (to < 1 || to > |items|) {
      return AtTheEdge(index, to > index);
    }
    if to == index {
      return AlreadyThere(index);
    }
    var now := Items(file);
    if index > |now| || !sameWords(items[index - 1], now[index - 1]) {
      return TaskChanged;
    }
    var result := MoveChecklistItem(file, index, to);
    match result {
      case Refused(error) => return Failed(error);
      case Moved(after) =>
        var landing := to;
        if to > index {
          var there := CountSubtree(items, to);
          var here := CountSubtree(items, index);
          landing := to + there - here;
        }
        return Reported(index, landing, after);
    }
  }

  /** One sibling up or down, or the position typed. */
  method ResolveDestination(items: seq<Line>, index: int, arg: Destination) returns (to: int)
    requires 1 <= index <= |items|
    ensures to == MoveDestination(arg, index, items)
    ensures !arg.Position? && !(1 <= to <= |items|) ==> (to > index <==> arg.Down?)
    ensures arg.Up? ==> 0 <= to <= |items|
  {
    match arg {
      case Up => to := SiblingPosition(items, index, true);
      case Down =>
        to := SiblingPosition(items, index, false);
        if to <= 0 { to := |items| + 1; }
      case Position(n) => to := n;
    }
  }

  lemma StandingStill(lines: seq<Line>, from: int, to: int)
    ensures from == to ==> (Move(lines, from, to).Moved? ==> Move(lines, from, to).lines == lines)
    ensures !(1 <= to <= |Items(lines)|) ==> Move(lines, from, to) == Refused(OutOfRange)
  {
  }
}
