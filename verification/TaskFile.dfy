/**
 The marks of a task checklist and the locked read-modify-writes of an unattended hand-out. Indices are
 positions counted from 1, 0 standing for none recorded.
 */
module TaskFile {
  const OPEN := ' '
  const IN_PROGRESS := '-'

  /** `id` names the line itself across edits. No operation reads it; the history of marks does. */
  datatype Task = Task(id: nat, text: string, mark: char)

  datatype Edit = Edited(tasks: seq<Task>, index: nat) | Refused

  function WithMark(tasks: seq<Task>, index: nat, mark: char): seq<Task>
    requires 1 <= index <= |tasks|
  {
    tasks[index - 1 := tasks[index - 1].(mark := mark)]
  }

  predicate IsOpen(tasks: seq<Task>, index: nat, text: string) {
    1 <= index <= |tasks| && tasks[index - 1].text == text && tasks[index - 1].mark == OPEN
  }

  predicate IsInProgress(tasks: seq<Task>, index: nat, text: string) {
    1 <= index <= |tasks| && tasks[index - 1].text == text && tasks[index - 1].mark == IN_PROGRESS
  }

  /** The first open task carrying the text, 0 when there is none. */
  function FirstOpen(tasks: seq<Task>, text: string): (index: nat)
    ensures index <= |tasks|
  {
    FirstOpenFrom(tasks, text, 1)
  }

  function FirstOpenFrom(tasks: seq<Task>, text: string, from: nat): (index: nat)
    requires 1 <= from
    ensures index == 0 || (from <= index <= |tasks| && IsOpen(tasks, index, text))
    decreases |tasks| + 1 - from
  {
    if from > |tasks| then 0
    else if IsOpen(tasks, from, text) then from
    else FirstOpenFrom(tasks, text, from + 1)
  }

  lemma {:induction false} FirstOpenIsFirst(tasks: seq<Task>, text: string, from: nat)
    requires 1 <= from
    ensures var k := FirstOpenFrom(tasks, text, from);
            forall j :: from <= j <= |tasks| && (k == 0 || j < k) ==> !IsOpen(tasks, j, text)
    decreases |tasks| + 1 - from
  {
    if from <= |tasks| && !IsOpen(tasks, from, text) { FirstOpenIsFirst(tasks, text, from + 1); }
  }

  function ReserveFirstPending(tasks: seq<Task>, text: string): Edit {
    var k := FirstOpen(tasks, text);
    if k == 0 then Refused else Edited(WithMark(tasks, k, IN_PROGRESS), k)
  }

  /** Undoes a reservation, and only while the task still carries its text and its mark. */
  function Release(tasks: seq<Task>, index: nat, text: string): Edit {
    if IsInProgress(tasks, index, text) then Edited(WithMark(tasks, index, OPEN), index) else Refused
  }

  /** The one place in the list the text appears at. */
  predicate Sole(tasks: seq<Task>, index: nat, text: string) {
    && 1 <= index <= |tasks| && tasks[index - 1].text == text
    && forall j :: 0 <= j < |tasks| && j != index - 1 ==> tasks[j].text != text
  }

  ghost function SolePlace(tasks: seq<Task>, text: string): (index: nat)
    ensures index == 0 || Sole(tasks, index, text)
    ensures forall k :: Sole(tasks, k, text) ==> index == k
  {
    if exists k: nat :: Sole(tasks, k, text) then var k: nat :| Sole(tasks, k, text); k else 0
  }

  /** The recorded place while it is still this reservation's; else the sole place of its text; else none. */
  ghost function ReclaimPlace(tasks: seq<Task>, index: nat, text: string): (k: nat)
    ensures k == 0 || IsInProgress(tasks, k, text)
  {
    if IsInProgress(tasks, index, text) then index
    else if IsInProgress(tasks, SolePlace(tasks, text), text) then SolePlace(tasks, text)
    else 0
  }

  ghost function Reclaim(tasks: seq<Task>, index: nat, text: string): Edit {
    var k := ReclaimPlace(tasks, index, text);
    if k == 0 then Refused else Edited(WithMark(tasks, k, OPEN), k)
  }

  predicate InProgress(tasks: seq<Task>, text: string) {
    exists k :: 1 <= k <= |tasks| && IsInProgress(tasks, k, text)
  }

  /** The texts of the open tasks, in file order. */
  function Pending(tasks: seq<Task>): seq<string> {
    if tasks == [] then []
    else (if tasks[0].mark == OPEN then [tasks[0].text] else []) + Pending(tasks[1..])
  }

  /** A reservation and its release give the list back. */
  lemma ReserveThenRelease(tasks: seq<Task>, text: string)
    ensures ReserveFirstPending(tasks, text).Edited? ==>
              var e := ReserveFirstPending(tasks, text);
              Release(e.tasks, e.index, text) == Edited(tasks, e.index)
  {
    var e := ReserveFirstPending(tasks, text);
    if e.Edited? {
      assert WithMark(e.tasks, e.index, OPEN) == tasks;
    }
  }

  /**
   The daemon takes back its own reservation whatever was inserted, deleted or moved above it, as long
   as the text is not repeated; a repeated text is refused unless the recorded place still holds.
   */
  lemma ReclaimFindsIff(tasks: seq<Task>, index: nat, text: string)
    ensures Reclaim(tasks, index, text).Edited? <==>
              IsInProgress(tasks, index, text) || (exists k :: Sole(tasks, k, text) && IsInProgress(tasks, k, text))
  {
    if k: nat :| Sole(tasks, k, text) && IsInProgress(tasks, k, text) {
      assert SolePlace(tasks, text) == k;
    }
  }

  // ----- the scans as they run -----

  method ReserveTask(tasks: seq<Task>, text: string) returns (e: Edit)
    ensures e == ReserveFirstPending(tasks, text)
  {
    for i := 0 to |tasks|
      invariant FirstOpenFrom(tasks, text, 1) == FirstOpenFrom(tasks, text, i + 1)
    {
      if tasks[i].mark != OPEN || tasks[i].text != text { continue; }
      return Edited(tasks[i := tasks[i].(mark := IN_PROGRESS)], i + 1);
    }
    return Refused;
  }

  method ReclaimTask(tasks: seq<Task>, index: nat, text: string) returns (e: Edit)
    ensures e == Reclaim(tasks, index, text)
  {
    var occurrences, found := 0, 0;
    ghost var lastAt := 0;
    for i := 0 to |tasks|
      invariant index > i || !IsInProgress(tasks, index, text)
      invariant found == 0 || (found <= i && IsInProgress(tasks, found, text))
      invariant found == 0 ==> forall j :: 0 <= j < i ==> !(tasks[j].text == text && tasks[j].mark == IN_PROGRESS)
      invariant occurrences == 0 ==> forall j :: 0 <= j < i ==> tasks[j].text != text
      invariant occurrences > 0 ==> 1 <= lastAt <= i && tasks[lastAt - 1].text == text
      invariant occurrences == 1 ==> forall j :: 0 <= j < i && j != lastAt - 1 ==> tasks[j].text != text
      invariant occurrences > 1 ==> exists j :: 0 <= j < lastAt - 1 && tasks[j].text == text
    {
      if tasks[i].text != text { continue; }
      occurrences, lastAt := occurrences + 1, i + 1;
      if tasks[i].mark != IN_PROGRESS { continue; }
      if i + 1 == index {
        return Edited(tasks[i := tasks[i].(mark := OPEN)], i + 1);
      }
      found := i + 1;
    }
    if found == 0 { return Refused; }
    if occurrences > 1 { return Refused; }
    assert Sole(tasks, found, text);
    return Edited(tasks[found - 1 := tasks[found - 1].(mark := OPEN)], found);
  }

  method HasInProgress(tasks: seq<Task>, text: string) returns (found: bool)
    ensures found == InProgress(tasks, text)
  {
    for i := 0 to |tasks|
      invariant forall k :: 1 <= k <= i ==> !IsInProgress(tasks, k, text)
    {
      if tasks[i].text == text && tasks[i].mark == IN_PROGRESS {
        assert IsInProgress(tasks, i + 1, text);
        return true;
      }
    }
    return false;
  }
}
