/**
 The bound on hand-outs is exact: it holds of every line of an open text, over every run, if and only if
 no other line of the text is open, no row of an earlier hand-out is left in the ledger and none is under
 way. Lines that share a text, and hand-outs before and after an edit, share one counter.
 */
module HandOutLimits {
  import opened Wrappers
  import opened IdleClock
  import TaskFile
  import opened HandOut
  import opened HandOutRuns
  import opened HandOutSweeps
  import opened HandOutBounds

  /** The hand-outs of one line under one text. */
  function Handed(log: seq<Event>, key: Key, task: nat): nat {
    if log == [] then 0
    else
      var e := log[|log| - 1];
      Handed(log[..|log| - 1], key, task) + if (e.Sent? || e.Failed?) && e.flight.key == key && e.flight.task == task then 1 else 0
  }

  lemma HandedGrows(log: seq<Event>, e: Event, key: Key, task: nat)
    ensures Handed(log + [e], key, task) ==
            Handed(log, key, task) + if (e.Sent? || e.Failed?) && e.flight.key == key && e.flight.task == task then 1 else 0
  {
    assert (log + [e])[..|log + [e]| - 1] == log;
  }

  lemma {:induction false} HandedIsCounted(log: seq<Event>, more: seq<Event>, key: Key, task: nat)
    ensures Handed(log + more, key, task) - Handed(log, key, task) <= Count(log + more, key) - Count(log, key)
  {
    if more == [] {
      assert log + more == log;
    } else {
      var n := |more| - 1;
      HandedIsCounted(log, more[..n], key, task);
      assert log + more == (log + more[..n]) + [more[n]];
      HandedGrows(log + more[..n], more[n], key, task);
      CountGrows(log + more[..n], more[n], key);
    }
  }

  // ----- a history only grows -----

  lemma {:induction false} ReclaimGrowsLog(w: World, ledger: seq<Row>, v: View)
    ensures w.log <= ReclaimAll(w, ledger, v).world.log
  {
    hide SettleRow, Awaits;
    if ledger != [] {
      var n := |ledger| - 1;
      ReclaimGrowsLog(w, ledger[..n], v);
      var es := SettleLogs(ReclaimAll(w, ledger[..n], v).world, ledger[n], v);
    }
  }

  lemma StepGrowsLog(w: World, s: Step)
    ensures w.log <= Act(w, s).log
  {
    hide ReclaimAll, Ledger, Apply, TaskFile.FirstOpen;
    if s.Swept? { ReclaimGrowsLog(Ticked(w, [Listing(s.view.agents, s.view.now)]), Ledger(w.rows, w.issued), s.view); }
  }

  lemma {:induction false} RunGrowsLog(w: World, steps: seq<Step>)
    ensures w.log <= Reached(w, steps).log
  {
    hide Act;
    if steps != [] {
      RunGrowsLog(w, steps[..|steps| - 1]);
      StepGrowsLog(Reached(w, steps[..|steps| - 1]), steps[|steps| - 1]);
    }
  }

  // ----- the bound and its condition -----

  function FirstOf(w: World, key: Key): nat {
    if key.path in w.lists then TaskFile.FirstOpen(w.lists[key.path], key.text) else 0
  }

  /** Two open lines of the text. */
  predicate Repeated(w: World, key: Key, i: nat, j: nat) {
    key.path in w.lists && i < j && TaskFile.IsOpen(w.lists[key.path], i, key.text) && TaskFile.IsOpen(w.lists[key.path], j, key.text)
  }

  predicate Unrepeated(w: World, key: Key) {
    key.path in w.lists ==>
      var tasks := w.lists[key.path];
      forall i, j :: 1 <= i < j <= |tasks| ==> !(TaskFile.IsOpen(tasks, i, key.text) && TaskFile.IsOpen(tasks, j, key.text))
  }

  /** No line of the text is ever handed out more than three times while its list is left alone. */
  ghost predicate Bounded(w: World, key: Key) {
    forall steps, task :: AllPossible(w, steps) && AllReliable(w, steps, key)
      ==> Handed(Reached(w, steps).log, key, task) - Handed(w.log, key, task) <= MAX_HANDOUTS
  }

  /** How often the text may still be handed out: three times in all, and once where three are counted already. */
  function Left(attempts: nat): nat {
    if attempts < MAX_HANDOUTS then MAX_HANDOUTS - attempts else 1
  }

  function LeftNow(w: World, key: Key): nat {
    if FirstOf(w, key) == 0 then 0 else Left(Attempts(w, key))
  }

  lemma UnrepeatedIsItem(w: World, key: Key) returns (k: nat)
    requires Filed(w) && Unrepeated(w, key) && RowsFor(w, key) == {} && !InFlight(w, key)
    ensures var cap := Attempts(w, key) + Left(Attempts(w, key)); Phase(w, key, k, cap - LeftNow(w, key), cap)
  {
    k := FirstOf(w, key);
    if key.path in w.lists {
      var tasks := w.lists[key.path];
      TaskFile.FirstOpenIsFirst(tasks, key.text, 1);
      forall j | 0 <= j < |tasks| && j != k - 1 && tasks[j].text == key.text
        ensures tasks[j].mark != TaskFile.OPEN
      {
        assert !TaskFile.IsOpen(tasks, j + 1, key.text);
      }
    }
  }

  /**
   Of an unrepeated text without rows: a counter read as n leaves 3 - n hand-outs, or one when it is at its
   ceiling already, and none when no line is open.
   */
  lemma FewAreLeft(w: World, steps: seq<Step>, key: Key)
    requires Filed(w) && Unrepeated(w, key) && RowsFor(w, key) == {} && !InFlight(w, key)
    requires AllReliable(w, steps, key)
    ensures Count(Reached(w, steps).log, key) - Count(w.log, key) <= LeftNow(w, key)
  {
    hide Reached, AllReliable, Count, Phase, Unrepeated;
    var k := UnrepeatedIsItem(w, key);
    var cap := Attempts(w, key) + Left(Attempts(w, key));
    HandOutsAreBounded(w, steps, key, k, cap - LeftNow(w, key), cap);
  }

  lemma UnrepeatedIsBounded(w: World, key: Key)
    requires Filed(w) && Unrepeated(w, key) && RowsFor(w, key) == {} && !InFlight(w, key)
    ensures Bounded(w, key)
  {
    hide Reached, AllReliable, AllPossible, Count, Handed, Unrepeated;
    forall steps, task | AllPossible(w, steps) && AllReliable(w, steps, key)
      ensures Handed(Reached(w, steps).log, key, task) - Handed(w.log, key, task) <= MAX_HANDOUTS
    {
      FewAreLeft(w, steps, key);
      RunGrowsLog(w, steps);
      var log := Reached(w, steps).log;
      assert log == w.log + log[|w.log|..];
      HandedIsCounted(w.log, log[|w.log|..], key, task);
    }
  }

  // ----- the runs that hand one line out four times -----

  const FAILS := Concluded(SendFailed(true, true, true, true))

  function Lands(now: int): Step {
    Concluded(Accepted(now, true))
  }

  function Takes(key: Key): Step {
    Reserved(0, "", key, true)
  }

  lemma FirstOfIsOpen(w: World, key: Key)
    ensures FirstOf(w, key) != 0 ==> key.path in w.lists && TaskFile.IsOpen(w.lists[key.path], FirstOf(w, key), key.text)
  {
    if key.path in w.lists { PlaceOfFirstOpen(w.lists[key.path], key.text); }
  }

  /** The list with the line at k marked. */
  function MarkedAt(w: World, key: Key, k: nat, mark: char): map<string, seq<TaskFile.Task>>
    requires key.path in w.lists && 1 <= k <= |w.lists[key.path]|
  {
    w.lists[key.path := TaskFile.WithMark(w.lists[key.path], k, mark)]
  }

  /** One refused send of the first open line: counted and rolled back, or left marked at the ceiling. */
  lemma FailOnce(w: World, key: Key, k: nat)
    requires w.flight.None? && k == FirstOf(w, key) != 0
    ensures key.path in w.lists && 1 <= k <= |w.lists[key.path]|
    ensures var u := Act(Act(w, Takes(key)), FAILS);
            var task, n := w.lists[key.path][k - 1].id, Attempts(w, key) + 1;
            && u.flight.None? && u.rows == w.rows && u.issued == w.issued
            && Handed(u.log, key, task) == Handed(w.log, key, task) + 1
            && (forall t :: Handed(u.log, key, t) >= Handed(w.log, key, t))
            && u.lists == (if n >= MAX_HANDOUTS then MarkedAt(w, key, k, TaskFile.IN_PROGRESS) else w.lists)
            && Attempts(u, key) == if n >= MAX_HANDOUTS then 0 else n
  {
    hide Apply, Handed, TaskFile.FirstOpenFrom;
    FirstOfIsOpen(w, key);
    var task, n := w.lists[key.path][k - 1].id, Attempts(w, key) + 1;
    var f := Flight(0, "", key, k, task);
    var tasks := w.lists[key.path];
    assert TaskFile.WithMark(TaskFile.WithMark(tasks, k, TaskFile.IN_PROGRESS), k, TaskFile.OPEN) == tasks;
    var x := Act(w, Takes(key));
    assert x.flight == Some(f) && x.log == w.log + [Won(f)] && x.lists == MarkedAt(w, key, k, TaskFile.IN_PROGRESS);
    var u := Act(x, FAILS);
    var last := if n >= MAX_HANDOUTS then Told(key) else Opened(task);
    assert u.log == w.log + [Won(f)] + [Failed(f)] + [last];
    assert n < MAX_HANDOUTS ==> u.lists == w.lists;
    forall t ensures Handed(u.log, key, t) == Handed(w.log, key, t) + if t == task then 1 else 0 {
      HandedGrows(w.log, Won(f), key, t);
      HandedGrows(w.log + [Won(f)], Failed(f), key, t);
      HandedGrows(w.log + [Won(f)] + [Failed(f)], last, key, t);
    }
  }

  lemma SendOnce(w: World, key: Key, k: nat, now: int)
    requires w.flight.None? && k == FirstOf(w, key) != 0
    ensures key.path in w.lists && 1 <= k <= |w.lists[key.path]|
    ensures var u := Act(Act(w, Takes(key)), Lands(now));
            var task := w.lists[key.path][k - 1].id;
            && u.flight.None? && u.issued == w.issued + 1
            && u.rows == w.rows[w.issued := Row(w.issued, key, k, 0, "", now, 0, false)]
            && Handed(u.log, key, task) == Handed(w.log, key, task) + 1
            && u.lists == MarkedAt(w, key, k, TaskFile.IN_PROGRESS) && Attempts(u, key) == Attempts(w, key) + 1
  {
    hide Apply, Handed, TaskFile.FirstOpenFrom;
    FirstOfIsOpen(w, key);
    var task := w.lists[key.path][k - 1].id;
    var f := Flight(0, "", key, k, task);
    HandedGrows(w.log, Won(f), key, task);
    HandedGrows(w.log + [Won(f)], Sent(f), key, task);
  }

  /** A sweep that lists nobody and can settle the rows of one text alone. */
  function Sweeps(w: World, key: Key, now: int): View {
    View(now, [], {}, map[], map id | id in RowsFor(w, key) ::
      RowEnv(Some([TaskFile.Task(0, key.text, TaskFile.IN_PROGRESS)]), true, true, true, true, true))
  }

  lemma OthersAreLeft(w: World, r: Row, v: View)
    requires r.id !in v.envs && v.agents == []
    ensures SettleRow(w, r, v) == w
  {
  }

  /** The pass over one more issued row. */
  lemma OneMoreRow(w: World, v: View, issued: nat)
    ensures var u := ReclaimAll(w, Ledger(w.rows, issued), v).world;
            ReclaimAll(w, Ledger(w.rows, issued + 1), v).world == if issued in w.rows then SettleRow(u, w.rows[issued], v) else u
  {
    hide SettleRow, Awaits;
    var l := Ledger(w.rows, issued);
    if issued in w.rows {
      assert (l + [w.rows[issued]])[..|l|] == l;
    } else {
      assert Ledger(w.rows, issued + 1) == l;
    }
  }

  lemma NoRows(w: World, v: View)
    ensures ReclaimAll(w, Ledger(w.rows, 0), v).world == w
  {
  }

  /** A row nobody holds any more, or one that was taken up, is retired with its counter. */
  lemma SettledClears(w: World, r: Row, v: View)
    requires v.agents == [] && Deletes(v, r) && EnvOf(v, r).clearOk && (r.confirmed || Age(v, r) > STALE_TTL)
    ensures SettleRow(w, r, v) == w.(rows := w.rows - {r.id}, attempts := w.attempts - {r.key})
  {
  }

  /** One row of the text is past its grace; any other is older than its age limit, or was taken up. */
  predicate OneIsFresh(w: World, key: Key, id: nat, k: nat, now: int) {
    && w.flight.None? && Filed(w) && id in w.rows && w.rows[id] == Row(id, key, k, 0, "", w.rows[id].reservedAt, 0, false)
    && RECLAIM_GRACE < now - w.rows[id].reservedAt <= STALE_TTL
    && key.path in w.lists && TaskFile.IsInProgress(w.lists[key.path], k, key.text)
    && (forall y :: y in w.rows && y != id && w.rows[y].key == key ==>
          y < id && (w.rows[y].confirmed || now - w.rows[y].reservedAt > STALE_TTL))
    && (Attempts(w, key) == 0 || RowsFor(w, key) != {id})
  }

  /** The rows before the fresh one change nothing but the ledger and the counter, which the first of them clears. */
  lemma {:induction false} OldRowsClear(w: World, v: View, key: Key, id: nat, k: nat, now: int, i: nat)
    requires OneIsFresh(w, key, id, k, now) && v == Sweeps(w, key, now) && i <= id
    ensures var p := ReclaimAll(w, Ledger(w.rows, i), v).world;
            && p == w.(rows := p.rows, attempts := p.attempts)
            && (Attempts(p, key) != 0 ==> Attempts(p, key) == Attempts(w, key)
                                          && forall y :: y in w.rows && y < i ==> w.rows[y].key != key)
  {
    hide SettleRow, Ledger, ReclaimAll;
    NoRows(w, v);
    if i > 0 {
      var n: nat := i - 1;
      OldRowsClear(w, v, key, id, k, now, n);
      OneMoreRow(w, v, n);
      var p := ReclaimAll(w, Ledger(w.rows, n), v).world;
      if n in w.rows {
        if w.rows[n].key == key {
          assert n in RowsFor(w, key);
          SettledClears(p, w.rows[n], v);
        } else {
          OthersAreLeft(p, w.rows[n], v);
        }
      }
    }
  }

  /** The fresh row is then returned with its count forgotten. */
  lemma FreshReturns(w: World, p: World, v: View, key: Key, id: nat, k: nat, now: int)
    requires OneIsFresh(w, key, id, k, now) && v == Sweeps(w, key, now)
    requires p == w.(rows := p.rows, attempts := p.attempts) && Attempts(p, key) == 0
    ensures var u := SettleRow(p, w.rows[id], v);
            && u.flight.None? && u.lists == MarkedAt(w, key, k, TaskFile.OPEN) && Attempts(u, key) == 0
            && u.log == w.log + [Opened(w.lists[key.path][k - 1].id)]
  {
    hide Apply, Judge;
    var r := w.rows[id];
    assert id in RowsFor(w, key);
    assert TaskFile.IsInProgress(EnvOf(v, r).seen.value, 1, key.text);
    ReturnedIsDoubtful(r, v, 0);
    OwnPlace(p, r, EnvOf(v, r), k);
    ForgoFrame(Mark(p, key.path, k, TaskFile.OPEN), r);
  }

  lemma {:induction false} LaterRowsAreLeft(w: World, v: View, key: Key, id: nat, k: nat, now: int, i: nat)
    requires OneIsFresh(w, key, id, k, now) && v == Sweeps(w, key, now) && id < i
    ensures ReclaimAll(w, Ledger(w.rows, i), v).world == ReclaimAll(w, Ledger(w.rows, id + 1), v).world
  {
    hide SettleRow, Ledger, ReclaimAll;
    if i > id + 1 {
      var n: nat := i - 1;
      LaterRowsAreLeft(w, v, key, id, k, now, n);
      OneMoreRow(w, v, n);
      if n in w.rows { OthersAreLeft(ReclaimAll(w, Ledger(w.rows, n), v).world, w.rows[n], v); }
    }
  }

  lemma SweepReturns(w: World, key: Key, id: nat, k: nat, now: int)
    requires OneIsFresh(w, key, id, k, now)
    ensures var u := Act(w, Swept(Sweeps(w, key, now), false, true, []));
            && u.flight.None? && u.lists == MarkedAt(w, key, k, TaskFile.OPEN) && Attempts(u, key) == 0
            && u.log == w.log + [Opened(w.lists[key.path][k - 1].id)]
  {
    hide Apply, ReclaimAll, Ledger, SettleRow;
    var v := Sweeps(w, key, now);
    var noted := Ticked(w, [Listing(v.agents, v.now)]);
    assert RowsFor(noted, key) == RowsFor(w, key) && v == Sweeps(noted, key, now);
    assert OneIsFresh(noted, key, id, k, now);
    OldRowsClear(noted, v, key, id, k, now, id);
    var p := ReclaimAll(noted, Ledger(noted.rows, id), v).world;
    assert RowsFor(noted, key) != {id} ==> exists y :: y in RowsFor(noted, key) && y != id by { OnlyMember(RowsFor(noted, key), id); }
    FreshReturns(noted, p, v, key, id, k, now);
    OneMoreRow(noted, v, id);
    LaterRowsAreLeft(noted, v, key, id, k, now, noted.issued);
  }

  lemma OnlyMember(s: set<nat>, id: nat)
    requires id in s
    ensures s != {id} ==> exists y :: y in s && y != id
  {
    if forall y :: y in s ==> y == id { assert s == {id}; }
  }

  // ----- putting the run together -----

  ghost predicate Runs(w: World, steps: seq<Step>, u: World, key: Key) {
    AllPossible(w, steps) && AllReliable(w, steps, key) && Reached(w, steps) == u
  }

  lemma OneStep(w: World, steps: seq<Step>, u: World, key: Key, s: Step)
    requires Runs(w, steps, u, key) && Possible(u, s) && Reliable(u, s, key)
    ensures Runs(w, steps + [s], Act(u, s), key)
  {
    hide Act, Possible, Reliable;
    OneMore(w, steps, s);
    var all := steps + [s];
    forall k | 0 <= k < |all| ensures Reliable(Reached(w, all[..k]), all[k], key) {
      assert all[..k] == if k < |steps| then steps[..k] else steps;
    }
  }

  /** A reservation and the ending of its delivery. */
  lemma TwoSteps(w: World, steps: seq<Step>, u: World, key: Key, ending: Step)
    requires Runs(w, steps, u, key) && (ending == FAILS || (ending.Concluded? && ending.ending.Accepted?))
    ensures Runs(w, steps + [Takes(key)] + [ending], Act(Act(u, Takes(key)), ending), key)
  {
    hide Runs, Act;
    OneStep(w, steps, u, key, Takes(key));
    OneStep(w, steps + [Takes(key)], Act(u, Takes(key)), key, ending);
  }

  lemma NoSteps(w: World, key: Key)
    ensures Runs(w, [], w, key)
  {
  }

  /** Three refused sends in a row of the first open line, from a cleared counter. */
  lemma FailThrice(w: World, steps: seq<Step>, u: World, key: Key, k: nat) returns (more: seq<Step>, x: World)
    requires Runs(w, steps, u, key) && u.flight.None? && k == FirstOf(u, key) != 0 && Attempts(u, key) == 0
    ensures Runs(w, more, x, key) && key.path in u.lists && 1 <= k <= |u.lists[key.path]|
    ensures Handed(x.log, key, u.lists[key.path][k - 1].id) == Handed(u.log, key, u.lists[key.path][k - 1].id) + 3
  {
    hide Runs, Act, Handed;
    FailOnce(u, key, k);
    var u1 := Act(Act(u, Takes(key)), FAILS);
    TwoSteps(w, steps, u, key, FAILS);
    FailOnce(u1, key, k);
    var u2 := Act(Act(u1, Takes(key)), FAILS);
    TwoSteps(w, steps + [Takes(key)] + [FAILS], u1, key, FAILS);
    FailOnce(u2, key, k);
    x := Act(Act(u2, Takes(key)), FAILS);
    more := steps + [Takes(key)] + [FAILS] + [Takes(key)] + [FAILS];
    TwoSteps(w, more, u2, key, FAILS);
    more := more + [Takes(key)] + [FAILS];
  }

  /** Refused sends of the first open line bring its counter to the ceiling, which clears it and leaves the line marked. */
  lemma {:induction false} FailUntilCleared(w: World, steps: seq<Step>, u: World, key: Key, k: nat) returns (more: seq<Step>, x: World)
    requires Runs(w, steps, u, key) && u.flight.None? && k == FirstOf(u, key) != 0
    ensures Runs(w, more, x, key) && key.path in u.lists && 1 <= k <= |u.lists[key.path]|
    ensures x.flight.None? && x.rows == u.rows && x.issued == u.issued && Attempts(x, key) == 0
    ensures x.lists == MarkedAt(u, key, k, TaskFile.IN_PROGRESS)
    ensures forall t :: Handed(x.log, key, t) >= Handed(u.log, key, t)
    decreases MAX_HANDOUTS - Attempts(u, key)
  {
    hide Runs, Act, Handed;
    FailOnce(u, key, k);
    TwoSteps(w, steps, u, key, FAILS);
    more, x := steps + [Takes(key)] + [FAILS], Act(Act(u, Takes(key)), FAILS);
    if Attempts(u, key) + 1 < MAX_HANDOUTS {
      var next := x;
      more, x := FailUntilCleared(w, more, next, key, k);
    }
  }

  lemma FirstOfMarked(w: World, u: World, key: Key, i: nat, j: nat)
    requires Repeated(w, key, i, j) && i == FirstOf(w, key)
    requires u.lists == MarkedAt(w, key, i, TaskFile.IN_PROGRESS)
    ensures FirstOf(u, key) > i
  {
    FirstOfIsOpen(u, key);
    TaskFile.FirstOpenIsFirst(w.lists[key.path], key.text, 1);
    TaskFile.FirstOpenIsFirst(u.lists[key.path], key.text, 1);
    assert TaskFile.IsOpen(u.lists[key.path], j, key.text);
    var k := FirstOf(u, key);
    assert k < i ==> !TaskFile.IsOpen(w.lists[key.path], k, key.text);
  }

  lemma FirstOfAgain(w: World, u: World, key: Key, i: nat)
    requires i == FirstOf(w, key) != 0 && key.path in u.lists && |u.lists[key.path]| == |w.lists[key.path]|
    requires TaskFile.IsOpen(u.lists[key.path], i, key.text)
    requires forall x :: 0 <= x < i - 1 ==> u.lists[key.path][x] == w.lists[key.path][x]
    ensures FirstOf(u, key) == i
  {
    FirstOfIsOpen(w, key);
    FirstOfIsOpen(u, key);
    TaskFile.FirstOpenIsFirst(w.lists[key.path], key.text, 1);
    TaskFile.FirstOpenIsFirst(u.lists[key.path], key.text, 1);
    var k := FirstOf(u, key);
    assert k < i ==> !TaskFile.IsOpen(w.lists[key.path], k, key.text);
  }

  lemma FirstOfExists(w: World, key: Key, i: nat, j: nat) returns (first: nat, second: nat)
    requires Repeated(w, key, i, j)
    ensures first == FirstOf(w, key) && Repeated(w, key, first, second)
  {
    TaskFile.FirstOpenIsFirst(w.lists[key.path], key.text, 1);
    first, second := FirstOf(w, key), j;
    FirstOfIsOpen(w, key);
  }

  lemma FreshSwept(w: World, steps: seq<Step>, u: World, key: Key, id: nat, k: nat, now: int) returns (more: seq<Step>, x: World)
    requires Runs(w, steps, u, key) && OneIsFresh(u, key, id, k, now)
    ensures Runs(w, more, x, key) && x.flight.None? && Attempts(x, key) == 0
    ensures x.lists == MarkedAt(u, key, k, TaskFile.OPEN) && x.log == u.log + [Opened(u.lists[key.path][k - 1].id)]
  {
    hide Runs, Act;
    assert forall y :: y in u.rows && u.rows[y].key == key ==> y in RowsFor(u, key);
    var s := Swept(Sweeps(u, key, now), false, true, []);
    SweepReturns(u, key, id, k, now);
    OneStep(w, steps, u, key, s);
    more, x := steps + [s], Act(u, s);
  }

  lemma {:induction false} HandedNeverFalls(log: seq<Event>, more: seq<Event>, key: Key, task: nat)
    ensures Handed(log + more, key, task) >= Handed(log, key, task)
  {
    if more == [] {
      assert log + more == log;
    } else {
      var n := |more| - 1;
      HandedNeverFalls(log, more[..n], key, task);
      assert log + more == (log + more[..n]) + [more[n]];
      HandedGrows(log + more[..n], more[n], key, task);
    }
  }

  /** A delivery under way ends: the text's own lands, and its row with it; any other dies with its daemon. */
  lemma Quieted(w: World, key: Key) returns (steps: seq<Step>, u: World)
    requires Filed(w)
    ensures Runs(w, steps, u, key) && u.flight.None? && Filed(u) && u.lists == w.lists && w.log <= u.log
    ensures RowsFor(u, key) == {} <==> RowsFor(w, key) == {} && !InFlight(w, key)
  {
    hide Apply;
    NoSteps(w, key);
    if w.flight.None? {
      steps, u := [], w;
    } else {
      var s := if InFlight(w, key) then Lands(0) else Started(0, false);
      OneStep(w, [], w, key, s);
      steps, u := [] + [s], Act(w, s);
      if InFlight(w, key) {
        assert w.issued in RowsFor(u, key);
      } else {
        assert RowsFor(u, key) == RowsFor(w, key);
      }
    }
  }

  /**
   Two open lines of one text: the first is delivered; refused sends of the second exhaust the counter
   they share; a sweep returns the first with its count forgotten; three more hand-outs follow.
   */
  lemma TwinsBreakTheBound(w: World, before: seq<Step>, u: World, key: Key, i: nat, j: nat) returns (steps: seq<Step>, task: nat)
    requires Runs(w, before, u, key) && Filed(u) && u.flight.None? && RowsFor(u, key) == {} && Repeated(u, key, i, j)
    ensures AllPossible(w, steps) && AllReliable(w, steps, key)
    ensures Handed(Reached(w, steps).log, key, task) - Handed(u.log, key, task) > MAX_HANDOUTS
  {
    hide Act, Handed;
    var a, b := FirstOfExists(u, key, i, j);
    task := u.lists[key.path][a - 1].id;
    SendOnce(u, key, a, 0);
    TwoSteps(w, before, u, key, Lands(0));
    var u1 := Act(Act(u, Takes(key)), Lands(0));
    FirstOfMarked(u, u1, key, a, b);
    var c := FirstOf(u1, key);
    var s2, u2 := FailUntilCleared(w, before + [Takes(key)] + [Lands(0)], u1, key, c);
    assert forall y :: y in u2.rows && u2.rows[y].key == key ==> y in RowsFor(u, key) || y == u.issued;
    var s3, u3 := FreshSwept(w, s2, u2, key, u.issued, a, 121);
    assert u3.lists[key.path][a - 1].id == task;
    FirstOfAgain(u, u3, key, a);
    HandedGrows(u2.log, Opened(task), key, task);
    var u4;
    steps, u4 := FailThrice(w, s3, u3, key, a);
  }

  /** The last time a row of the ledger was reserved. */
  function Latest(rows: map<nat, Row>, issued: nat): (t: int)
    ensures forall id :: id in rows && id < issued ==> rows[id].reservedAt <= t
  {
    if issued == 0 then 0
    else
      var t := Latest(rows, issued - 1);
      if issued - 1 in rows && rows[issued - 1].reservedAt > t then rows[issued - 1].reservedAt else t
  }

  /**
   A row left over from an earlier hand-out of an open text: the first open line is delivered; a sweep
   that finds every old row past its age limit, or taken up, clears the counter they share and returns the
   new row with its count forgotten; three more hand-outs follow.
   */
  lemma LeftoverBreaksTheBound(w: World, before: seq<Step>, u: World, key: Key) returns (steps: seq<Step>, task: nat)
    requires Runs(w, before, u, key) && Filed(u) && u.flight.None? && FirstOf(u, key) != 0 && RowsFor(u, key) != {}
    ensures AllPossible(w, steps) && AllReliable(w, steps, key)
    ensures Handed(Reached(w, steps).log, key, task) - Handed(u.log, key, task) > MAX_HANDOUTS
  {
    hide Act, Handed;
    var k, now := FirstOf(u, key), Latest(u.rows, u.issued) + STALE_TTL + 1;
    FirstOfIsOpen(u, key);
    task := u.lists[key.path][k - 1].id;
    SendOnce(u, key, k, now - 121);
    TwoSteps(w, before, u, key, Lands(now - 121));
    var u1 := Act(Act(u, Takes(key)), Lands(now - 121));
    var left: nat :| left in RowsFor(u, key);
    assert left in RowsFor(u1, key) && left != u.issued;
    var s2, u2 := FreshSwept(w, before + [Takes(key)] + [Lands(now - 121)], u1, key, u.issued, k, now);
    assert u2.lists[key.path][k - 1].id == task;
    FirstOfAgain(u, u2, key, k);
    HandedGrows(u1.log, Opened(task), key, task);
    var u3;
    steps, u3 := FailThrice(w, s2, u2, key, k);
  }

  lemma OpenTextBreaks(w: World, key: Key)
    requires Filed(w) && FirstOf(w, key) != 0 && !(Unrepeated(w, key) && RowsFor(w, key) == {} && !InFlight(w, key))
    ensures !Bounded(w, key)
  {
    hide Reached, AllPossible, AllReliable, Handed, Filed, Runs;
    var before, u := Quieted(w, key);
    var steps, task;
    if RowsFor(u, key) != {} {
      steps, task := LeftoverBreaksTheBound(w, before, u, key);
    } else {
      var i, j :| 1 <= i < j <= |w.lists[key.path]|
                  && TaskFile.IsOpen(w.lists[key.path], i, key.text) && TaskFile.IsOpen(w.lists[key.path], j, key.text);
      steps, task := TwinsBreakTheBound(w, before, u, key, i, j);
    }
    assert u.log == w.log + u.log[|w.log|..];
    HandedNeverFalls(w.log, u.log[|w.log|..], key, task);
  }

  /**
   Of a text with an open line: no line of it is ever handed out more than three times, whatever agents,
   restarts, refused sends and sweeps do, if and only if no other line of it is open, the ledger holds no
   row of it, and it is not being delivered. All three can be looked up before an item is reopened.
   */
  lemma BoundedIff(w: World, key: Key)
    requires Filed(w) && (FirstOf(w, key) != 0 || (RowsFor(w, key) == {} && !InFlight(w, key)))
    ensures Bounded(w, key) <==> Unrepeated(w, key) && RowsFor(w, key) == {} && !InFlight(w, key)
  {
    hide Reached, AllPossible, AllReliable, Handed, Filed;
    if Unrepeated(w, key) && RowsFor(w, key) == {} && !InFlight(w, key) {
      UnrepeatedIsBounded(w, key);
    } else {
      RepeatedIsOpen(w, key);
      OpenTextBreaks(w, key);
    }
  }

  lemma RepeatedIsOpen(w: World, key: Key)
    ensures FirstOf(w, key) == 0 ==> Unrepeated(w, key)
  {
    if key.path in w.lists { TaskFile.FirstOpenIsFirst(w.lists[key.path], key.text, 1); }
  }

  // ----- when the row of an escalated item cannot be deleted -----

  const ROW := Row(0, KEY, 1, 0, "", 0, 0, false)

  /** One item at its ceiling, in progress, with the row of its last hand-out. */
  ghost predicate AtCeiling(w: World, attempts: nat) {
    && w.flight.None? && w.issued == 1 && w.rows == map[0 := ROW] && Attempts(w, KEY) == attempts
    && w.lists == map["l" := [LINE.(mark := TaskFile.IN_PROGRESS)]]
  }

  /** A sweep two minutes later whose delete fails. */
  function UndeletedView(): View {
    View(121, [], {}, map[], map[0 := RowEnv(Some([LINE.(mark := TaskFile.IN_PROGRESS)]), true, true, false, true, true)])
  }

  lemma SweepTells(w: World)
    requires AtCeiling(w, MAX_HANDOUTS)
    ensures var u := Act(w, Swept(UndeletedView(), false, true, []));
            AtCeiling(u, 0) && u.log == w.log + [Told(KEY)]
  {
    hide Apply, ReclaimAll, Ledger, Judge, Forgo;
    var v := UndeletedView();
    var noted := Ticked(w, [Listing(v.agents, v.now)]);
    assert TaskFile.IsInProgress(EnvOf(v, ROW).seen.value, 1, KEY.text);
    DoubtfulIsJudged(ROW, v, MAX_HANDOUTS);
    NoRows(noted, v);
    OneMoreRow(noted, v, 0);
    ForgoFrame(DeleteRow(noted, ROW, false), ROW);
  }

  lemma SweepReopens(w: World)
    requires AtCeiling(w, 0)
    ensures var u := Act(w, Swept(Sweeps(w, KEY, 141), false, true, []));
            u.log == w.log + [Opened(LINE.id)] && u.lists == map["l" := [LINE]]
  {
    hide Act, Sweeps;
    SweepReturns(w, KEY, 0, 1, 141);
    assert TaskFile.WithMark([LINE.(mark := TaskFile.IN_PROGRESS)], 1, TaskFile.OPEN) == [LINE];
  }

  lemma TwoMore(steps: seq<Step>, s: Step, t: Step)
    requires AllPossible(EMPTY, steps) && Possible(Reached(EMPTY, steps), s) && Possible(Act(Reached(EMPTY, steps), s), t)
    ensures AllPossible(EMPTY, steps + [s] + [t]) && Reached(EMPTY, steps + [s] + [t]) == Act(Act(Reached(EMPTY, steps), s), t)
  {
    hide Act, Possible;
    OneMore(EMPTY, steps, s);
    OneMore(EMPTY, steps + [s], t);
  }

  lemma ListIsFiled() returns (w: World)
    ensures w == Act(EMPTY, Edited("l", [LINE])) && Possible(EMPTY, Edited("l", [LINE]))
    ensures w.flight.None? && w.issued == 0 && w.rows == map[] && Attempts(w, KEY) == 0 && w.lists == map["l" := [LINE]]
  {
    w := Act(EMPTY, Edited("l", [LINE]));
  }

  /** Two refused sends and a delivery bring a line to its ceiling. */
  lemma ReachCeiling() returns (steps: seq<Step>)
    ensures AllPossible(EMPTY, steps) && AtCeiling(Reached(EMPTY, steps), MAX_HANDOUTS)
  {
    hide Act, Possible, Handed, AllPossible;
    var w := ListIsFiled();
    Nothing(EMPTY);
    OneMore(EMPTY, [], Edited("l", [LINE]));
    steps := [] + [Edited("l", [LINE])];
    assert TaskFile.FirstOpen([LINE], "a") == 1;
    FailOnce(w, KEY, 1);
    TakingIsPossible(w, FAILS);
    TwoMore(steps, Takes(KEY), FAILS);
    steps, w := steps + [Takes(KEY)] + [FAILS], Act(Act(w, Takes(KEY)), FAILS);
    FailOnce(w, KEY, 1);
    TakingIsPossible(w, FAILS);
    TwoMore(steps, Takes(KEY), FAILS);
    steps, w := steps + [Takes(KEY)] + [FAILS], Act(Act(w, Takes(KEY)), FAILS);
    SendOnce(w, KEY, 1, 0);
    TakingIsPossible(w, Lands(0));
    TwoMore(steps, Takes(KEY), Lands(0));
    steps := steps + [Takes(KEY)] + [Lands(0)];
    assert TaskFile.WithMark([LINE], 1, TaskFile.IN_PROGRESS) == [LINE.(mark := TaskFile.IN_PROGRESS)];
  }

  lemma TakingIsPossible(w: World, ending: Step)
    requires ending.Concluded?
    ensures Possible(w, Takes(KEY)) && Possible(Act(w, Takes(KEY)), ending)
  {
  }

  /** The run: the operator is told that the item is left marked, and the next sweep opens it again. */
  lemma UndeletedRowReopens() returns (steps: seq<Step>)
    ensures AllPossible(EMPTY, steps)
    ensures var w := Reached(EMPTY, steps);
            |w.log| >= 2 && w.log[|w.log| - 2..] == [Told(KEY), Opened(LINE.id)] && w.lists == map["l" := [LINE]]
  {
    hide Act, AllPossible;
    steps := ReachCeiling();
    var w := Reached(EMPTY, steps);
    SweepTells(w);
    var u := Act(w, Swept(UndeletedView(), false, true, []));
    SweepReopens(u);
    TwoMore(steps, Swept(UndeletedView(), false, true, []), Swept(Sweeps(u, KEY, 141), false, true, []));
    steps := steps + [Swept(UndeletedView(), false, true, [])] + [Swept(Sweeps(u, KEY, 141), false, true, [])];
  }
}
