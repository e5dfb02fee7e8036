/**
 How often one item is handed out: at most three times while nobody edits its list, whatever the agents
 do, and when a hand-out recorded before such an edit makes that false.
 */
module HandOutBounds {
  import opened Wrappers
  import opened IdleClock
  import TaskFile
  import Pairing
  import opened HandOut
  import opened HandOutRuns
  import opened HandOutSweeps

  /** The hand-outs of an item so far: sends that landed and sends that were refused. */
  function Count(log: seq<Event>, key: Key): nat {
    if log == [] then 0
    else
      var e := log[|log| - 1];
      Count(log[..|log| - 1], key) + if (e.Sent? || e.Failed?) && e.flight.key == key then 1 else 0
  }

  lemma CountGrows(log: seq<Event>, e: Event, key: Key)
    ensures Count(log + [e], key) == Count(log, key) + if (e.Sent? || e.Failed?) && e.flight.key == key then 1 else 0
  {
    assert (log + [e])[..|log + [e]| - 1] == log;
  }

  lemma {:induction false} OpeningsAreNoHandOuts(log: seq<Event>, was: set<nat>, tasks: seq<TaskFile.Task>, key: Key)
    ensures Count(log + NewlyOpen(was, tasks), key) == Count(log, key)
  {
    if tasks == [] {
      assert log + NewlyOpen(was, tasks) == log;
    } else {
      var n := |tasks| - 1;
      OpeningsAreNoHandOuts(log, was, tasks[..n], key);
      var before := log + NewlyOpen(was, tasks[..n]);
      if tasks[n].mark == TaskFile.OPEN && tasks[n].id !in was {
        CountGrows(before, Opened(tasks[n].id), key);
        assert log + NewlyOpen(was, tasks) == before + [Opened(tasks[n].id)];
      } else {
        assert log + NewlyOpen(was, tasks) == before;
      }
    }
  }

  // ----- where an item stands -----

  /** The item at k is the only line of that text which may be open; at 0, none may. */
  predicate Item(w: World, key: Key, k: nat) {
    if key.path !in w.lists then k == 0
    else
      var tasks := w.lists[key.path];
      && k <= |tasks| && (k > 0 ==> tasks[k - 1].text == key.text)
      && forall j :: 0 <= j < |tasks| && j != k - 1 && tasks[j].text == key.text ==> tasks[j].mark != TaskFile.OPEN
  }

  const DONE := 'x'

  function ItemMark(w: World, key: Key, k: nat): char
    requires Item(w, key, k)
  {
    if k == 0 then DONE else w.lists[key.path][k - 1].mark
  }

  function RowsFor(w: World, key: Key): set<nat> {
    set id | id in w.rows && w.rows[id].key == key
  }

  predicate InFlight(w: World, key: Key) {
    w.flight.Some? && w.flight.value.key == key
  }

  /**
   After n hand-outs, of at most `cap`, an item is open with its counter exact, or being delivered, or
   marked with the one row that may return it, or marked for good.
   */
  ghost predicate Phase(w: World, key: Key, k: nat, n: int, cap: int) {
    && Filed(w) && Item(w, key, k) && MAX_HANDOUTS <= cap && 0 <= n <= cap
    && (InFlight(w, key) ==> w.flight.value.index == k)
    && (forall id :: id in RowsFor(w, key) ==> w.rows[id].index == k)
    && (if ItemMark(w, key, k) == TaskFile.OPEN then
          !InFlight(w, key) && RowsFor(w, key) == {} && Attempts(w, key) == n < cap
        else if InFlight(w, key) then
          ItemMark(w, key, k) == TaskFile.IN_PROGRESS && RowsFor(w, key) == {} && Attempts(w, key) == n < cap
        else
          (RowsFor(w, key) == {}
           || (ItemMark(w, key, k) == TaskFile.IN_PROGRESS && Attempts(w, key) == n
               && exists id :: RowsFor(w, key) == {id})))
  }

  /** Two worlds that agree on everything the phase of an item reads. */
  ghost predicate SameItem(w: World, u: World, key: Key, k: nat) {
    && Item(w, key, k) && Item(u, key, k) && ItemMark(w, key, k) == ItemMark(u, key, k)
    && (forall id :: id in u.rows && u.rows[id].key == key ==> id in w.rows && u.rows[id].key == w.rows[id].key && u.rows[id].index == w.rows[id].index)
    && (forall id :: id in w.rows && w.rows[id].key == key ==> id in u.rows && u.rows[id].key == key)
    && Attempts(w, key) == Attempts(u, key)
    && (InFlight(w, key) <==> InFlight(u, key)) && (InFlight(w, key) ==> u.flight.value.index == w.flight.value.index)
  }

  lemma PhaseIsLocal(w: World, u: World, key: Key, k: nat, n: int, cap: int)
    requires Phase(w, key, k, n, cap) && SameItem(w, u, key, k) && Filed(u)
    ensures Phase(u, key, k, n, cap)
  {
    assert RowsFor(u, key) == RowsFor(w, key);
  }

  lemma OtherMarkKeepsItem(w: World, path: string, j: nat, mark: char, key: Key, k: nat)
    requires path in w.lists && 1 <= j <= |w.lists[path]| && Item(w, key, k)
    requires key != Key(path, w.lists[path][j - 1].text)
    ensures Item(Mark(w, path, j, mark), key, k) && ItemMark(Mark(w, path, j, mark), key, k) == ItemMark(w, key, k)
  {
  }

  lemma OwnMarkKeepsItem(w: World, mark: char, key: Key, k: nat)
    requires Item(w, key, k) && k > 0
    ensures Item(Mark(w, key.path, k, mark), key, k) && ItemMark(Mark(w, key.path, k, mark), key, k) == mark
  {
  }

  // ----- the reclaim -----

  lemma SettleFrame(w: World, r: Row, v: View, key: Key)
    ensures SettleRow(w, r, v).flight == w.flight && SettleRow(w, r, v).issued == w.issued
    ensures r.key != key ==> Attempts(SettleRow(w, r, v), key) == Attempts(w, key)
  {
    hide Judge, ReclaimAt, Apply, Forgo;
    match Judge(r, v, Attempts(w, r.key))
    case Escalate => ForgoFrame(DeleteRow(w, r, EnvOf(v, r).deleteOk), r);
    case Return =>
      var k := ReclaimAt(w, r, EnvOf(v, r));
      if k != 0 { ForgoFrame(Mark(w, r.key.path, k, TaskFile.OPEN), r); }
    case _ =>
  }

  lemma SettleLogs(w: World, r: Row, v: View) returns (es: seq<Event>)
    ensures SettleRow(w, r, v).log == w.log + es && |es| <= 1 && forall e :: e in es ==> e.Told? || e.Opened?
  {
    hide Judge, ReclaimAt, Apply;
    match Judge(r, v, Attempts(w, r.key))
    case Escalate => es := if EnvOf(v, r).auditOk then [Told(r.key)] else [];
    case Return =>
      var k := ReclaimAt(w, r, EnvOf(v, r));
      es := if k == 0 then [] else [Opened(w.lists[r.key.path][k - 1].id)];
    case _ => es := [];
  }

  lemma SettleIsNoHandOut(w: World, r: Row, v: View, key: Key)
    ensures Count(SettleRow(w, r, v).log, key) == Count(w.log, key)
  {
    hide SettleRow, Count;
    var es := SettleLogs(w, r, v);
    if es == [] {
      assert w.log + es == w.log;
    } else {
      assert es == [es[0]] && es[0] in es;
      CountGrows(w.log, es[0], key);
    }
  }

  lemma SettleOther(w: World, r: Row, v: View, key: Key, k: nat, n: int, cap: int)
    requires Phase(w, key, k, n, cap) && r.key != key && (r.id in w.rows ==> w.rows[r.id].key != key)
    ensures Phase(SettleRow(w, r, v), key, k, n, cap)
  {
    hide Judge, Apply, Phase, Count, SettleRow, ReclaimAt, Attempts;
    var u, e := SettleRow(w, r, v), EnvOf(v, r);
    PhaseParts(w, key, k, n, cap);
    SettleMarks(w, r, v);
    SettleKeepsOthers(w, r, v);
    SettleFrame(w, r, v, key);
    if Judge(r, v, Attempts(w, r.key)).Return? && ReclaimAt(w, r, e) != 0 {
      OtherMarkKeepsItem(w, r.key.path, ReclaimAt(w, r, e), TaskFile.OPEN, key, k);
    }
    PhaseIsLocal(w, u, key, k, n, cap);
  }

  lemma SettleOwn(w: World, r: Row, v: View, key: Key, k: nat, n: int, cap: int)
    requires Phase(w, key, k, n, cap) && r.key == key && r.id in w.rows && w.rows[r.id] == r && Deletes(v, r)
    ensures Phase(SettleRow(w, r, v), key, k, n, cap)
  {
    hide Apply, Count, Judge, SettleRow, ReclaimAt;
    var u, e := SettleRow(w, r, v), EnvOf(v, r);
    var j := Judge(r, v, Attempts(w, r.key));
    assert r.id in RowsFor(w, key);
    assert RowsFor(w, key) == {r.id} && ItemMark(w, key, k) == TaskFile.IN_PROGRESS && !InFlight(w, key);
    SettleMarks(w, r, v);
    SettleKeepsOthers(w, r, v);
    SettleFrame(w, r, v, key);
    if !Awaits(w, r, v) {
      assert RowsFor(u, key) == {};
      if j.Return? {
        ReturnedIsDoubtful(r, v, Attempts(w, r.key));
        assert ReclaimAt(w, r, e) == k by { OwnPlace(w, r, e, k); }
        OwnMarkKeepsItem(w, TaskFile.OPEN, key, k);
      }
    } else if j.Return? {
      SettleRefused(w, r, v);
    }
  }

  lemma OwnPlace(w: World, r: Row, e: RowEnv, k: nat)
    requires r.key.path in w.lists && TaskFile.IsInProgress(w.lists[r.key.path], k, r.key.text) && r.index == k
    ensures ReclaimAt(w, r, e) == if e.mutateOk then k else 0
  {
  }

  lemma SettleRefused(w: World, r: Row, v: View)
    requires Awaits(w, r, v)
    ensures SettleRow(w, r, v) == w
  {
  }

  lemma PhaseParts(w: World, key: Key, k: nat, n: int, cap: int)
    requires Phase(w, key, k, n, cap)
    ensures Item(w, key, k) && Filed(w)
  {
  }

  predicate Numbered(ledger: seq<Row>) {
    forall i, j :: 0 <= i < j < |ledger| ==> ledger[i].id != ledger[j].id
  }

  lemma {:induction false} ReclaimKeepsPhase(w: World, ledger: seq<Row>, v: View, key: Key, k: nat, n: int, cap: int)
    requires Phase(w, key, k, n, cap) && Numbered(ledger)
    requires forall r :: r in ledger ==> r.id in w.rows && w.rows[r.id] == r && (r.key == key ==> Deletes(v, r))
    ensures Phase(ReclaimAll(w, ledger, v).world, key, k, n, cap)
    ensures Count(ReclaimAll(w, ledger, v).world.log, key) == Count(w.log, key)
  {
    hide SettleRow, Awaits, Phase, Deletes, Count;
    if ledger != [] {
      var m := |ledger| - 1;
      var u, r := ReclaimAll(w, ledger[..m], v).world, ledger[m];
      ReclaimKeepsPhase(w, ledger[..m], v, key, k, n, cap);
      assert r in ledger;
      OtherRowsStay(w, ledger[..m], v, r.id);
      SettleIsNoHandOut(u, r, v, key);
      if r.key == key {
        SettleOwn(u, r, v, key, k, n, cap);
      } else {
        SettleOther(u, r, v, key, k, n, cap);
      }
    }
  }

  lemma {:induction false} LedgerIsNumbered(rows: map<nat, Row>, issued: nat)
    requires forall id :: id in rows ==> rows[id].id == id
    ensures Numbered(Ledger(rows, issued))
    ensures forall r :: r in Ledger(rows, issued) ==> r.id < issued && r.id in rows && rows[r.id] == r
  {
    if issued > 0 { LedgerIsNumbered(rows, issued - 1); }
  }

  // ----- one step -----

  /** No other process edits the list or hands the item out, and the store's deletes, counts and escalations land. */
  predicate Reliable(w: World, s: Step, key: Key) {
    match s
    case Edited(path, _) => path != key.path
    case HandedElsewhere(f, _) => f.key != key
    case Swept(v, _, _, _) => forall id :: id in w.rows && w.rows[id].key == key ==> Deletes(v, w.rows[id])
    case Concluded(e) => e.SendFailed? ==> e.countOk && e.auditOk
    case _ => true
  }

  lemma SweepKeepsPhase(w: World, v: View, standDown: bool, ledgerOk: bool, sources: seq<Pairing.Source>, key: Key, k: nat, n: int, cap: int)
    requires Phase(w, key, k, n, cap) && Reliable(w, Swept(v, standDown, ledgerOk, sources), key)
    ensures var u := Sweep(w, v, standDown, ledgerOk, sources);
            Phase(u, key, k, n, cap) && Count(u.log, key) == Count(w.log, key)
  {
    hide ReclaimAll, Apply, Pairing.PairSources, Ledger, Deletes, Phase, Count, RowsFor;
    var noted := Ticked(w, [Listing(v.agents, v.now)]);
    PhaseParts(w, key, k, n, cap);
    PhaseIsLocal(w, noted, key, k, n, cap);
    if !standDown && ledgerOk {
      var ledger := Ledger(noted.rows, noted.issued);
      LedgerIsNumbered(noted.rows, noted.issued);
      ReclaimKeepsPhase(noted, ledger, v, key, k, n, cap);
      var u := ReclaimAll(noted, ledger, v).world;
      PhaseParts(u, key, k, n, cap);
      PhaseIsLocal(u, Sweep(w, v, standDown, ledgerOk, sources), key, k, n, cap);
    }
  }

  lemma FirstOpenIsTheItem(w: World, key: Key, k: nat)
    requires Item(w, key, k) && key.path in w.lists
    ensures TaskFile.FirstOpen(w.lists[key.path], key.text) == if ItemMark(w, key, k) == TaskFile.OPEN then k else 0
  {
    var tasks := w.lists[key.path];
    TaskFile.FirstOpenIsFirst(tasks, key.text, 1);
    assert ItemMark(w, key, k) == TaskFile.OPEN ==> TaskFile.IsOpen(tasks, k, key.text);
  }

  lemma ReserveKeepsPhase(w: World, agent: AgentId, terminal: string, target: Key, ok: bool, key: Key, k: nat, n: int, cap: int)
    requires Phase(w, key, k, n, cap) && w.flight.None?
    ensures var u := Reserve(w, agent, terminal, target, ok);
            Phase(u, key, k, n, cap) && Count(u.log, key) == Count(w.log, key)
  {
    hide Apply, Count, TaskFile.FirstOpen;
    var u := Reserve(w, agent, terminal, target, ok);
    if u.log != w.log { CountGrows(w.log, u.log[|w.log|], key); }
    var j := if ok && target.path in w.lists then TaskFile.FirstOpen(w.lists[target.path], target.text) else 0;
    if j != 0 {
      PlaceOfFirstOpen(w.lists[target.path], target.text);
      if target == key {
        FirstOpenIsTheItem(w, key, k);
        OwnMarkKeepsItem(w, TaskFile.IN_PROGRESS, key, k);
        assert RowsFor(u, key) == RowsFor(w, key);
      } else {
        OtherMarkKeepsItem(w, target.path, j, TaskFile.IN_PROGRESS, key, k);
        PhaseIsLocal(w, u, key, k, n, cap);
      }
    } else {
      PhaseIsLocal(w, u, key, k, n, cap);
    }
  }

  lemma PlaceOfFirstOpen(tasks: seq<TaskFile.Task>, text: string)
    ensures TaskFile.FirstOpen(tasks, text) != 0 ==> TaskFile.IsOpen(tasks, TaskFile.FirstOpen(tasks, text), text)
  {
  }

  /** The lists after a rollback, and that it is no hand-out. */
  lemma RollbackIsNoHandOut(w: World, f: Flight, ok: bool, key: Key)
    ensures Count(Rollback(w, f, ok).log, key) == Count(w.log, key)
    ensures var u := Rollback(w, f, ok);
            u.rows == w.rows && u.issued == w.issued && u.attempts == w.attempts && u.flight == w.flight
  {
    hide Count;
    var u := Rollback(w, f, ok);
    if u.log != w.log { CountGrows(w.log, u.log[|w.log|], key); }
  }

  lemma RollbackOther(w: World, f: Flight, ok: bool, key: Key, k: nat)
    requires Item(w, key, k) && f.key != key
    ensures Item(Rollback(w, f, ok), key, k) && ItemMark(Rollback(w, f, ok), key, k) == ItemMark(w, key, k)
  {
    if ok && f.key.path in w.lists && TaskFile.IsInProgress(w.lists[f.key.path], f.index, f.key.text) {
      OtherMarkKeepsItem(w, f.key.path, f.index, TaskFile.OPEN, key, k);
    }
  }

  lemma RollbackOwn(w: World, f: Flight, ok: bool, k: nat)
    requires Item(w, f.key, k) && f.index == k && ItemMark(w, f.key, k) == TaskFile.IN_PROGRESS
    ensures Item(Rollback(w, f, ok), f.key, k)
    ensures ItemMark(Rollback(w, f, ok), f.key, k) == if ok then TaskFile.OPEN else TaskFile.IN_PROGRESS
  {
    if ok { OwnMarkKeepsItem(w, TaskFile.OPEN, f.key, k); }
  }

  lemma RefuseOther(w: World, f: Flight, e: Ending, key: Key, k: nat)
    requires Item(w, key, k) && f.key != key && e.SendFailed?
    ensures var u := Refuse(w, f, e);
            && Item(u, key, k) && ItemMark(u, key, k) == ItemMark(w, key, k)
            && Count(u.log, key) == Count(w.log, key) && Attempts(u, key) == Attempts(w, key)
            && u.rows == w.rows && u.issued == w.issued && u.flight == w.flight
  {
    hide Count, Rollback;
    var counted := if e.countOk then Bumped(w, f.key) else w;
    RollbackIsNoHandOut(counted, f, e.mutateOk, key);
    RollbackOther(counted, f, e.mutateOk, key, k);
    CountGrows(w.log, Told(f.key), key);
  }

  lemma DeliverOther(w: World, e: Ending, key: Key, k: nat, n: int, cap: int)
    requires Phase(w, key, k, n, cap) && w.flight.Some? && w.flight.value.key != key
    ensures Phase(Deliver(w, e), key, k, n, cap) && Count(Deliver(w, e).log, key) == Count(w.log, key)
  {
    hide Apply, Count, Phase, Rollback, Refuse;
    PhaseParts(w, key, k, n, cap);
    var u, f, landed := Deliver(w, e), w.flight.value, w.(flight := None);
    match e
    case Abandoned(ok) =>
      CountGrows(w.log, Dropped(f), key);
      RollbackIsNoHandOut(Logged(landed, Dropped(f)), f, ok, key);
      RollbackOther(Logged(landed, Dropped(f)), f, ok, key, k);
      PhaseIsLocal(w, u, key, k, n, cap);
    case SendFailed(_, _, _, _) =>
      CountGrows(w.log, Failed(f), key);
      RefuseOther(Logged(landed, Failed(f)), f, e, key, k);
      PhaseIsLocal(w, u, key, k, n, cap);
    case Accepted(_, _) =>
      CountGrows(w.log, Sent(f), key);
      PhaseIsLocal(w, u, key, k, n, cap);
  }

  lemma DeliverOwn(w: World, e: Ending, key: Key, k: nat, n: int, cap: int)
    requires Phase(w, key, k, n, cap) && InFlight(w, key) && (e.SendFailed? ==> e.countOk && e.auditOk)
    ensures var u := Deliver(w, e);
            var m := n + Count(u.log, key) - Count(w.log, key);
            Phase(u, key, k, m, cap)
  {
    hide Apply, Count, Rollback;
    var u, f, landed := Deliver(w, e), w.flight.value, w.(flight := None);
    match e
    case Abandoned(ok) =>
      CountGrows(w.log, Dropped(f), key);
      RollbackIsNoHandOut(Logged(landed, Dropped(f)), f, ok, key);
      RollbackOwn(Logged(landed, Dropped(f)), f, ok, k);
      assert RowsFor(u, key) == {};
    case SendFailed(_, _, _, _) =>
      CountGrows(w.log, Failed(f), key);
      var failed := Logged(landed, Failed(f));
      var counted := Bumped(failed, f.key);
      RollbackIsNoHandOut(counted, f, e.mutateOk, key);
      RollbackOwn(counted, f, e.mutateOk, k);
      CountGrows(failed.log, Told(f.key), key);
      assert RowsFor(u, key) == {};
    case Accepted(now, recordOk) =>
      CountGrows(w.log, Sent(f), key);
      assert RowsFor(w, key) == {};
      if recordOk {
        assert RowsFor(u, key) == {w.issued};
      } else {
        assert RowsFor(u, key) == {};
      }
  }

  lemma RestartKeepsPhase(w: World, now: int, ok: bool, key: Key, k: nat, n: int, cap: int)
    requires Phase(w, key, k, n, cap)
    ensures Phase(Restart(w, now, ok), key, k, n, cap) && Count(Restart(w, now, ok).log, key) == Count(w.log, key)
  {
    hide Apply, Count;
    var u := Restart(w, now, ok);
    if w.flight.Some? { CountGrows(w.log, Dropped(w.flight.value), key); }
    assert RowsFor(u, key) == RowsFor(w, key);
  }

  lemma RewriteKeepsPhase(w: World, path: string, tasks: seq<TaskFile.Task>, key: Key, k: nat, n: int, cap: int)
    requires Phase(w, key, k, n, cap) && path != key.path
    ensures Phase(Rewrite(w, path, tasks), key, k, n, cap) && Count(Rewrite(w, path, tasks).log, key) == Count(w.log, key)
  {
    hide Phase, Count;
    PhaseParts(w, key, k, n, cap);
    OpeningsAreNoHandOuts(w.log, OpenIds(ListOf(w, path)), tasks, key);
    PhaseIsLocal(w, Rewrite(w, path, tasks), key, k, n, cap);
  }

  lemma OtherRowKeepsPhase(w: World, f: Flight, now: int, key: Key, k: nat, n: int, cap: int)
    requires Phase(w, key, k, n, cap) && f.key != key
    ensures Phase(RecordRow(w, f, now), key, k, n, cap) && RecordRow(w, f, now).log == w.log
  {
    hide Phase;
    PhaseParts(w, key, k, n, cap);
    PhaseIsLocal(w, RecordRow(w, f, now), key, k, n, cap);
  }

  lemma WithdrawalKeepsPhase(w: World, id: nat, key: Key, k: nat, n: int, cap: int)
    requires Phase(w, key, k, n, cap)
    ensures Phase(w.(rows := w.rows - {id}), key, k, n, cap)
  {
    assert RowsFor(w.(rows := w.rows - {id}), key) == RowsFor(w, key) - {id};
  }

  lemma StepKeepsPhase(w: World, s: Step, key: Key, k: nat, n: int, cap: int)
    requires Phase(w, key, k, n, cap) && Reliable(w, s, key)
    ensures Phase(Act(w, s), key, k, n + Count(Act(w, s).log, key) - Count(w.log, key), cap)
  {
    hide Sweep, Reserve, Deliver, Restart, Rewrite, RecordRow, Phase, Count, Apply;
    match s
    case Swept(v, standDown, ledgerOk, sources) => if w.flight.None? { SweepKeepsPhase(w, v, standDown, ledgerOk, sources, key, k, n, cap); }
    case Reserved(agent, terminal, target, ok) => if w.flight.None? { ReserveKeepsPhase(w, agent, terminal, target, ok, key, k, n, cap); }
    case Concluded(e) =>
      if w.flight.Some? && InFlight(w, key) {
        DeliverOwn(w, e, key, k, n, cap);
      } else if w.flight.Some? {
        DeliverOther(w, e, key, k, n, cap);
      }
    case Resumed(agent, terminal, ok) =>
      PhaseParts(w, key, k, n, cap);
      PhaseIsLocal(w, Act(w, s), key, k, n, cap);
    case Started(now, ok) => RestartKeepsPhase(w, now, ok, key, k, n, cap);
    case Edited(path, tasks) => RewriteKeepsPhase(w, path, tasks, key, k, n, cap);
    case HandedElsewhere(f, now) => OtherRowKeepsPhase(w, f, now, key, k, n, cap);
    case Withdrawn(id) => WithdrawalKeepsPhase(w, id, key, k, n, cap);
  }

  // ----- any number of steps -----

  ghost predicate AllReliable(w: World, steps: seq<Step>, key: Key) {
    forall i :: 0 <= i < |steps| ==> Reliable(Reached(w, steps[..i]), steps[i], key)
  }

  lemma {:induction false} PhaseOverSteps(w: World, steps: seq<Step>, key: Key, k: nat, n: int, cap: int)
    requires Phase(w, key, k, n, cap) && AllReliable(w, steps, key)
    ensures Phase(Reached(w, steps), key, k, n + Count(Reached(w, steps).log, key) - Count(w.log, key), cap)
  {
    hide Act, Count, Reliable, Phase;
    if steps != [] {
      var m := |steps| - 1;
      forall i | 0 <= i < m ensures steps[..m][..i] == steps[..i] {}
      PhaseOverSteps(w, steps[..m], key, k, n, cap);
      var u := Reached(w, steps[..m]);
      StepKeepsPhase(u, steps[m], key, k, n + Count(u.log, key) - Count(w.log, key), cap);
    }
  }

  /**
   However agents, restarts, refused sends and reclaims fall, an item counted n times so far is handed out
   at most cap - n times more until somebody edits its list, and then it stays marked. The cap is three
   for an item counted less than three times, and one more hand-out for any other.
   */
  lemma HandOutsAreBounded(w: World, steps: seq<Step>, key: Key, k: nat, n: int, cap: int)
    requires Phase(w, key, k, n, cap) && AllReliable(w, steps, key)
    ensures Count(Reached(w, steps).log, key) - Count(w.log, key) <= cap - n
    ensures Item(Reached(w, steps), key, k)
    ensures Count(Reached(w, steps).log, key) - Count(w.log, key) == cap - n ==>
              ItemMark(Reached(w, steps), key, k) != TaskFile.OPEN
  {
    hide Reached, Count, AllReliable;
    PhaseOverSteps(w, steps, key, k, n, cap);
  }

  // ----- when an earlier hand-out is still on the books -----

  const KEY := Key("l", "a")
  const LINE := TaskFile.Task(1, "a", TaskFile.OPEN)

  function RowOf(i: nat): Row {
    Row(i, KEY, 1, 1, "", 0, 0, false)
  }

  /** One line, handed out n times to one agent at time 0, every hand-out still in the ledger. */
  ghost predicate HandedOut(w: World, n: nat, mark: char) {
    && w.lists == map["l" := [LINE.(mark := mark)]] && w.flight.None? && w.issued == n
    && w.rows == (map i: nat | 0 <= i < n :: RowOf(i)) && Attempts(w, KEY) == n
  }

  /** The operator reopens the line and it is delivered once more. */
  lemma HandOutAgain(w: World, n: nat, mark: char) returns (u: World, v: World, x: World)
    requires HandedOut(w, n, mark) || (w == EMPTY && n == 0)
    ensures u == Act(w, Edited("l", [LINE])) && v == Act(u, Reserved(1, "", KEY, true)) && x == Act(v, Concluded(Accepted(0, true)))
    ensures Possible(w, Edited("l", [LINE])) && HandedOut(x, n + 1, TaskFile.IN_PROGRESS)
  {
    hide Apply, Rewrite, RecordRow;
    u := ReopenLine(w, n, mark);
    v := Act(u, Reserved(1, "", KEY, true));
    assert TaskFile.FirstOpen([LINE], "a") == 1;
    assert TaskFile.WithMark([LINE], 1, TaskFile.IN_PROGRESS) == [LINE.(mark := TaskFile.IN_PROGRESS)];
    assert v.lists == map["l" := [LINE.(mark := TaskFile.IN_PROGRESS)]];
    x := Act(v, Concluded(Accepted(0, true)));
    OneRowMore(Ticked(Logged(v.(flight := None), Sent(v.flight.value)), [Landed(1)]), v.flight.value, n);
  }

  lemma ReopenLine(w: World, n: nat, mark: char) returns (u: World)
    requires HandedOut(w, n, mark) || (w == EMPTY && n == 0)
    ensures u == Act(w, Edited("l", [LINE])) && Possible(w, Edited("l", [LINE]))
    ensures u == w.(lists := map["l" := [LINE]], log := u.log)
  {
    hide NewlyOpen;
    u := Act(w, Edited("l", [LINE]));
  }

  lemma OneRowMore(w: World, f: Flight, n: nat)
    requires f == Flight(1, "", KEY, 1, f.task) && w.issued == n && w.rows == map i: nat | 0 <= i < n :: RowOf(i)
    ensures var u := RecordRow(w, f, 0);
            u.issued == n + 1 && u.rows == (map i: nat | 0 <= i < n + 1 :: RowOf(i))
            && u.lists == w.lists && u.flight == w.flight && Attempts(u, KEY) == Attempts(w, KEY) + 1
  {
  }

  function SweepView(): View {
    var marked, reopened := [LINE.(mark := TaskFile.IN_PROGRESS)], [LINE];
    var ok := RowEnv(Some(marked), true, true, true, true, true);
    View(150, [], {}, map[], map[0 := ok, 1 := ok, 2 := ok.(seen := Some(reopened))])
  }

  lemma SweepJudges()
    ensures Judge(RowOf(0), SweepView(), 3).Escalate?
    ensures Judge(RowOf(1), SweepView(), 0).Return?
    ensures Judge(RowOf(2), SweepView(), 0).Retire?
  {
    var marked := [LINE.(mark := TaskFile.IN_PROGRESS)];
    assert TaskFile.IsInProgress(marked, 1, "a");
    assert !TaskFile.InProgress([LINE], "a");
  }

  lemma FirstRowIsTold(w: World)
    requires Attempts(w, KEY) == 3
    ensures var u := SettleRow(w, RowOf(0), SweepView());
            u.log == w.log + [Told(KEY)] && u.lists == w.lists && Attempts(u, KEY) == 0
  {
    hide Judge, Forgo;
    SweepJudges();
    ForgoFrame(DeleteRow(w, RowOf(0), true), RowOf(0));
  }

  lemma SecondRowReopens(w: World)
    requires Attempts(w, KEY) == 0 && w.lists == map["l" := [LINE.(mark := TaskFile.IN_PROGRESS)]]
    ensures var u := SettleRow(w, RowOf(1), SweepView());
            u.log == w.log + [Opened(1)] && u.lists == map["l" := [LINE]] && Attempts(u, KEY) == 0
  {
    hide Judge, Forgo;
    SweepJudges();
    assert ReclaimAt(w, RowOf(1), EnvOf(SweepView(), RowOf(1))) == 1;
    ForgoFrame(Mark(w, "l", 1, TaskFile.OPEN), RowOf(1));
    assert TaskFile.WithMark([LINE.(mark := TaskFile.IN_PROGRESS)], 1, TaskFile.OPEN) == [LINE];
  }

  lemma ThirdRowRetires(w: World)
    requires Attempts(w, KEY) == 0
    ensures var u := SettleRow(w, RowOf(2), SweepView()); u.log == w.log && u.lists == w.lists
  {
    hide Judge;
    SweepJudges();
  }

  lemma ThreeRows(rows: map<nat, Row>)
    requires rows == map i: nat | 0 <= i < 3 :: RowOf(i)
    ensures Ledger(rows, 3) == [RowOf(0), RowOf(1), RowOf(2)]
  {
    assert Ledger(rows, 1) == [RowOf(0)];
    assert Ledger(rows, 2) == [RowOf(0), RowOf(1)];
  }

  lemma ThreeSettled(w: World, a: Row, b: Row, c: Row, v: View)
    ensures ReclaimAll(w, [a, b, c], v).world == SettleRow(SettleRow(SettleRow(w, a, v), b, v), c, v)
  {
    hide SettleRow, Awaits;
    var l := [a, b, c];
    assert l[..2] == [a, b] && [a, b][..1] == [a] && [a][..0] == [];
    assert ReclaimAll(w, [a], v).world == SettleRow(w, a, v);
    assert ReclaimAll(w, [a, b], v).world == SettleRow(SettleRow(w, a, v), b, v);
  }

  lemma SweepTellsAndReopens(w: World)
    requires HandedOut(w, 3, TaskFile.IN_PROGRESS)
    ensures var u := Sweep(w, SweepView(), false, true, []);
            && u.log == w.log + [Told(KEY), Opened(1)]
            && u.lists == map["l" := [LINE]]
  {
    hide Apply, SettleRow, ReclaimAll, Ledger;
    var v := SweepView();
    var noted := Ticked(w, [Listing(v.agents, v.now)]);
    ThreeRows(noted.rows);
    ThreeSettled(noted, RowOf(0), RowOf(1), RowOf(2), v);
    var w1 := SettleRow(noted, RowOf(0), v);
    FirstRowIsTold(noted);
    SecondRowReopens(w1);
    ThirdRowRetires(SettleRow(w1, RowOf(1), v));
  }

  /**
   Rows recorded before the list was edited break the bound: the operator is told that the item is left
   marked, and the same sweep reopens it for three more hand-outs.
   */
  lemma OldRowsBreakTheBound() returns (steps: seq<Step>)
    ensures AllPossible(EMPTY, steps)
    ensures var w := Reached(EMPTY, steps);
            && |w.log| >= 2 && w.log[|w.log| - 2] == Told(KEY)
            && Item(w, KEY, 1) && ItemMark(w, KEY, 1) == TaskFile.OPEN
  {
    hide Act, Reached, AllPossible, HandedOut;
    steps := [];
    Nothing(EMPTY);
    var w := EMPTY;
    for n := 0 to 3
      invariant AllPossible(EMPTY, steps) && Reached(EMPTY, steps) == w
      invariant if n == 0 then w == EMPTY else HandedOut(w, n, TaskFile.IN_PROGRESS)
    {
      var u, v, x := HandOutAgain(w, n, TaskFile.IN_PROGRESS);
      OneMore(EMPTY, steps, Edited("l", [LINE]));
      steps := steps + [Edited("l", [LINE])];
      OneMore(EMPTY, steps, Reserved(1, "", KEY, true));
      steps := steps + [Reserved(1, "", KEY, true)];
      OneMore(EMPTY, steps, Concluded(Accepted(0, true)));
      steps := steps + [Concluded(Accepted(0, true))];
      w := x;
    }
    SweepTellsAndReopens(w);
    SweepIsAct(w);
    OneMore(EMPTY, steps, Swept(SweepView(), false, true, []));
    steps := steps + [Swept(SweepView(), false, true, [])];
  }

  lemma SweepIsAct(w: World)
    requires HandedOut(w, 3, TaskFile.IN_PROGRESS)
    ensures Act(w, Swept(SweepView(), false, true, [])) == Sweep(w, SweepView(), false, true, [])
  {
    hide Sweep;
  }

  // ----- ledger ids -----

  lemma {:induction false} ReclaimStaysFiled(w: World, ledger: seq<Row>, v: View)
    requires Filed(w)
    ensures Filed(ReclaimAll(w, ledger, v).world)
  {
    hide SettleRow, Awaits;
    if ledger != [] {
      var n := |ledger| - 1;
      var u := ReclaimAll(w, ledger[..n], v).world;
      ReclaimStaysFiled(w, ledger[..n], v);
      SettleKeepsOthers(u, ledger[n], v);
      SettleFrame(u, ledger[n], v, ledger[n].key);
    }
  }

  lemma DeliverStaysFiled(w: World, e: Ending)
    requires Filed(w) && w.flight.Some?
    ensures Filed(Deliver(w, e))
  {
    hide Apply;
  }

  /** Every row of every run carries the id it is filed under, below the next one to be issued. */
  lemma {:induction false} RunIsFiled(steps: seq<Step>)
    ensures Filed(Reached(EMPTY, steps))
  {
    hide Apply, Sweep, Deliver, ReclaimAll, Ledger;
    if steps != [] {
      var n := |steps| - 1;
      var w, s := Reached(EMPTY, steps[..n]), steps[n];
      RunIsFiled(steps[..n]);
      match s
      case Swept(v, standDown, ledgerOk, sources) => SweepStaysFiled(w, v, standDown, ledgerOk, sources);
      case Concluded(e) => if w.flight.Some? { DeliverStaysFiled(w, e); }
      case _ =>
    }
  }

  lemma SweepStaysFiled(w: World, v: View, standDown: bool, ledgerOk: bool, sources: seq<Pairing.Source>)
    requires Filed(w)
    ensures Filed(Sweep(w, v, standDown, ledgerOk, sources))
  {
    hide Apply, ReclaimAll, Ledger, Pairing.PairSources;
    var noted := Ticked(w, [Listing(v.agents, v.now)]);
    ReclaimStaysFiled(noted, Ledger(noted.rows, noted.issued), v);
  }

  // ----- the life of a ledger row -----

  /** A row is confirmed only by its own tenant at work, and its window is renewed only by a start, three times at most. */
  predicate RowChange(was: Row, now: Row, s: Step) {
    || now == was
    || (s.Resumed? && s.ok && s.agent == was.agent && (was.terminal == "" || s.terminal == "" || was.terminal == s.terminal)
        && now == was.(confirmed := true))
    || (s.Started? && s.ok && !was.confirmed && was.restamps < MAX_RESTAMPS
        && now == was.(reservedAt := s.now, restamps := was.restamps + 1))
  }

  lemma {:induction false} ReclaimKeepsRows(w: World, ledger: seq<Row>, v: View, id: nat)
    requires id in ReclaimAll(w, ledger, v).world.rows
    ensures id in w.rows && ReclaimAll(w, ledger, v).world.rows[id] == w.rows[id]
  {
    hide SettleRow, Awaits;
    if ledger != [] {
      var n := |ledger| - 1;
      SettleKeepsOthers(ReclaimAll(w, ledger[..n], v).world, ledger[n], v);
      ReclaimKeepsRows(w, ledger[..n], v, id);
    }
  }

  function RowOfFlight(id: nat, f: Flight, now: int): Row {
    Row(id, f.key, f.index, f.agent, f.terminal, now, 0, false)
  }

  lemma DeliverKeepsRows(w: World, e: Ending, id: nat)
    requires w.flight.Some? && Filed(w) && id in Deliver(w, e).rows
    ensures if id in w.rows then Deliver(w, e).rows[id] == w.rows[id]
            else e.Accepted? && e.recordOk && id == w.issued
                 && Deliver(w, e).rows[id] == RowOfFlight(id, w.flight.value, e.now)
  {
    hide Apply;
  }

  /** Rows come only from accepted deliveries and hand-outs elsewhere, one id each, and change in no other way than the two above. */
  lemma RowsChangeOnlySo(w: World, s: Step, id: nat)
    requires Filed(w) && id in Act(w, s).rows
    ensures if id in w.rows then RowChange(w.rows[id], Act(w, s).rows[id], s)
            else id == w.issued
                 && ((s.Concluded? && s.ending.Accepted? && w.flight.Some? && Act(w, s).rows[id] == RowOfFlight(id, w.flight.value, s.ending.now))
                     || (s.HandedElsewhere? && Act(w, s).rows[id] == RowOfFlight(id, s.flight, s.now)))
  {
    hide Apply, ReclaimAll, Deliver, Ledger, Pairing.PairSources, TaskFile.FirstOpen;
    match s
    case Swept(_, _, _, _) =>
      if w.flight.None? { SweptRowsWere(w, s, id); }
    case Concluded(e) => if w.flight.Some? { DeliverKeepsRows(w, e, id); }
    case _ =>
  }

  lemma SweptRowsWere(w: World, s: Step, id: nat)
    requires s.Swept? && w.flight.None? && id in Act(w, s).rows
    ensures id in w.rows && Act(w, s).rows[id] == w.rows[id]
  {
    hide Apply, ReclaimAll, Ledger, Pairing.PairSources;
    var noted := Ticked(w, [Listing(s.view.agents, s.view.now)]);
    if !s.standDown && s.ledgerOk { ReclaimKeepsRows(noted, Ledger(noted.rows, noted.issued), s.view, id); }
  }
}
