/**
 Every run of the unattended hand-out: sweeps, deliveries, confirmations, restarts, failed writes, and
 edits of the lists by other processes at any point.
 */
module HandOutRuns {
  import opened Wrappers
  import opened IdleClock
  import TaskFile
  import Pairing
  import opened HandOut

  // ----- the history of one line's mark -----

  /** Where a history is read from, and the lines held to be taken there. */
  datatype Base = Base(from: nat, taken: set<nat>)

  const ORIGIN := Base(0, {})

  /** The last thing that happened to the line's mark was a delivery winning it. */
  predicate Taken(b: Base, log: seq<Event>, task: nat) {
    if |log| <= b.from then task in b.taken
    else
      var e := log[|log| - 1];
      if e.Won? && e.flight.task == task then true
      else if e.Opened? && e.task == task then false
      else Taken(b, log[..|log| - 1], task)
  }

  /** The delivery under way according to the history. */
  function UnderWay(log: seq<Event>): Option<Flight> {
    if log == [] then None
    else
      match log[|log| - 1]
      case Won(f) => Some(f)
      case Sent(_) | Failed(_) | Dropped(_) => None
      case _ => UnderWay(log[..|log| - 1])
  }

  /** The event that may follow a history: a win only of a line not taken, an ending only of the win under way. */
  predicate MayFollow(b: Base, log: seq<Event>, e: Event) {
    match e
    case Won(f) => UnderWay(log).None? && !Taken(b, log, f.task)
    case Sent(f) => UnderWay(log) == Some(f)
    case Failed(f) => UnderWay(log) == Some(f)
    case Dropped(f) => UnderWay(log) == Some(f)
    case _ => true
  }

  predicate Orderly(b: Base, log: seq<Event>) {
    && b.from <= |log| && UnderWay(log[..b.from]).None?
    && forall k :: b.from <= k < |log| ==> MayFollow(b, log[..k], log[k])
  }

  lemma OrderlyGrows(b: Base, log: seq<Event>, e: Event)
    requires Orderly(b, log) && MayFollow(b, log, e)
    ensures Orderly(b, log + [e])
    ensures UnderWay(log + [e]) == match e { case Won(f) => Some(f) case Sent(_) | Failed(_) | Dropped(_) => None case _ => UnderWay(log) }
    ensures forall t :: Taken(b, log + [e], t) == if e.Won? && e.flight.task == t then true
                                              else if e.Opened? && e.task == t then false else Taken(b, log, t)
  {
    var more := log + [e];
    assert more[..|more| - 1] == log && more[..b.from] == log[..b.from];
    forall k | b.from <= k < |more| ensures MayFollow(b, more[..k], more[k]) {
      assert more[..k] == log[..k];
    }
  }

  // ----- what holds in every reachable state -----

  ghost predicate LinesApart(w: World) {
    forall p, q, i, j :: p in w.lists && q in w.lists && 0 <= i < |w.lists[p]| && 0 <= j < |w.lists[q]| ==>
                           (w.lists[p][i].id == w.lists[q][j].id ==> p == q && i == j)
  }

  /** No open line was taken and not returned. */
  ghost predicate OpenIsFree(b: Base, w: World) {
    forall p, i :: p in w.lists && 0 <= i < |w.lists[p]| && w.lists[p][i].mark == TaskFile.OPEN
                   ==> !Taken(b, w.log, w.lists[p][i].id)
  }

  ghost predicate Sane(b: Base, w: World) {
    LinesApart(w) && OpenIsFree(b, w) && Orderly(b, w.log) && UnderWay(w.log) == w.flight
  }

  lemma SaneIsLocal(b: Base, w: World, v: World)
    requires Sane(b, w) && v.lists == w.lists && v.log == w.log && v.flight == w.flight
    ensures Sane(b, v)
  {
  }

  lemma LogKeepsSane(b: Base, w: World, e: Event)
    requires LinesApart(w) && OpenIsFree(b, w) && Orderly(b, w.log) && MayFollow(b, w.log, e) && !e.Won?
    ensures var v := Logged(w, e); LinesApart(v) && OpenIsFree(b, v) && Orderly(b, v.log)
    ensures UnderWay(Logged(w, e).log) == if e.Sent? || e.Failed? || e.Dropped? then None else UnderWay(w.log)
  {
    OrderlyGrows(b, w.log, e);
  }

  /** Reopening a marked line is recorded as it happens. */
  lemma OpeningKeepsSane(b: Base, w: World, path: string, k: nat)
    requires LinesApart(w) && OpenIsFree(b, w) && Orderly(b, w.log)
    requires path in w.lists && 1 <= k <= |w.lists[path]|
    ensures var v := Mark(w, path, k, TaskFile.OPEN);
            LinesApart(v) && OpenIsFree(b, v) && Orderly(b, v.log) && UnderWay(v.log) == UnderWay(w.log)
  {
    var v := Mark(w, path, k, TaskFile.OPEN);
    OrderlyGrows(b, w.log, Opened(w.lists[path][k - 1].id));
    forall p, i | p in v.lists && 0 <= i < |v.lists[p]| && v.lists[p][i].mark == TaskFile.OPEN
      ensures !Taken(b, v.log, v.lists[p][i].id)
    {
      assert v.lists[p][i].id == w.lists[p][i].id;
    }
  }

  lemma WinningKeepsSane(b: Base, w: World, path: string, k: nat, f: Flight)
    requires Sane(b, w) && w.flight.None? && path in w.lists && 1 <= k <= |w.lists[path]|
    requires w.lists[path][k - 1].mark == TaskFile.OPEN && f.task == w.lists[path][k - 1].id
    ensures Sane(b, Logged(Mark(w, path, k, TaskFile.IN_PROGRESS).(flight := Some(f)), Won(f)))
  {
    hide Orderly, UnderWay, Taken;
    var v := Logged(Mark(w, path, k, TaskFile.IN_PROGRESS).(flight := Some(f)), Won(f));
    assert MayFollow(b, w.log, Won(f));
    OrderlyGrows(b, w.log, Won(f));
    forall p, i | p in v.lists && 0 <= i < |v.lists[p]| && v.lists[p][i].mark == TaskFile.OPEN
      ensures !Taken(b, v.log, v.lists[p][i].id)
    {
      assert v.lists[p][i] == w.lists[p][i] && !(p == path && i == k - 1);
    }
    forall p, i | p in v.lists && 0 <= i < |v.lists[p]| ensures p in w.lists && i < |w.lists[p]| && v.lists[p][i].id == w.lists[p][i].id {}
  }

  lemma ReserveKeepsSane(b: Base, w: World, agent: AgentId, terminal: string, key: Key, ok: bool)
    requires Sane(b, w) && w.flight.None?
    ensures Sane(b, Reserve(w, agent, terminal, key, ok))
  {
    hide Sane, Apply, TaskFile.FirstOpenFrom;
    var k := if ok && key.path in w.lists then TaskFile.FirstOpen(w.lists[key.path], key.text) else 0;
    if k == 0 {
      SaneIsLocal(b, w, Reserve(w, agent, terminal, key, ok));
    } else {
      WinningKeepsSane(b, w, key.path, k, Flight(agent, terminal, key, k, w.lists[key.path][k - 1].id));
    }
  }

  lemma RollbackKeepsSane(b: Base, w: World, f: Flight, ok: bool)
    requires Sane(b, w)
    ensures Sane(b, Rollback(w, f, ok))
  {
    if ok && f.key.path in w.lists && TaskFile.IsInProgress(w.lists[f.key.path], f.index, f.key.text) {
      OpeningKeepsSane(b, w, f.key.path, f.index);
    }
  }

  lemma DeliverKeepsSane(b: Base, w: World, e: Ending)
    requires Sane(b, w) && w.flight.Some?
    ensures Sane(b, Deliver(w, e))
  {
    hide Orderly, UnderWay, Taken, LinesApart, OpenIsFree, Apply;
    var f, landed := w.flight.value, w.(flight := None);
    assert LinesApart(landed) && OpenIsFree(b, landed) by { LandedIsSane(b, w); }
    match e
    case Abandoned(ok) =>
      LogKeepsSane(b, landed, Dropped(f));
      RollbackKeepsSane(b, Logged(landed, Dropped(f)), f, ok);
      SaneIsLocal(b, Rollback(Logged(landed, Dropped(f)), f, ok), Deliver(w, e));
    case SendFailed(_, _, _, _) =>
      LogKeepsSane(b, landed, Failed(f));
      RefuseKeepsSane(b, Logged(landed, Failed(f)), f, e);
      SaneIsLocal(b, Refuse(Logged(landed, Failed(f)), f, e), Deliver(w, e));
    case Accepted(now, recordOk) =>
      LogKeepsSane(b, landed, Sent(f));
      SaneIsLocal(b, Logged(landed, Sent(f)), Deliver(w, e));
  }

  lemma LandedIsSane(b: Base, w: World)
    requires Sane(b, w)
    ensures LinesApart(w.(flight := None)) && OpenIsFree(b, w.(flight := None))
  {
  }

  lemma RefuseKeepsSane(b: Base, w: World, f: Flight, e: Ending)
    requires Sane(b, w) && e.SendFailed?
    ensures Sane(b, Refuse(w, f, e))
  {
    hide Orderly, UnderWay, Taken, LinesApart, OpenIsFree;
    var counted := if e.countOk then Bumped(w, f.key) else w;
    SaneIsLocal(b, w, counted);
    SaneIsLocal(b, w, ClearCounter(counted, f.key, e.clearOk));
    if e.countOk && Attempts(counted, f.key) >= MAX_HANDOUTS && e.auditOk {
      LogKeepsSane(b, ClearCounter(counted, f.key, e.clearOk), Told(f.key));
    } else {
      RollbackKeepsSane(b, counted, f, e.mutateOk);
    }
  }

  lemma SettleKeepsSane(b: Base, w: World, r: Row, v: View)
    requires Sane(b, w)
    ensures Sane(b, SettleRow(w, r, v))
  {
    hide Judge, Orderly, UnderWay, Taken, LinesApart, OpenIsFree, Apply;
    var e := EnvOf(v, r);
    match Judge(r, v, Attempts(w, r.key))
    case Escalate =>
      var settled := ClearCounter(Forgo(DeleteRow(w, r, e.deleteOk), r), r.key, e.clearOk);
      SaneIsLocal(b, w, settled);
      if e.auditOk { LogKeepsSane(b, settled, Told(r.key)); }
    case Return =>
      var k := ReclaimAt(w, r, e);
      if k != 0 {
        OpeningKeepsSane(b, w, r.key.path, k);
        SaneIsLocal(b, Mark(w, r.key.path, k, TaskFile.OPEN), SettleRow(w, r, v));
      }
    case _ => SaneIsLocal(b, w, SettleRow(w, r, v));
  }

  lemma {:induction false} ReclaimKeepsSane(b: Base, w: World, ledger: seq<Row>, v: View)
    requires Sane(b, w)
    ensures Sane(b, ReclaimAll(w, ledger, v).world)
  {
    hide Sane, SettleRow;
    if ledger != [] {
      ReclaimKeepsSane(b, w, ledger[..|ledger| - 1], v);
      SettleKeepsSane(b, ReclaimAll(w, ledger[..|ledger| - 1], v).world, ledger[|ledger| - 1], v);
    }
  }

  lemma {:induction false} NewlyOpenKeepsOrder(b: Base, log: seq<Event>, was: set<nat>, tasks: seq<TaskFile.Task>)
    requires Orderly(b, log)
    ensures var all := log + NewlyOpen(was, tasks);
            && Orderly(b, all) && UnderWay(all) == UnderWay(log)
            && (forall t :: Taken(b, all, t) ==> Taken(b, log, t))
            && (forall t :: t in tasks && t.mark == TaskFile.OPEN && t.id !in was ==> !Taken(b, all, t.id))
  {
    hide Orderly, MayFollow;
    if tasks == [] {
      assert log + NewlyOpen(was, tasks) == log;
    } else {
      var n := |tasks| - 1;
      NewlyOpenKeepsOrder(b, log, was, tasks[..n]);
      assert tasks == tasks[..n] + [tasks[n]];
      var before := log + NewlyOpen(was, tasks[..n]);
      if tasks[n].mark == TaskFile.OPEN && tasks[n].id !in was {
        assert MayFollow(b, before, Opened(tasks[n].id)) by { AnyoneMayOpen(b, before, tasks[n].id); }
        OrderlyGrows(b, before, Opened(tasks[n].id));
        assert log + NewlyOpen(was, tasks) == before + [Opened(tasks[n].id)];
      } else {
        assert log + NewlyOpen(was, tasks) == before;
      }
    }
  }

  lemma AnyoneMayOpen(b: Base, log: seq<Event>, task: nat)
    ensures MayFollow(b, log, Opened(task))
  {
  }

  lemma RewriteKeepsSane(b: Base, w: World, path: string, tasks: seq<TaskFile.Task>)
    requires Sane(b, w) && Possible(w, Edited(path, tasks))
    ensures Sane(b, Rewrite(w, path, tasks))
  {
    hide Orderly, UnderWay, Taken;
    var v, was := Rewrite(w, path, tasks), OpenIds(ListOf(w, path));
    NewlyOpenKeepsOrder(b, w.log, was, tasks);
    forall p, i | p in v.lists && 0 <= i < |v.lists[p]| && v.lists[p][i].mark == TaskFile.OPEN
      ensures !Taken(b, v.log, v.lists[p][i].id)
    {
      var t := v.lists[p][i];
      if p == path && t.id in was {
        var u :| u in ListOf(w, path) && u.mark == TaskFile.OPEN && u.id == t.id;
        var j :| 0 <= j < |w.lists[path]| && w.lists[path][j] == u;
        assert !Taken(b, w.log, w.lists[path][j].id);
      } else if p == path {
        assert t in tasks;
      } else {
        assert !Taken(b, w.log, w.lists[p][i].id);
      }
    }
    forall p, q, i, j | p in v.lists && q in v.lists && 0 <= i < |v.lists[p]| && 0 <= j < |v.lists[q]|
                        && v.lists[p][i].id == v.lists[q][j].id
      ensures p == q && i == j
    {
      assert v.lists[p][i] in v.lists[p] && v.lists[q][j] in v.lists[q];
    }
  }

  lemma SweepKeepsSane(b: Base, w: World, s: Step)
    requires Sane(b, w) && s.Swept? && w.flight.None?
    ensures Sane(b, Act(w, s))
  {
    hide Sane, ReclaimAll, Pairing.PairSources, Apply;
    var noted := Ticked(w, [Listing(s.view.agents, s.view.now)]);
    SaneIsLocal(b, w, noted);
    if !s.standDown && s.ledgerOk {
      var p := ReclaimAll(noted, Ledger(noted.rows, noted.issued), s.view);
      ReclaimKeepsSane(b, noted, Ledger(noted.rows, noted.issued), s.view);
      SaneIsLocal(b, p.world, Act(w, s));
    }
  }

  lemma StepKeepsSane(b: Base, w: World, s: Step)
    requires Sane(b, w) && Possible(w, s)
    ensures Sane(b, Act(w, s))
  {
    hide Sane, Sweep, Reserve, Deliver, Rewrite, Apply;
    match s
    case Swept(_, _, _, _) => if w.flight.None? { SweepKeepsSane(b, w, s); }
    case Reserved(agent, terminal, key, ok) => if w.flight.None? { ReserveKeepsSane(b, w, agent, terminal, key, ok); }
    case Concluded(e) => if w.flight.Some? { DeliverKeepsSane(b, w, e); }
    case Resumed(agent, terminal, ok) => SaneIsLocal(b, w, Act(w, s));
    case Started(now, ok) => RestartKeepsSane(b, w, now, ok);
    case Edited(path, tasks) => RewriteKeepsSane(b, w, path, tasks);
    case _ => SaneIsLocal(b, w, Act(w, s));
  }

  lemma RestartKeepsSane(b: Base, w: World, now: int, ok: bool)
    requires Sane(b, w)
    ensures Sane(b, Restart(w, now, ok))
  {
    hide Orderly, UnderWay, Taken, LinesApart, OpenIsFree, Apply;
    var u := w.(flight := None);
    LandedIsSane(b, w);
    if w.flight.Some? {
      LogKeepsSane(b, u, Dropped(w.flight.value));
      SaneIsLocal(b, Logged(u, Dropped(w.flight.value)), Restart(w, now, ok));
    } else {
      SaneIsLocal(b, w, Restart(w, now, ok));
    }
  }

  lemma {:induction false} RunStaysSane(b: Base, w: World, steps: seq<Step>)
    requires Sane(b, w) && AllPossible(w, steps)
    ensures Sane(b, Reached(w, steps))
  {
    hide Act, Possible, Sane;
    if steps != [] {
      var n := |steps| - 1;
      forall k | 0 <= k < n ensures steps[..n][..k] == steps[..k] {}
      RunStaysSane(b, w, steps[..n]);
      StepKeepsSane(b, Reached(w, steps[..n]), steps[n]);
    }
  }

  /** In every run an open line is not taken, and wins, sends and returns follow one another in order. */
  lemma RunIsSane(steps: seq<Step>)
    requires AllPossible(EMPTY, steps)
    ensures Sane(ORIGIN, Reached(EMPTY, steps))
  {
    hide Reached, AllPossible;
    assert Sane(ORIGIN, EMPTY);
    RunStaysSane(ORIGIN, EMPTY, steps);
  }

  // ----- no task is handed out twice -----

  lemma {:induction false} TakenUntilOpened(b: Base, log: seq<Event>, i: nat, task: nat) returns (k: nat)
    requires b.from <= i < |log| && Taken(b, log[..i], task) && !Taken(b, log, task)
    ensures i <= k < |log| && log[k] == Opened(task)
  {
    var n := |log| - 1;
    if log[n] == Opened(task) {
      k := n;
    } else {
      assert log[..n][..i] == log[..i];
      k := TakenUntilOpened(b, log[..n], i, task);
    }
  }

  /** Between two wins of one line something returned it to open. */
  lemma WinsAlternate(steps: seq<Step>, i: nat, j: nat) returns (k: nat)
    requires AllPossible(EMPTY, steps)
    requires var log := Reached(EMPTY, steps).log;
             i < j < |log| && log[i].Won? && log[j].Won? && log[i].flight.task == log[j].flight.task
    ensures i < k < j && Reached(EMPTY, steps).log[k] == Opened(Reached(EMPTY, steps).log[i].flight.task)
  {
    hide Act, Taken, Possible;
    RunIsSane(steps);
    var log := Reached(EMPTY, steps).log;
    assert MayFollow(ORIGIN, log[..j], log[j]);
    assert log[..j][..i + 1] == log[..i + 1] && log[..i + 1][..i] == log[..i];
    WonIsTaken(ORIGIN, log, i);
    k := TakenUntilOpened(ORIGIN, log[..j], i + 1, log[i].flight.task);
  }

  lemma WonIsTaken(b: Base, log: seq<Event>, i: nat)
    requires b.from <= i < |log| && log[i].Won?
    ensures Taken(b, log[..i + 1], log[i].flight.task)
  {
  }

  predicate Ends(e: Event) {
    e.Sent? || e.Failed? || e.Dropped?
  }

  lemma {:induction false} UnderWayWasWon(log: seq<Event>, from: nat) returns (i: nat)
    requires UnderWay(log).Some? && from <= |log| && UnderWay(log[..from]).None?
    ensures from <= i < |log| && log[i] == Won(UnderWay(log).value)
    ensures forall k :: i < k < |log| ==> !log[k].Won? && !Ends(log[k])
  {
    var n := |log| - 1;
    assert log[..|log|] == log;
    if log[n].Won? {
      i := n;
    } else {
      assert log[..n][..from] == log[..from];
      i := UnderWayWasWon(log[..n], from);
    }
  }

  /**
   Only a delivery that won the mark sends, and a win pays for one ending: the win stands before it with
   no other win and no other ending in between.
   */
  lemma SendsWereWon(steps: seq<Step>, j: nat) returns (i: nat)
    requires AllPossible(EMPTY, steps)
    requires j < |Reached(EMPTY, steps).log| && Ends(Reached(EMPTY, steps).log[j])
    ensures i < j && Reached(EMPTY, steps).log[i] == Won(Reached(EMPTY, steps).log[j].flight)
    ensures forall k :: i < k < j ==> !Reached(EMPTY, steps).log[k].Won? && !Ends(Reached(EMPTY, steps).log[k])
  {
    hide Act, Possible;
    RunIsSane(steps);
    var log := Reached(EMPTY, steps).log;
    assert MayFollow(ORIGIN, log[..j], log[j]);
    assert log[..j][..0] == [];
    i := UnderWayWasWon(log[..j], 0);
  }

  /** The win an ending belongs to. */
  predicate WinOf(log: seq<Event>, m: nat, i: nat) {
    && m < i < |log| && Ends(log[i]) && log[m] == Won(log[i].flight)
    && forall k :: m < k < i ==> !log[k].Won? && !Ends(log[k])
  }

  /** Nobody reopened the line while the delivery that ended at i was under way. */
  predicate Undisturbed(log: seq<Event>, i: nat)
    requires i < |log| && Ends(log[i])
  {
    forall m, k :: 0 <= m < k < i && WinOf(log, m, i) ==> log[k] != Opened(log[i].flight.task)
  }

  /**
   No line is sent twice without being returned to open in between, as long as nobody reopened it while
   the first of the two deliveries was under way.
   */
  lemma NeverSentTwice(steps: seq<Step>, i: nat, j: nat) returns (k: nat)
    requires AllPossible(EMPTY, steps)
    requires var log := Reached(EMPTY, steps).log;
             && i < j < |log| && log[i].Sent? && log[j].Sent? && log[i].flight.task == log[j].flight.task
             && Undisturbed(log, i)
    ensures i < k < j && Reached(EMPTY, steps).log[k] == Opened(Reached(EMPTY, steps).log[i].flight.task)
  {
    hide Act, Possible, AllPossible;
    var log := Reached(EMPTY, steps).log;
    var m := SendsWereWon(steps, i);
    var n := SendsWereWon(steps, j);
    assert !(n < i < j);
    k := WinsAlternate(steps, m, n);
    assert WinOf(log, m, i);
  }

  lemma OneMore(w: World, steps: seq<Step>, s: Step)
    ensures Reached(w, steps + [s]) == Act(Reached(w, steps), s)
    ensures AllPossible(w, steps) && Possible(Reached(w, steps), s) ==> AllPossible(w, steps + [s])
  {
    hide Act, Possible;
    var all := steps + [s];
    assert all[..|all| - 1] == steps;
    forall k | 0 <= k < |steps| ensures all[..k] == steps[..k] {}
  }

  /** One delivery of task 1 of list "l" whose line is open, with or without an edit landing inside it. */
  lemma WinThenSend(w: World, agent: AgentId, list: seq<TaskFile.Task>, key: Key, now: int) returns (u: World, v: World)
    requires list == [TaskFile.Task(1, "a", TaskFile.OPEN)] && key == Key("l", "a")
    requires w.lists == map["l" := list] && w.flight.None?
    ensures u == Act(w, Reserved(agent, "", key, true))
    ensures var f := Flight(agent, "", key, 1, 1);
            u.log == w.log + [Won(f)] && u.flight == Some(f) && u.lists == map["l" := [list[0].(mark := TaskFile.IN_PROGRESS)]]
    ensures v == Act(u, Edited("l", list))
    ensures v.lists == w.lists && v.log == u.log + [Opened(1)] && v.flight == u.flight
    ensures Act(u, Concluded(Accepted(now, false))).log == u.log + [Sent(u.flight.value)]
    ensures var x := Act(v, Concluded(Accepted(now, false)));
            x.log == v.log + [Sent(u.flight.value)] && x.lists == w.lists && x.flight.None?
  {
    hide Apply;
    u := Act(w, Reserved(agent, "", key, true));
    assert TaskFile.FirstOpen(list, "a") == 1;
    assert TaskFile.WithMark(list, 1, TaskFile.IN_PROGRESS) == [list[0].(mark := TaskFile.IN_PROGRESS)];
    assert u.lists == w.lists["l" := [list[0].(mark := TaskFile.IN_PROGRESS)]];
    v := Act(u, Edited("l", list));
    assert OpenIds(u.lists["l"]) == {};
    assert list[..0] == [] && NewlyOpen({}, list) == [Opened(1)];
  }

  /** An edit that lands between the mark and the send is what the mark cannot see: the line goes out twice. */
  lemma ReopenedInFlightIsSentTwice(list: seq<TaskFile.Task>, key: Key) returns (steps: seq<Step>)
    requires list == [TaskFile.Task(1, "a", TaskFile.OPEN)] && key == Key("l", "a")
    ensures AllPossible(EMPTY, steps)
    ensures var log := Reached(EMPTY, steps).log;
            |log| == 6 && log[3].Sent? && log[5].Sent? && log[3].flight.task == log[5].flight.task && log[4].Won?
  {
    hide Act, Reached, AllPossible;
    steps := [];
    assert AllPossible(EMPTY, []) && Reached(EMPTY, []) == EMPTY by { Nothing(EMPTY); }
    OneMore(EMPTY, [], Edited("l", list));
    var w := Act(EMPTY, Edited("l", list));
    FirstEdit(list);
    var u, v := WinThenSend(w, 1, list, key, 0);
    OneMore(EMPTY, [] + [Edited("l", list)], Reserved(1, "", key, true));
    steps := [] + [Edited("l", list)] + [Reserved(1, "", key, true)];
    OneMore(EMPTY, steps, Edited("l", list));
    steps := steps + [Edited("l", list)];
    OneMore(EMPTY, steps, Concluded(Accepted(0, false)));
    steps := steps + [Concluded(Accepted(0, false))];
    var x := Act(v, Concluded(Accepted(0, false)));
    var y, _ := WinThenSend(x, 2, list, key, 1);
    OneMore(EMPTY, steps, Reserved(2, "", key, true));
    steps := steps + [Reserved(2, "", key, true)];
    OneMore(EMPTY, steps, Concluded(Accepted(1, false)));
    steps := steps + [Concluded(Accepted(1, false))];
  }

  lemma Nothing(w: World)
    ensures AllPossible(w, []) && Reached(w, []) == w
  {
  }

  lemma FirstEdit(list: seq<TaskFile.Task>)
    requires list == [TaskFile.Task(1, "a", TaskFile.OPEN)]
    ensures var w := Act(EMPTY, Edited("l", list));
            w.lists == map["l" := list] && w.flight.None? && w.log == [Opened(1)]
  {
    assert OpenIds([]) == {};
    assert list[..0] == [] && NewlyOpen({}, list) == [Opened(1)];
  }

  // ----- exactly when a line can go out twice -----

  ghost predicate OpenLine(w: World, task: nat) {
    exists p, i :: p in w.lists && 0 <= i < |w.lists[p]| && w.lists[p][i].id == task && w.lists[p][i].mark == TaskFile.OPEN
  }

  /** Whatever follows, the line is not sent again before it was returned to open. */
  ghost predicate ReturnsFirst(w: World, task: nat) {
    forall steps, j :: AllPossible(w, steps) && |w.log| <= j < |Reached(w, steps).log| && IsSent(Reached(w, steps).log[j], task)
      ==> exists k :: |w.log| <= k < j && Reached(w, steps).log[k] == Opened(task)
  }

  predicate IsSent(e: Event, task: nat) {
    e.Sent? && e.flight.task == task
  }

  lemma ClosedReturnsFirst(w: World, task: nat, steps: seq<Step>, j: nat) returns (k: nat)
    requires Sane(ORIGIN, w) && w.flight.None? && !OpenLine(w, task) && AllPossible(w, steps)
    requires |w.log| <= j < |Reached(w, steps).log| && IsSent(Reached(w, steps).log[j], task)
    ensures |w.log| <= k < j && Reached(w, steps).log[k] == Opened(task)
  {
    hide Act, Possible, AllPossible, Reached;
    var b := Base(|w.log|, {task});
    assert w.log[..|w.log|] == w.log;
    RunStaysSane(b, w, steps);
    var log := Reached(w, steps).log;
    assert MayFollow(b, log[..j], log[j]);
    assert log[..j][..b.from] == log[..b.from];
    var m := UnderWayWasWon(log[..j], b.from);
    assert MayFollow(b, log[..m], log[m]);
    assert log[..m][..b.from] == log[..b.from];
    assert m != b.from;
    k := TakenUntilOpened(b, log[..m], b.from, task);
  }

  /** An edit that keeps one open line of a list reopens nothing. */
  lemma KeepOnly(w: World, p: string, i: nat)
    requires LinesApart(w) && p in w.lists && i < |w.lists[p]| && w.lists[p][i].mark == TaskFile.OPEN
    ensures var line := w.lists[p][i];
            Possible(w, Edited(p, [line])) && Rewrite(w, p, [line]) == w.(lists := w.lists[p := [line]])
  {
    var line := w.lists[p][i];
    assert line in w.lists[p];
    assert [line][..0] == [] && NewlyOpen(OpenIds(w.lists[p]), [line]) == [];
    assert w.log + [] == w.log;
  }

  lemma SendOnly(w: World, p: string, line: TaskFile.Task)
    requires w.flight.None? && p in w.lists && w.lists[p] == [line] && line.mark == TaskFile.OPEN
    ensures var y := Act(w, Reserved(0, "", Key(p, line.text), true));
            var f := Flight(0, "", Key(p, line.text), 1, line.id);
            y.flight == Some(f) && y.log == w.log + [Won(f)] && Act(y, Concluded(Accepted(0, false))).log == w.log + [Won(f)] + [Sent(f)]
  {
    hide Apply;
    assert TaskFile.FirstOpen([line], line.text) == 1;
  }

  lemma OpenIsSentAgain(w: World, task: nat) returns (steps: seq<Step>)
    requires LinesApart(w) && w.flight.None? && OpenLine(w, task)
    ensures AllPossible(w, steps)
    ensures var log := Reached(w, steps).log;
            |log| == |w.log| + 2 && log[..|w.log|] == w.log && log[|w.log|].Won? && IsSent(log[|w.log| + 1], task)
  {
    hide Reached, AllPossible, LinesApart, Sweep, Reserve, Deliver, Rewrite;
    var p, i :| p in w.lists && 0 <= i < |w.lists[p]| && w.lists[p][i].id == task && w.lists[p][i].mark == TaskFile.OPEN;
    var line := w.lists[p][i];
    var edit, reserve := Edited(p, [line]), Reserved(0, "", Key(p, line.text), true);
    KeepOnly(w, p, i);
    SendOnly(Rewrite(w, p, [line]), p, line);
    Nothing(w);
    OneMore(w, [], edit);
    OneMore(w, [] + [edit], reserve);
    OneMore(w, [] + [edit] + [reserve], Concluded(Accepted(0, false)));
    steps := [] + [edit] + [reserve] + [Concluded(Accepted(0, false))];
  }

  /**
   Once its keystrokes land, the line of a delivery is always returned to open before it is sent again
   if and only if its mark is not open when they land: the guard the code does not have between the
   mark and the send.
   */
  lemma SentAgainIff(before: seq<Step>, now: int, recordOk: bool)
    requires AllPossible(EMPTY, before) && Reached(EMPTY, before).flight.Some?
    ensures var w := Reached(EMPTY, before);
            ReturnsFirst(Act(w, Concluded(Accepted(now, recordOk))), w.flight.value.task) <==> !OpenLine(w, w.flight.value.task)
  {
    hide Reached, AllPossible, Orderly, OpenIsFree, UnderWay, Apply, IsSent;
    var w := Reached(EMPTY, before);
    var task, u := w.flight.value.task, Act(w, Concluded(Accepted(now, recordOk)));
    RunIsSane(before);
    DeliverKeepsSane(ORIGIN, w, Accepted(now, recordOk));
    assert u.lists == w.lists && u.flight.None?;
    if OpenLine(w, task) {
      var steps := OpenIsSentAgain(u, task);
      assert IsSent(Reached(u, steps).log[|u.log| + 1], task);
    } else {
      forall steps, j | AllPossible(u, steps) && |u.log| <= j < |Reached(u, steps).log| && IsSent(Reached(u, steps).log[j], task)
        ensures exists k :: |u.log| <= k < j && Reached(u, steps).log[k] == Opened(task)
      {
        var k := ClosedReturnsFirst(u, task, steps, j);
      }
    }
  }

  // ----- the clock over a run of the whole daemon -----

  predicate Timed(w: World) {
    Legal(w.ticks) && w.clock == IdleClock.After(w.ticks)
  }

  lemma TicksContinue(w: World, ts: seq<Tick>)
    requires Timed(w) && LegalFrom(w.clock, ts)
    ensures Timed(Ticked(w, ts))
  {
    hide Legal, LegalFrom, Apply, IdleClock.After;
    LegalContinues(w.ticks, ts);
    ApplyContinues(w.ticks, ts);
  }

  lemma TickContinues(w: World, t: Tick)
    requires Timed(w) && !t.Drove? && (t.Listing? ==> Unique(t.agents))
    ensures Timed(Ticked(w, [t]))
  {
    hide Legal, Apply, IdleClock.After, Unique;
    TicksContinue(w, [t]);
  }

  lemma SettleKeepsTime(w: World, r: Row, v: View)
    requires Timed(w)
    ensures Timed(SettleRow(w, r, v))
  {
    hide Judge, Legal, Apply, IdleClock.After, ReclaimAt, Ticked;
    TickContinues(w, Unclaimed(r.agent));
    SettleTicks(w, r, v);
  }

  /** Settling a row leaves the clock alone, or drops the claim of its hand-out. */
  lemma SettleTicks(w: World, r: Row, v: View)
    ensures var u, t := SettleRow(w, r, v), Ticked(w, [Unclaimed(r.agent)]);
            (u.clock == w.clock && u.ticks == w.ticks) || (u.clock == t.clock && u.ticks == t.ticks)
  {
    hide Judge, Apply, ReclaimAt, Forgo;
    match Judge(r, v, Attempts(w, r.key))
    case Escalate => ForgoTicks(w, DeleteRow(w, r, EnvOf(v, r).deleteOk), r);
    case Return =>
      var k := ReclaimAt(w, r, EnvOf(v, r));
      if k != 0 { ForgoTicks(w, Mark(w, r.key.path, k, TaskFile.OPEN), r); }
    case _ =>
  }

  lemma ForgoTicks(w: World, x: World, r: Row)
    requires x.clock == w.clock && x.ticks == w.ticks
    ensures var u, t := Forgo(x, r), Ticked(w, [Unclaimed(r.agent)]);
            (u.clock == w.clock && u.ticks == w.ticks) || (u.clock == t.clock && u.ticks == t.ticks)
  {
    hide Apply;
  }

  lemma {:induction false} ReclaimKeepsTime(w: World, ledger: seq<Row>, v: View)
    requires Timed(w)
    ensures Timed(ReclaimAll(w, ledger, v).world)
  {
    hide Timed, SettleRow, Awaits;
    if ledger != [] {
      ReclaimKeepsTime(w, ledger[..|ledger| - 1], v);
      SettleKeepsTime(ReclaimAll(w, ledger[..|ledger| - 1], v).world, ledger[|ledger| - 1], v);
    }
  }

  lemma SweepKeepsTime(w: World, s: Step)
    requires Timed(w) && Possible(w, s) && s.Swept?
    ensures Timed(Sweep(w, s.view, s.standDown, s.ledgerOk, s.sources))
  {
    hide Timed, ReclaimAll, Pairing.PairSources, Ledger, Legal, LegalFrom, Apply;
    TickContinues(w, Listing(s.view.agents, s.view.now));
    var noted := Ticked(w, [Listing(s.view.agents, s.view.now)]);
    if !s.standDown && s.ledgerOk {
      var ledger := Ledger(noted.rows, noted.issued);
      ReclaimKeepsTime(noted, ledger, s.view);
      var p := ReclaimAll(noted, ledger, s.view);
      Pairing.SweepIsSafe(p.world.clock, s.sources, s.view.agents, p.awaiting, s.view.now);
      TicksContinue(p.world, Pairing.PairSources(p.world.clock, s.sources, s.view.agents, p.awaiting, s.view.now));
    }
  }

  lemma DeliverKeepsTime(w: World, e: Ending)
    requires Timed(w) && w.flight.Some?
    ensures Timed(Deliver(w, e))
  {
    hide Legal, Apply, IdleClock.After;
    TickContinues(w, Unclaimed(w.flight.value.agent));
    TickContinues(w, Landed(w.flight.value.agent));
  }

  lemma StepKeepsTime(w: World, s: Step)
    requires Timed(w) && Possible(w, s)
    ensures Timed(Act(w, s))
  {
    hide Sweep, Deliver, Legal, Apply, IdleClock.After, Possible;
    match s
    case Swept(_, _, _, _) => SweepKeepsTime(w, s);
    case Reserved(agent, _, _, _) => TickContinues(w, Unclaimed(agent));
    case Concluded(e) => if w.flight.Some? { DeliverKeepsTime(w, e); }
    case Resumed(agent, _, _) => TickContinues(w, Tick.Ended(agent));
    case Started(_, _) => TickContinues(w, Forgotten);
    case _ =>
  }

  /**
   The clock of the whole daemon is the clock of a legal run of ticks, so what was proved of those runs
   (who is driven, and how far apart) holds of every run of the hand-out.
   */
  lemma {:induction false} RunIsTimed(steps: seq<Step>)
    requires AllPossible(EMPTY, steps)
    ensures Timed(Reached(EMPTY, steps))
  {
    hide Act, Possible;
    if steps == [] {
      assert Timed(EMPTY);
    } else {
      var n := |steps| - 1;
      forall k | 0 <= k < n ensures steps[..n][..k] == steps[..k] {}
      RunIsTimed(steps[..n]);
      StepKeepsTime(Reached(EMPTY, steps[..n]), steps[n]);
    }
  }

  /** In every run of the daemon a driven agent was listed parked, on one pane and terminal, for over a minute. */
  lemma DrivenInRunWasParked(steps: seq<Step>, k: nat) returns (i: nat)
    requires AllPossible(EMPTY, steps)
    requires k < |Reached(EMPTY, steps).ticks| && Reached(EMPTY, steps).ticks[k].Drove?
    ensures var ts := Reached(EMPTY, steps).ticks;
            && i < k && ts[i].Listing? && ts[k].now - ts[i].now > AUTO_SEND_IDLE_AFTER
            && forall j :: i <= j < k && ts[j].Listing? ==> ListedAs(ts[j].agents, ts[k].agent.id, ts[k].agent.pane, ts[k].agent.terminal)
  {
    hide Act, Possible, ListedAs, Legal;
    RunIsTimed(steps);
    i := DrivenWasParked(Reached(EMPTY, steps).ticks, k);
  }

  // ----- claims over runs -----

  predicate ReadsDistinct(s: Step) {
    s.Swept? ==> forall src :: src in s.sources ==> Pairing.ReadDistinct(src.seen)
  }

  lemma FewerClaims(c: Clock, t: Tick)
    requires Pairing.OneEach(c) && !t.Drove?
    ensures Pairing.OneEach(Apply(c, [t]))
  {
    var d := IdleClock.Next(c, t);
    assert [t][..0] == [] && Apply(c, [t]) == d;
    if t.Listing? { ListingAddsNoClaim(c, t.agents, t.now); }
  }

  lemma {:induction false} ListingAddsNoClaim(c: Clock, agents: seq<Agent>, now: int)
    ensures forall a :: a in NoteAll(c, agents, now).claims ==> a in c.claims && NoteAll(c, agents, now).claims[a] == c.claims[a]
  {
    if agents != [] { ListingAddsNoClaim(c, agents[..|agents| - 1], now); }
  }

  lemma {:induction false} ReclaimKeepsClaims(w: World, ledger: seq<Row>, v: View)
    requires Pairing.OneEach(w.clock)
    ensures Pairing.OneEach(ReclaimAll(w, ledger, v).world.clock)
  {
    hide SettleRow, Apply, Pairing.OneEach, Awaits;
    if ledger != [] {
      var n := |ledger| - 1;
      ReclaimKeepsClaims(w, ledger[..n], v);
      var u := ReclaimAll(w, ledger[..n], v).world;
      SettleTicks(u, ledger[n], v);
      FewerClaims(u.clock, Unclaimed(ledger[n].agent));
    }
  }

  lemma StepKeepsClaims(w: World, s: Step)
    requires Pairing.OneEach(w.clock) && Possible(w, s) && ReadsDistinct(s)
    ensures Pairing.OneEach(Act(w, s).clock)
  {
    hide Apply, Pairing.OneEach, Ledger, ReclaimAll, Pairing.PairSources, Pairing.ReadDistinct, LegalFrom;
    match s
    case Swept(v, standDown, ledgerOk, sources) =>
      FewerClaims(w.clock, Listing(v.agents, v.now));
      var noted := Ticked(w, [Listing(v.agents, v.now)]);
      var ledger := Ledger(noted.rows, noted.issued);
      ReclaimKeepsClaims(noted, ledger, v);
      var p := ReclaimAll(noted, ledger, v);
      Pairing.SweepIsSafe(p.world.clock, sources, v.agents, p.awaiting, v.now);
    case Reserved(agent, _, _, _) => FewerClaims(w.clock, Unclaimed(agent));
    case Concluded(_) =>
      if w.flight.Some? {
        FewerClaims(w.clock, Unclaimed(w.flight.value.agent));
        FewerClaims(w.clock, Landed(w.flight.value.agent));
      }
    case Resumed(agent, _, _) => FewerClaims(w.clock, Tick.Ended(agent));
    case Started(_, _) => FewerClaims(w.clock, Forgotten);
    case _ =>
  }

  /** No task is ever promised to two agents while the open tasks read by each sweep had distinct texts. */
  lemma {:induction false} OneTaskOneAgent(steps: seq<Step>)
    requires AllPossible(EMPTY, steps)
    requires forall k :: 0 <= k < |steps| ==> ReadsDistinct(steps[k])
    ensures Pairing.OneEach(Reached(EMPTY, steps).clock)
  {
    hide Act, Possible, ReadsDistinct;
    if steps != [] {
      var n := |steps| - 1;
      forall k | 0 <= k < n ensures steps[..n][..k] == steps[..k] {}
      OneTaskOneAgent(steps[..n]);
      StepKeepsClaims(Reached(EMPTY, steps[..n]), steps[n]);
    }
  }

  /** A sweep that acts offers each group distinct texts; the other steps offer nothing. */
  ghost predicate OffersApart(w: World, s: Step) {
    s.Swept? && w.flight.None? && !s.standDown && s.ledgerOk ==>
      var noted := Ticked(w, [Listing(s.view.agents, s.view.now)]);
      var p := ReclaimAll(noted, Ledger(noted.rows, noted.issued), s.view);
      Pairing.SweepOffersApart(p.world.clock, s.sources, s.view.agents, p.awaiting, s.view.now)
  }

  lemma StepOneEachIff(w: World, s: Step)
    requires Pairing.OneEach(w.clock) && Possible(w, s)
    ensures Pairing.OneEach(Act(w, s).clock) <==> OffersApart(w, s)
  {
    hide Apply, Pairing.OneEach, Ledger, ReclaimAll, Pairing.PairSources, Pairing.SweepOffersApart, Deliver;
    match s
    case Swept(v, standDown, ledgerOk, sources) =>
      FewerClaims(w.clock, Listing(v.agents, v.now));
      var noted := Ticked(w, [Listing(v.agents, v.now)]);
      var ledger := Ledger(noted.rows, noted.issued);
      ReclaimKeepsClaims(noted, ledger, v);
      var p := ReclaimAll(noted, ledger, v);
      Pairing.SweepOneEachIff(p.world.clock, sources, v.agents, p.awaiting, v.now);
    case _ =>
      assert ReadsDistinct(s);
      StepKeepsClaims(w, s);
  }

  ghost predicate AlwaysOneEach(steps: seq<Step>) {
    forall k :: 0 <= k <= |steps| ==> Pairing.OneEach(Reached(EMPTY, steps[..k]).clock)
  }

  ghost predicate AlwaysOffersApart(steps: seq<Step>) {
    forall k :: 0 <= k < |steps| ==> OffersApart(Reached(EMPTY, steps[..k]), steps[k])
  }

  /**
   Over every run, no task is ever promised to two agents if and only if every sweep that acts offers its
   groups distinct texts, which it can see before it promises anything.
   */
  lemma {:induction false} OneTaskOneAgentIff(steps: seq<Step>)
    requires AllPossible(EMPTY, steps)
    ensures AlwaysOneEach(steps) <==> AlwaysOffersApart(steps)
  {
    hide Act, Possible, OffersApart;
    if steps == [] {
      assert Pairing.OneEach(EMPTY.clock);
    } else {
      var n := |steps| - 1;
      forall k | 0 <= k <= n ensures steps[..n][..k] == steps[..k] {}
      OneTaskOneAgentIff(steps[..n]);
      assert steps[..|steps|] == steps;
      assert AlwaysOneEach(steps) <==> AlwaysOneEach(steps[..n]) && Pairing.OneEach(Reached(EMPTY, steps).clock);
      assert AlwaysOffersApart(steps) <==> AlwaysOffersApart(steps[..n]) && OffersApart(Reached(EMPTY, steps[..n]), steps[n]);
      if AlwaysOneEach(steps[..n]) {
        assert steps[..n][..n] == steps[..n];
        StepOneEachIff(Reached(EMPTY, steps[..n]), steps[n]);
      }
    }
  }

  // ----- a task is handed out -----

  const IDLER := Agent(1, "p", "t", "idle")
  const FILED := [TaskFile.Task(1, "a", TaskFile.OPEN)]
  const SOURCE := Pairing.Source(Pairing.Whole(Some(Pairing.Locator("l", "l"))), {1}, map["l" := FILED])

  function SweptAt(now: int): Step {
    Swept(View(now, [IDLER], {}, map[], map[]), false, true, [SOURCE])
  }

  lemma OneEligible(c: Clock, now: int)
    requires c.claims == map[] && c.redrive == map[]
    ensures Pairing.EligibleAgents(c, [IDLER], {1}, {}, now) == if IdleLongEnough(c, IDLER, now) then [IDLER] else []
  {
    hide IdleLongEnough;
    assert [IDLER][..0] == [] && [IDLER][0] == IDLER;
    assert Pairing.EligibleAgents(c, [], {1}, {}, now) == [];
    assert Pairing.Eligible(c, IDLER, {1}, {}, now) <==> IdleLongEnough(c, IDLER, now);
    if IdleLongEnough(c, IDLER, now) {
      Pairing.EligibleIsClocked(c, IDLER, {1}, {}, now);
      assert Pairing.InsertIdle(c, [], IDLER) == [IDLER];
    }
  }

  /** One source, one agent, one open task: the agent is driven as soon as it is idle long enough. */
  lemma OneAgentSweep(c: Clock, now: int)
    requires c.claims == map[] && c.redrive == map[]
    ensures Pairing.PairSources(c, [SOURCE], [IDLER], {}, now)
            == if IdleLongEnough(c, IDLER, now) then [Drove(IDLER, Claim("l", "a", now), now)] else []
  {
    hide Delay, Apply;
    var file := Pairing.Locator("l", "l");
    assert Apply(c, []) == c by { Pairing.NoTicks(c); }
    assert [SOURCE][..0] == [] && Pairing.Driven([]) == {} && {} + Pairing.Driven([]) == {};
    var eligible := Pairing.EligibleAgents(c, [IDLER], {1}, {}, now);
    OneEligible(c, now);
    assert FILED[1..] == [] && TaskFile.Pending(FILED) == ["a"];
    assert ["a"][..0] == [] && Pairing.Unpromised(c, "l", ["a"]) == ["a"];
    var g := Pairing.Group(file, eligible);
    assert [g][1..] == [];
    assert Pairing.PairGroups(c, [g], SOURCE.seen, now) == Pairing.DrivesOf(c, g, SOURCE.seen, now);
  }

  lemma EmptyLedgerSweep(w: World, now: int)
    requires w.flight.None? && w.issued == 0
    ensures var noted := Ticked(w, [Listing([IDLER], now)]);
            Act(w, SweptAt(now)) == Ticked(noted, Pairing.PairSources(noted.clock, [SOURCE], [IDLER], {}, now))
  {
    hide Apply, Pairing.PairSources;
  }

  lemma FirstListing(c: Clock, now: int)
    requires c.claims == map[] && c.redrive == map[] && (c.idleSince == map[] || c.idleSince == map[1 := IdleMark("p", "t", 0)])
    ensures Apply(c, [Listing([IDLER], now)]) == Clock(map[1 := IdleMark("p", "t", if c.idleSince == map[] then now else 0)], map[], map[])
  {
    assert [Listing([IDLER], now)][..0] == [] && [IDLER][..0] == [];
    assert NoteAll(c, [IDLER], now) == NoteOne(c, IDLER, now);
    assert Ids([IDLER]) == {1};
  }

  /**
   From nothing: a list is written, an agent is listed idle, and at the first sweep more than a minute
   later it is driven with the list's task, which is then reserved and sent to it.
   */
  lemma TaskIsHandedOut(steps: seq<Step>)
    requires steps == [Edited("l", FILED), SweptAt(0), SweptAt(61), Reserved(1, "t", Key("l", "a"), true), Concluded(Accepted(62, true))]
    ensures AllPossible(EMPTY, steps)
    ensures var w := Reached(EMPTY, steps);
            && w.ticks == [Listing([IDLER], 0), Listing([IDLER], 61), Drove(IDLER, Claim("l", "a", 61), 61), Landed(1)]
            && |w.log| > 0 && w.log[|w.log| - 1] == Sent(Flight(1, "t", Key("l", "a"), 1, 1))
            && w.rows == map[0 := Row(0, Key("l", "a"), 1, 1, "t", 62, 0, false)]
  {
    hide Act, Possible, AllPossible, Reached, SweptAt;
    Nothing(EMPTY);
    OneMore(EMPTY, [], steps[0]);
    OneMore(EMPTY, [] + [steps[0]], steps[1]);
    OneMore(EMPTY, [] + [steps[0]] + [steps[1]], steps[2]);
    OneMore(EMPTY, [] + [steps[0]] + [steps[1]] + [steps[2]], steps[3]);
    OneMore(EMPTY, [] + [steps[0]] + [steps[1]] + [steps[2]] + [steps[3]], steps[4]);
    assert steps == [] + [steps[0]] + [steps[1]] + [steps[2]] + [steps[3]] + [steps[4]];
    var w1 := FileTheList();
    var w2 := FirstSweep(w1);
    var w3 := SecondSweep(w2);
    OthersArePossible(w3, steps[3], steps[4]);
    TakenAndSent(w3);
  }

  lemma OthersArePossible(w: World, s: Step, t: Step)
    requires s.Reserved? && t.Concluded?
    ensures Possible(w, s) && Possible(Act(w, s), t)
  {
  }

  /** Listed for the first time, the agent gets its mark and nothing else. */
  lemma FirstSweep(w: World) returns (u: World)
    requires w == EMPTY.(lists := map["l" := FILED], log := w.log)
    ensures u == Act(w, SweptAt(0)) && Possible(w, SweptAt(0))
    ensures u == w.(clock := Clock(map[1 := IdleMark("p", "t", 0)], map[], map[]), ticks := [Listing([IDLER], 0)])
  {
    hide Act, Apply;
    EmptyLedgerSweep(w, 0);
    FirstListing(w.clock, 0);
    OneAgentSweep(Clock(map[1 := IdleMark("p", "t", 0)], map[], map[]), 0);
    NoTicksMore(Ticked(w, [Listing([IDLER], 0)]));
    u := Act(w, SweptAt(0));
  }

  /** Idle for more than a minute, it is driven. */
  lemma SecondSweep(w: World) returns (u: World)
    requires w.clock == Clock(map[1 := IdleMark("p", "t", 0)], map[], map[]) && w.flight.None? && w.issued == 0
    ensures u == Act(w, SweptAt(61)) && Possible(w, SweptAt(61))
    ensures u == w.(clock := u.clock, ticks := w.ticks + [Listing([IDLER], 61)] + [Drove(IDLER, Claim("l", "a", 61), 61)])
  {
    hide Act, Apply;
    EmptyLedgerSweep(w, 61);
    FirstListing(w.clock, 61);
    OneAgentSweep(w.clock, 61);
    u := Act(w, SweptAt(61));
  }

  lemma NoTicksMore(w: World)
    ensures Ticked(w, []) == w
  {
    Pairing.NoTicks(w.clock);
  }

  lemma FileTheList() returns (w: World)
    ensures w == Act(EMPTY, Edited("l", FILED)) && Possible(EMPTY, Edited("l", FILED))
    ensures w == EMPTY.(lists := map["l" := FILED], log := w.log)
  {
    hide NewlyOpen;
    w := Act(EMPTY, Edited("l", FILED));
  }

  lemma TakenAndSent(w: World)
    requires w.flight.None? && w.lists == map["l" := FILED] && w.rows == map[] && w.issued == 0
    ensures var u := Act(Act(w, Reserved(1, "t", Key("l", "a"), true)), Concluded(Accepted(62, true)));
            && u.ticks == w.ticks + [Landed(1)] && u.log == w.log + [Won(Flight(1, "t", Key("l", "a"), 1, 1))] + [Sent(Flight(1, "t", Key("l", "a"), 1, 1))]
            && u.rows == map[0 := Row(0, Key("l", "a"), 1, 1, "t", 62, 0, false)]
  {
    hide Apply;
    assert TaskFile.FirstOpen(FILED, "a") == 1;
  }
}
