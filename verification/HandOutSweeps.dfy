/**
 What one sweep may do: which marks it takes back, which agents it leaves alone, which rows it gives up
 on, and how often an item can be handed out before it stays marked.
 */
module HandOutSweeps {
  import opened Wrappers
  import opened IdleClock
  import TaskFile
  import Pairing
  import opened HandOut
  import opened HandOutRuns

  // ----- the reclaim owns what it touches -----

  /** An unconfirmed hand-out past its grace, whose own tenant shows no sign of being at it. */
  predicate Doubtful(r: Row, v: View) {
    && !r.confirmed
    && RECLAIM_GRACE < Age(v, r) <= STALE_TTL
    && EnvOf(v, r).seen.Some? && TaskFile.InProgress(EnvOf(v, r).seen.value, r.key.text)
    && (Present(v, r) ==> !Working(v, r) && r.agent !in v.background && !Waiting(v, r))
  }

  lemma ReturnedIsDoubtful(r: Row, v: View, attempts: nat)
    ensures Judge(r, v, attempts).Return? <==> Doubtful(r, v) && EnvOf(v, r).counterOk && attempts < MAX_HANDOUTS
  {
  }

  /** Row i of the ledger is doubtful, and its item's counter was read below the ceiling when its turn came. */
  ghost predicate Reopens(w: World, ledger: seq<Row>, v: View, i: nat, key: Key) {
    && i < |ledger| && ledger[i].key == key && Doubtful(ledger[i], v) && EnvOf(v, ledger[i]).counterOk
    && Attempts(ReclaimAll(w, ledger[..i], v).world, key) < MAX_HANDOUTS
  }

  /** The line may have been taken back on behalf of some row of the ledger. */
  ghost predicate MayReopen(w: World, ledger: seq<Row>, v: View, key: Key) {
    exists i: nat :: Reopens(w, ledger, v, i, key)
  }

  ghost predicate OnlyReopened(w: World, u: World, ledger: seq<Row>, v: View) {
    && u.lists.Keys == w.lists.Keys
    && (forall p :: p in w.lists ==> |u.lists[p]| == |w.lists[p]|)
    && (forall p, i :: p in w.lists && 0 <= i < |w.lists[p]| ==>
          u.lists[p][i] == w.lists[p][i]
          || (w.lists[p][i].mark == TaskFile.IN_PROGRESS
              && u.lists[p][i] == w.lists[p][i].(mark := TaskFile.OPEN)
              && MayReopen(w, ledger, v, Key(p, w.lists[p][i].text))))
  }

  /** What one row's turn may do to the lists. */
  lemma SettleOnlyReopens(w: World, r: Row, v: View, p: string, i: nat)
    requires p in w.lists && i < |w.lists[p]|
    ensures var u := SettleRow(w, r, v);
            && u.lists.Keys == w.lists.Keys && |u.lists[p]| == |w.lists[p]|
            && (u.lists[p][i] == w.lists[p][i]
                || (w.lists[p][i].mark == TaskFile.IN_PROGRESS && u.lists[p][i] == w.lists[p][i].(mark := TaskFile.OPEN)
                    && r.key == Key(p, w.lists[p][i].text) && Doubtful(r, v) && EnvOf(v, r).counterOk
                    && Attempts(w, r.key) < MAX_HANDOUTS))
  {
    hide Judge, Doubtful, Apply;
    var e := EnvOf(v, r);
    ReturnedIsDoubtful(r, v, Attempts(w, r.key));
    if Judge(r, v, Attempts(w, r.key)).Return? && ReclaimAt(w, r, e) != 0 {
      var k := ReclaimAt(w, r, e);
      assert SettleRow(w, r, v).lists == w.lists[r.key.path := TaskFile.WithMark(w.lists[r.key.path], k, TaskFile.OPEN)];
    } else {
      assert SettleRow(w, r, v).lists == w.lists;
    }
  }

  lemma SettleMarks(w: World, r: Row, v: View)
    ensures var k, u := ReclaimAt(w, r, EnvOf(v, r)), SettleRow(w, r, v);
            if Judge(r, v, Attempts(w, r.key)).Return? && k != 0
            then u.lists == Mark(w, r.key.path, k, TaskFile.OPEN).lists
            else u.lists == w.lists
    ensures Judge(r, v, Attempts(w, r.key)).Return? ==> SettleRow(w, r, v).attempts == w.attempts
    ensures Judge(r, v, Attempts(w, r.key)).Hold? ==> SettleRow(w, r, v) == w
  {
    hide Judge, ReclaimAt, Apply;
  }

  lemma SettleKeepsKeys(w: World, r: Row, v: View)
    ensures SettleRow(w, r, v).lists.Keys == w.lists.Keys
    ensures forall p :: p in w.lists ==> |SettleRow(w, r, v).lists[p]| == |w.lists[p]|
  {
    hide Judge, ReclaimAt, SettleRow;
    SettleMarks(w, r, v);
  }

  lemma ReopensEarlier(w: World, ledger: seq<Row>, n: nat, v: View, key: Key)
    requires n <= |ledger| && MayReopen(w, ledger[..n], v, key)
    ensures MayReopen(w, ledger, v, key)
  {
    hide Doubtful;
    var i: nat :| Reopens(w, ledger[..n], v, i, key);
    assert ledger[..n][..i] == ledger[..i];
    assert Reopens(w, ledger, v, i, key);
  }

  /**
   A reclaim pass changes nothing in the lists but marks, and a mark only from in progress to open, for an
   item that a doubtful row of the ledger stands for and whose counter was under the ceiling at its turn.
   */
  lemma {:induction false} ReclaimOnlyReopens(w: World, ledger: seq<Row>, v: View)
    ensures OnlyReopened(w, ReclaimAll(w, ledger, v).world, ledger, v)
  {
    hide SettleRow, Doubtful, Awaits, MayReopen;
    if ledger != [] {
      var n := |ledger| - 1;
      var u := ReclaimAll(w, ledger[..n], v).world;
      var x := ReclaimAll(w, ledger, v).world;
      ReclaimOnlyReopens(w, ledger[..n], v);
      SettleKeepsKeys(u, ledger[n], v);
      assert x == SettleRow(u, ledger[n], v);
      assert forall p :: p in w.lists ==> p in u.lists.Keys && p in x.lists.Keys;
      forall p, i | p in w.lists && 0 <= i < |w.lists[p]|
        ensures x.lists[p][i] != w.lists[p][i] ==>
                  && w.lists[p][i].mark == TaskFile.IN_PROGRESS && x.lists[p][i] == w.lists[p][i].(mark := TaskFile.OPEN)
                  && MayReopen(w, ledger, v, Key(p, w.lists[p][i].text))
      {
        SettleOnlyReopens(u, ledger[n], v, p, i);
        if u.lists[p][i] != w.lists[p][i] {
          ReopensEarlier(w, ledger, n, v, Key(p, w.lists[p][i].text));
        } else if x.lists[p][i] != u.lists[p][i] {
          MayReopenNow(w, ledger, v, n, Key(p, w.lists[p][i].text));
        }
      }
    }
  }

  lemma MayReopenNow(w: World, ledger: seq<Row>, v: View, i: nat, key: Key)
    requires Reopens(w, ledger, v, i, key)
    ensures MayReopen(w, ledger, v, key)
  {
  }

  // ----- an agent in doubt is given nothing -----

  predicate Deletes(v: View, r: Row) {
    EnvOf(v, r).deleteOk
  }

  lemma SettleKeepsOthers(w: World, r: Row, v: View)
    ensures SettleRow(w, r, v).rows == w.rows || SettleRow(w, r, v).rows == w.rows - {r.id}
    ensures Deletes(v, r) && !Awaits(w, r, v) ==> SettleRow(w, r, v).rows == w.rows - {r.id}
  {
    hide Judge, ReclaimAt, Apply, Forgo;
    ForgoFrame(DeleteRow(w, r, EnvOf(v, r).deleteOk), r);
    var k := ReclaimAt(w, r, EnvOf(v, r));
    if k != 0 { ForgoFrame(Mark(w, r.key.path, k, TaskFile.OPEN), r); }
  }

  /** Dropping the claim of a hand-out changes the clock alone. */
  lemma ForgoFrame(w: World, r: Row)
    ensures var u := Forgo(w, r);
            u.flight == w.flight && u.issued == w.issued && u.attempts == w.attempts && u.rows == w.rows && u.lists == w.lists && u.log == w.log
  {
    hide Apply;
  }

  lemma {:induction false} OpenRowsAwait(w: World, ledger: seq<Row>, v: View)
    requires forall x :: x in ledger ==> Deletes(v, x)
    ensures forall r :: r in ledger && r.id in ReclaimAll(w, ledger, v).world.rows ==> r.agent in ReclaimAll(w, ledger, v).awaiting
    ensures ReclaimAll(w, ledger, v).world.rows.Keys <= w.rows.Keys
    ensures forall id :: id in ReclaimAll(w, ledger, v).world.rows ==> ReclaimAll(w, ledger, v).world.rows[id] == w.rows[id]
  {
    hide SettleRow, Awaits, Deletes;
    if ledger != [] {
      var n := |ledger| - 1;
      assert ledger == ledger[..n] + [ledger[n]];
      OpenRowsAwait(w, ledger[..n], v);
      SettleKeepsOthers(ReclaimAll(w, ledger[..n], v).world, ledger[n], v);
    }
  }

  // ----- exactly which rows stay open, and whose agents wait for them -----

  /** The tenant the task was handed to is there and shows a reason to wait for it. */
  predicate Occupied(r: Row, v: View) {
    Present(v, r) && (Working(v, r) || r.agent in v.background || Waiting(v, r))
  }

  /**
   Past its age limit a row stays only for a tenant that declared a wait, and not past the longest wait.
   Within it, an unreadable list keeps the row; else the task must still be in progress, and the tenant
   occupied, the grace not over, the counter unreadable, or the mark not to be taken back.
   */
  ghost predicate StaysOpen(w: World, r: Row, v: View) {
    var e := EnvOf(v, r);
    && !r.confirmed
    && (if Age(v, r) > STALE_TTL then
          Present(v, r) && Waiting(v, r) && Age(v, r) <= STALE_TTL + MAX_DECLARED_WAIT
        else
          e.seen.None?
          || ((exists i :: 0 <= i < |e.seen.value| && e.seen.value[i].text == r.key.text && e.seen.value[i].mark == TaskFile.IN_PROGRESS)
              && (Occupied(r, v) || Age(v, r) <= RECLAIM_GRACE || !e.counterOk
                  || (Attempts(w, r.key) < MAX_HANDOUTS && ReclaimAt(w, r, e) == 0))))
  }

  lemma SeenInProgress(tasks: seq<TaskFile.Task>, text: string)
    ensures TaskFile.InProgress(tasks, text) <==>
            exists i :: 0 <= i < |tasks| && tasks[i].text == text && tasks[i].mark == TaskFile.IN_PROGRESS
  {
    if i :| 0 <= i < |tasks| && tasks[i].text == text && tasks[i].mark == TaskFile.IN_PROGRESS {
      assert TaskFile.IsInProgress(tasks, i + 1, text);
    }
    if k :| 1 <= k <= |tasks| && TaskFile.IsInProgress(tasks, k, text) {
      assert tasks[k - 1].text == text;
    }
  }

  lemma AwaitsIff(w: World, r: Row, v: View)
    ensures Awaits(w, r, v) <==> StaysOpen(w, r, v)
  {
    hide Present, Working, Waiting, ReclaimAt, Attempts, TaskFile.InProgress;
    if EnvOf(v, r).seen.Some? { SeenInProgress(EnvOf(v, r).seen.value, r.key.text); }
  }

  /** One row's turn: it stays, nothing changes and its agent waits; or it is settled and holds its agent no longer. */
  lemma RowStaysIff(w: World, r: Row, v: View)
    ensures StaysOpen(w, r, v) ==> SettleRow(w, r, v) == w
    ensures !StaysOpen(w, r, v) && Deletes(v, r) ==> SettleRow(w, r, v).rows == w.rows - {r.id}
    ensures Awaits(w, r, v) <==> StaysOpen(w, r, v)
  {
    hide SettleRow, StaysOpen, Deletes;
    AwaitsIff(w, r, v);
    SettleKeepsOthers(w, r, v);
    if Awaits(w, r, v) { AwaitedIsKept(w, r, v); }
  }

  lemma AwaitedIsKept(w: World, r: Row, v: View)
    requires Awaits(w, r, v)
    ensures SettleRow(w, r, v) == w
  {
  }

  /** Row i of the ledger stays open when its turn comes. */
  ghost predicate StaysAt(w: World, ledger: seq<Row>, v: View, i: nat) {
    i < |ledger| && StaysOpen(ReclaimAll(w, ledger[..i], v).world, ledger[i], v)
  }

  /** After a whole pass an agent waits if and only if some row of its own stayed open. */
  lemma {:induction false} AwaitingIff(w: World, ledger: seq<Row>, v: View, id: AgentId)
    ensures id in ReclaimAll(w, ledger, v).awaiting <==> exists i: nat :: StaysAt(w, ledger, v, i) && ledger[i].agent == id
  {
    hide SettleRow, Awaits, StaysOpen;
    if ledger != [] {
      var n := |ledger| - 1;
      AwaitingIff(w, ledger[..n], v, id);
      AwaitsIff(ReclaimAll(w, ledger[..n], v).world, ledger[n], v);
      forall i: nat | i < n ensures StaysAt(w, ledger[..n], v, i) <==> StaysAt(w, ledger, v, i) {
        assert ledger[..n][..i] == ledger[..i];
      }
      assert StaysAt(w, ledger, v, n) <==> Awaits(ReclaimAll(w, ledger[..n], v).world, ledger[n], v);
      if i: nat :| StaysAt(w, ledger[..n], v, i) && ledger[..n][i].agent == id {
        assert StaysAt(w, ledger, v, i);
      }
    }
  }

  /** After a whole pass with deletes landing, a row is still in the ledger if and only if it stayed open. */
  lemma {:induction false} RowKeptIff(w: World, ledger: seq<Row>, v: View, i: nat)
    requires i < |ledger| && ledger[i].id in w.rows && Deletes(v, ledger[i])
    requires forall j :: 0 <= j < |ledger| && j != i ==> ledger[j].id != ledger[i].id
    ensures ledger[i].id in ReclaimAll(w, ledger, v).world.rows <==> StaysAt(w, ledger, v, i)
  {
    hide SettleRow, Awaits, StaysOpen, Deletes;
    var n := |ledger| - 1;
    var u := ReclaimAll(w, ledger[..n], v).world;
    if i < n {
      RowKeptIff(w, ledger[..n], v, i);
      assert ledger[..n][..i] == ledger[..i];
    } else {
      OtherRowsStay(w, ledger[..n], v, ledger[n].id);
      RowStaysIff(u, ledger[n], v);
    }
    SettleKeepsOthers(u, ledger[n], v);
  }

  lemma {:induction false} OtherRowsStay(w: World, ledger: seq<Row>, v: View, id: nat)
    requires id in w.rows && forall r :: r in ledger ==> r.id != id
    ensures id in ReclaimAll(w, ledger, v).world.rows && ReclaimAll(w, ledger, v).world.rows[id] == w.rows[id]
  {
    hide SettleRow, Awaits;
    if ledger != [] {
      var n := |ledger| - 1;
      assert ledger[n] in ledger;
      OtherRowsStay(w, ledger[..n], v, id);
      SettleKeepsOthers(ReclaimAll(w, ledger[..n], v).world, ledger[n], v);
    }
  }

  predicate Filed(w: World) {
    forall id :: id in w.rows ==> id < w.issued && w.rows[id].id == id
  }

  lemma {:induction false} LedgerListsAll(rows: map<nat, Row>, issued: nat)
    ensures forall id :: id in rows && id < issued ==> rows[id] in Ledger(rows, issued)
    ensures forall r :: r in Ledger(rows, issued) ==> exists id :: id in rows && id < issued && rows[id] == r
  {
    if issued > 0 { LedgerListsAll(rows, issued - 1); }
  }

  /**
   With the store's deletes succeeding, a sweep drives nobody who still holds an unsettled hand-out when
   it is over, and with the ledger unreadable it drives nobody at all.
   */
  lemma NoSecondHandOut(w: World, v: View, standDown: bool, ledgerOk: bool, sources: seq<Pairing.Source>, k: nat, id: nat)
    requires Filed(w) && Unique(v.agents)
    requires forall x :: x in w.rows ==> Deletes(v, w.rows[x])
    requires var u := Sweep(w, v, standDown, ledgerOk, sources);
             |w.ticks| <= k < |u.ticks| && u.ticks[k].Drove?
    ensures ledgerOk && !standDown
    ensures var u := Sweep(w, v, standDown, ledgerOk, sources);
            && u.ticks[k].agent in v.agents && Parked(u.ticks[k].agent.status)
            && (id in u.rows ==> u.rows[id].agent != u.ticks[k].agent.id)
  {
    hide ReclaimAll, Apply, Pairing.PairSources, Ledger, Deletes, LegalFrom;
    var noted := Ticked(w, [Listing(v.agents, v.now)]);
    assert ledgerOk && !standDown;
    var ledger := Ledger(noted.rows, noted.issued);
    LedgerListsAll(noted.rows, noted.issued);
    var p := ReclaimAll(noted, ledger, v);
    ReclaimDrivesNobody(noted, ledger, v);
    Pairing.SweepIsSafe(p.world.clock, sources, v.agents, p.awaiting, v.now);
    var ts := Pairing.PairSources(p.world.clock, sources, v.agents, p.awaiting, v.now);
    var t := Sweep(w, v, standDown, ledgerOk, sources).ticks[k];
    assert k >= |p.world.ticks| && t == ts[k - |p.world.ticks|];
    DrivenIsParked(p.world.clock, ts, k - |p.world.ticks|);
    OpenRowsAwait(noted, ledger, v);
  }

  lemma DrivenIsParked(c: Clock, ts: seq<Tick>, k: nat)
    requires LegalFrom(c, ts) && k < |ts| && ts[k].Drove?
    ensures Parked(ts[k].agent.status)
  {
  }

  lemma {:induction false} ReclaimDrivesNobody(w: World, ledger: seq<Row>, v: View)
    ensures var u := ReclaimAll(w, ledger, v).world;
            w.ticks <= u.ticks && forall k :: |w.ticks| <= k < |u.ticks| ==> !u.ticks[k].Drove?
  {
    hide SettleRow, Awaits;
    if ledger != [] {
      ReclaimDrivesNobody(w, ledger[..|ledger| - 1], v);
      SettleDrivesNobody(ReclaimAll(w, ledger[..|ledger| - 1], v).world, ledger[|ledger| - 1], v);
    }
  }

  lemma SettleDrivesNobody(w: World, r: Row, v: View)
    ensures var u := SettleRow(w, r, v);
            w.ticks <= u.ticks && forall k :: |w.ticks| <= k < |u.ticks| ==> !u.ticks[k].Drove?
  {
    hide SettleRow, Apply;
    SettleTicks(w, r, v);
  }

  // ----- when the row cannot be deleted -----

  /**
   An escalation whose delete failed leaves its row behind. When that row is next in doubt it is escalated
   again if and only if the counter could not be cleared either; with the counter cleared, as it normally
   is, the row is returned, and the item the operator was told is left is open again.
   */
  lemma UndeletedRowIff(w: World, r: Row, v: View, later: View)
    requires Judge(r, v, Attempts(w, r.key)).Escalate? && !EnvOf(v, r).deleteOk
    requires Doubtful(r, later) && EnvOf(later, r).counterOk
    ensures SettleRow(w, r, v).rows == w.rows && SettleRow(w, r, v).lists == w.lists
    ensures var j := Judge(r, later, Attempts(SettleRow(w, r, v), r.key));
            (j.Escalate? <==> !EnvOf(v, r).clearOk) && (j.Return? <==> EnvOf(v, r).clearOk)
    ensures var u, k := SettleRow(w, r, v), ReclaimAt(w, r, EnvOf(later, r));
            EnvOf(v, r).clearOk && k != 0 ==>
              && SettleRow(u, r, later).lists == Mark(w, r.key.path, k, TaskFile.OPEN).lists
              && SettleRow(u, r, later).log == u.log + [Opened(w.lists[r.key.path][k - 1].id)]
  {
    hide Doubtful, Forgo, Present, Working, Waiting;
    EscalatedAtCeiling(r, v, Attempts(w, r.key));
    ForgoFrame(DeleteRow(w, r, false), r);
    var u, k := SettleRow(w, r, v), ReclaimAt(w, r, EnvOf(later, r));
    DoubtfulIsJudged(r, later, Attempts(u, r.key));
    if EnvOf(v, r).clearOk && k != 0 {
      assert ReclaimAt(u, r, EnvOf(later, r)) == k;
      ForgoFrame(Mark(u, r.key.path, k, TaskFile.OPEN), r);
    }
  }

  lemma EscalatedAtCeiling(r: Row, v: View, attempts: nat)
    requires Judge(r, v, attempts).Escalate?
    ensures attempts >= MAX_HANDOUTS
  {
  }

  lemma DoubtfulIsJudged(r: Row, v: View, attempts: nat)
    requires Doubtful(r, v) && EnvOf(v, r).counterOk
    ensures Judge(r, v, attempts) == if attempts >= MAX_HANDOUTS then Verdict.Escalate else Verdict.Return
  {
  }

  // ----- no row outlives the ceiling -----

  lemma {:induction false} OldRowsAreGone(w: World, ledger: seq<Row>, v: View, r: Row)
    requires r in ledger && Deletes(v, r)
    requires r.confirmed || Age(v, r) > STALE_TTL + MAX_DECLARED_WAIT
    ensures r.id !in ReclaimAll(w, ledger, v).world.rows
  {
    hide Deletes, Awaits;
    var n := |ledger| - 1;
    var u := ReclaimAll(w, ledger[..n], v).world;
    assert ledger == ledger[..n] + [ledger[n]];
    SettleKeepsOthers(u, ledger[n], v);
    if r in ledger[..n] {
      OldRowsAreGone(w, ledger[..n], v, r);
    } else {
      assert !Awaits(u, r, v) by { OldIsNotAwaited(u, r, v); }
    }
  }

  lemma OldIsNotAwaited(w: World, r: Row, v: View)
    requires r.confirmed || Age(v, r) > STALE_TTL + MAX_DECLARED_WAIT
    ensures !Awaits(w, r, v)
  {
  }

  /** Whatever the files and agents do, a row past both bounds is gone after the next sweep that may act. */
  lemma SweepEndsOldRows(w: World, v: View, sources: seq<Pairing.Source>, id: nat)
    requires Filed(w) && id in w.rows && Deletes(v, w.rows[id])
    requires w.rows[id].confirmed || Age(v, w.rows[id]) > STALE_TTL + MAX_DECLARED_WAIT
    ensures id !in Sweep(w, v, false, true, sources).rows
  {
    hide ReclaimAll, Apply, Pairing.PairSources, Ledger;
    var noted := Ticked(w, [Listing(v.agents, v.now)]);
    LedgerListsAll(noted.rows, noted.issued);
    OldRowsAreGone(noted, Ledger(noted.rows, noted.issued), v, w.rows[id]);
  }
}
