/**
 What the steps of the hand-out achieve: which rows work confirms and a start renews, who keeps a claim,
 when a reservation is won, and that what was taken up is never taken back.
 */
module HandOutEffects {
  import opened Wrappers
  import opened IdleClock
  import TaskFile
  import Pairing
  import opened HandOut
  import opened HandOutRuns
  import opened HandOutSweeps
  import opened HandOutBounds

  // ----- what confirms a row, and what a confirmed row is spared -----

  /**
   With the write landing, an agent seen at work confirms exactly its own rows, those of its terminal or
   with one of the two unknown; its spell and its claim end, and nothing else of the ledger changes.
   */
  lemma WorkConfirmsIff(w: World, agent: AgentId, terminal: string, ok: bool)
    ensures var u := Resume(w, agent, terminal, ok);
            && u.rows.Keys == w.rows.Keys && u.lists == w.lists && u.attempts == w.attempts && u.log == w.log
            && agent !in u.clock.idleSince && agent !in u.clock.claims
            && forall id :: id in w.rows ==>
                 && u.rows[id] == w.rows[id].(confirmed := u.rows[id].confirmed)
                 && (u.rows[id].confirmed <==>
                       w.rows[id].confirmed
                       || (ok && w.rows[id].agent == agent
                           && (w.rows[id].terminal == terminal || w.rows[id].terminal == "" || terminal == "")))
  {
    hide Judge;
    assert [Tick.Ended(agent)][..0] == [];
    assert Apply(w.clock, [Tick.Ended(agent)]) == EndSpell(w.clock, agent);
  }

  lemma StepKeepsConfirmed(w: World, s: Step, id: nat)
    requires Filed(w) && id < w.issued && (id in w.rows ==> w.rows[id].confirmed)
    ensures Filed(Act(w, s)) && id < Act(w, s).issued && (id in Act(w, s).rows ==> Act(w, s).rows[id].confirmed)
  {
    hide Act, Filed;
    StepStaysFiled(w, s);
    if id in Act(w, s).rows { RowsChangeOnlySo(w, s, id); }
  }

  lemma StepStaysFiled(w: World, s: Step)
    requires Filed(w)
    ensures Filed(Act(w, s)) && w.issued <= Act(w, s).issued
  {
    hide Apply, Sweep, Deliver, Reserve, NewlyOpen, Resume, Restart, ReclaimAll, Ledger;
    match s
    case Swept(v, standDown, ledgerOk, sources) =>
      SweepStaysFiled(w, v, standDown, ledgerOk, sources);
      SweepKeepsIssued(w, v, standDown, ledgerOk, sources);
    case Reserved(agent, terminal, key, ok) => ReserveKeepsLedger(w, agent, terminal, key, ok);
    case Concluded(e) =>
      if w.flight.Some? {
        DeliverStaysFiled(w, e);
        DeliverKeepsIssued(w, e);
      }
    case Resumed(agent, terminal, ok) => ResumeStaysFiled(w, agent, terminal, ok);
    case Started(now, ok) => RestartStaysFiled(w, now, ok);
    case _ =>
  }

  lemma DeliverKeepsIssued(w: World, e: Ending)
    requires w.flight.Some?
    ensures w.issued <= Deliver(w, e).issued
  {
    hide Apply;
  }

  lemma ReserveKeepsLedger(w: World, agent: AgentId, terminal: string, key: Key, ok: bool)
    ensures Reserve(w, agent, terminal, key, ok).rows == w.rows && Reserve(w, agent, terminal, key, ok).issued == w.issued
  {
    hide Apply, TaskFile.FirstOpen;
  }

  lemma ResumeStaysFiled(w: World, agent: AgentId, terminal: string, ok: bool)
    requires Filed(w)
    ensures Filed(Resume(w, agent, terminal, ok)) && Resume(w, agent, terminal, ok).issued == w.issued
  {
    hide Apply;
  }

  lemma RestartStaysFiled(w: World, now: int, ok: bool)
    requires Filed(w)
    ensures Filed(Restart(w, now, ok)) && Restart(w, now, ok).issued == w.issued
  {
    hide Apply;
  }

  lemma SweepKeepsIssued(w: World, v: View, standDown: bool, ledgerOk: bool, sources: seq<Pairing.Source>)
    ensures Sweep(w, v, standDown, ledgerOk, sources).issued == w.issued
  {
    hide Apply, ReclaimAll, Ledger, Pairing.PairSources;
    var noted := Ticked(w, [Listing(v.agents, v.now)]);
    ReclaimKeepsIssued(noted, Ledger(noted.rows, noted.issued), v);
  }

  lemma {:induction false} ReclaimKeepsIssued(w: World, ledger: seq<Row>, v: View)
    ensures ReclaimAll(w, ledger, v).world.issued == w.issued
  {
    hide SettleRow, Awaits;
    if ledger != [] {
      var n := |ledger| - 1;
      ReclaimKeepsIssued(w, ledger[..n], v);
      SettleFrame(ReclaimAll(w, ledger[..n], v).world, ledger[n], v, ledger[n].key);
    }
  }

  lemma {:induction false} ConfirmedStays(w: World, steps: seq<Step>, id: nat)
    requires Filed(w) && id < w.issued && (id in w.rows ==> w.rows[id].confirmed)
    ensures Filed(Reached(w, steps)) && id < Reached(w, steps).issued
    ensures id in Reached(w, steps).rows ==> Reached(w, steps).rows[id].confirmed
  {
    hide Act, Filed;
    if steps != [] {
      ConfirmedStays(w, steps[..|steps| - 1], id);
      StepKeepsConfirmed(Reached(w, steps[..|steps| - 1]), steps[|steps| - 1], id);
    }
  }

  /**
   Once its own tenant was seen at work, a hand-out is never taken back: whatever follows, a sweep that
   still finds the row touches no list on its account and keeps no agent waiting for it.
   */
  lemma TakenUpIsNeverReturned(w: World, agent: AgentId, terminal: string, steps: seq<Step>, id: nat, x: World, v: View)
    requires Filed(w) && w.flight.None? && id in w.rows && w.rows[id].agent == agent
    requires w.rows[id].terminal == terminal || w.rows[id].terminal == "" || terminal == ""
    requires id in Reached(Act(w, Resumed(agent, terminal, true)), steps).rows
    ensures var r := Reached(Act(w, Resumed(agent, terminal, true)), steps).rows[id];
            && r.confirmed && !Awaits(x, r, v)
            && SettleRow(x, r, v).lists == x.lists && SettleRow(x, r, v).log == x.log
            && (Deletes(v, r) ==> SettleRow(x, r, v).rows == x.rows - {r.id})
  {
    hide Reached, Resume, Filed, Judge;
    WorkConfirmsIff(w, agent, terminal, true);
    ResumeStaysFiled(w, agent, terminal, true);
    var u := Act(w, Resumed(agent, terminal, true));
    assert id < u.issued by { FiledBelow(w, id); }
    ConfirmedStays(u, steps, id);
    ConfirmedIsRetired(x, Reached(u, steps).rows[id], v);
  }

  lemma FiledBelow(w: World, id: nat)
    requires Filed(w) && id in w.rows
    ensures id < w.issued
  {
  }

  lemma ConfirmedIsRetired(x: World, r: Row, v: View)
    requires r.confirmed
    ensures !Awaits(x, r, v) && SettleRow(x, r, v).lists == x.lists && SettleRow(x, r, v).log == x.log
    ensures Deletes(v, r) ==> SettleRow(x, r, v).rows == x.rows - {r.id}
  {
  }

  /**
   A start that reads the ledger gives each unconfirmed row, at most three times, a whole new grace: for
   that long its task, while still marked, stays with its agent. A row past its renewals gets none.
   */
  lemma StartRenewsIff(w: World, now: int, ok: bool, id: nat)
    requires id in w.rows
    ensures var u := Restart(w, now, ok);
            && u.rows.Keys == w.rows.Keys && u.lists == w.lists && u.clock == STOPPED && u.flight.None?
            && (if ok && !w.rows[id].confirmed && w.rows[id].restamps < MAX_RESTAMPS
                then u.rows[id] == w.rows[id].(reservedAt := now, restamps := u.rows[id].restamps) && u.rows[id].restamps == w.rows[id].restamps + 1
                else u.rows[id] == w.rows[id])
  {
    assert [Forgotten][..0] == [] && Apply(w.clock, [Forgotten]) == STOPPED;
  }

  lemma RenewedStaysOpen(w: World, now: int, id: nat, x: World, v: View)
    requires id in w.rows && !w.rows[id].confirmed && w.rows[id].restamps < MAX_RESTAMPS && v.now <= now + RECLAIM_GRACE
    requires var e := EnvOf(v, Restart(w, now, true).rows[id]);
             e.seen.Some? ==> exists i :: 0 <= i < |e.seen.value| && e.seen.value[i].text == w.rows[id].key.text && e.seen.value[i].mark == TaskFile.IN_PROGRESS
    ensures StaysOpen(x, Restart(w, now, true).rows[id], v) && SettleRow(x, Restart(w, now, true).rows[id], v) == x
  {
    hide Restart, SettleRow, Occupied, ReclaimAt;
    StartRenewsIff(w, now, true, id);
    RowStaysIff(x, Restart(w, now, true).rows[id], v);
  }

  // ----- what becomes of the claim -----

  lemma OneTick(c: Clock, t: Tick)
    ensures Apply(c, [t]) == Next(c, t)
  {
    assert [t][..0] == [];
  }

  /** A delivery that sends nothing frees its agent's claim and nobody else's; one that lands keeps it and restores the backoff. */
  lemma EndingFreesClaim(w: World, e: Ending)
    requires w.flight.Some?
    ensures var u, a := Deliver(w, e), w.flight.value.agent;
            && u.clock.idleSince == w.clock.idleSince && u.flight.None?
            && (if e.Accepted? then u.clock.claims == w.clock.claims && u.clock.redrive == w.clock.redrive - {a}
                else u.clock.claims == w.clock.claims - {a} && u.clock.redrive == w.clock.redrive)
  {
    hide Apply, Rollback, Refuse;
    var f := w.flight.value;
    OneTick(w.clock, Unclaimed(f.agent));
    OneTick(w.clock, Landed(f.agent));
    RollbackKeepsClock(Logged(w.(flight := None), Dropped(f)), f, e);
    if e.SendFailed? { RefuseKeepsClock(Logged(w.(flight := None), Failed(f)), f, e); }
  }

  lemma RollbackKeepsClock(w: World, f: Flight, e: Ending)
    ensures e.Abandoned? ==> Rollback(w, f, e.mutateOk).clock == w.clock && Rollback(w, f, e.mutateOk).flight == w.flight
  {
  }

  lemma RefuseKeepsClock(w: World, f: Flight, e: Ending)
    requires e.SendFailed?
    ensures Refuse(w, f, e).clock == w.clock && Refuse(w, f, e).flight == w.flight
  {
  }

  /** A reservation is won exactly when the file can be written and shows the text open; a refused one frees the claim. */
  lemma ReservationWonIff(w: World, agent: AgentId, terminal: string, key: Key, ok: bool)
    requires w.flight.None?
    ensures var u := Reserve(w, agent, terminal, key, ok);
            && (u.flight.Some? <==> ok && key.path in w.lists
                                    && exists i :: 0 <= i < |w.lists[key.path]| && w.lists[key.path][i].text == key.text
                                                   && w.lists[key.path][i].mark == TaskFile.OPEN)
            && (if u.flight.Some? then u.clock == w.clock
                else u.lists == w.lists && u.log == w.log && u.clock == w.clock.(claims := w.clock.claims - {agent}))
  {
    hide Apply, TaskFile.FirstOpenFrom;
    OneTick(w.clock, Unclaimed(agent));
    if key.path in w.lists {
      var tasks := w.lists[key.path];
      TaskFile.FirstOpenIsFirst(tasks, key.text, 1);
      PlaceOfFirstOpen(tasks, key.text);
      if i :| 0 <= i < |tasks| && tasks[i].text == key.text && tasks[i].mark == TaskFile.OPEN {
        assert TaskFile.IsOpen(tasks, i + 1, key.text);
      }
      assert TaskFile.FirstOpen(tasks, key.text) != 0 ==> tasks[TaskFile.FirstOpen(tasks, key.text) - 1].text == key.text;
    }
  }

  predicate ClaimedFor(c: Clock, id: AgentId, r: Row) {
    id == r.agent && id in c.claims && c.claims[id].path == r.key.path && c.claims[id].text == r.key.text
  }

  lemma ForgoFreesClaim(w: World, r: Row, id: AgentId)
    ensures id in Forgo(w, r).clock.claims <==> id in w.clock.claims && !ClaimedFor(w.clock, id, r)
    ensures id in Forgo(w, r).clock.claims ==> Forgo(w, r).clock.claims[id] == w.clock.claims[id]
  {
    hide Apply;
    OneTick(w.clock, Unclaimed(r.agent));
  }

  lemma SettledClock(w: World, r: Row, v: View)
    ensures var j, k := Judge(r, v, Attempts(w, r.key)), ReclaimAt(w, r, EnvOf(v, r));
            SettleRow(w, r, v).clock ==
            if j.Escalate? || (j.Return? && k != 0) then Forgo(w, r).clock else w.clock
  {
    hide Judge, Apply, ReclaimAt;
  }

  /** Settling a row drops the claim made for its own hand-out when it is returned or escalated, and no other claim ever. */
  lemma SettlingFreesClaimIff(w: World, r: Row, v: View, id: AgentId)
    ensures var u, j := SettleRow(w, r, v), Judge(r, v, Attempts(w, r.key));
            && (id in u.clock.claims <==>
                  id in w.clock.claims
                  && !(ClaimedFor(w.clock, id, r) && (j.Escalate? || (j.Return? && ReclaimAt(w, r, EnvOf(v, r)) != 0))))
            && (id in u.clock.claims ==> u.clock.claims[id] == w.clock.claims[id])
  {
    hide SettleRow, Judge, Forgo, ReclaimAt, ClaimedFor;
    SettledClock(w, r, v);
    ForgoFreesClaim(w, r, id);
  }
}
