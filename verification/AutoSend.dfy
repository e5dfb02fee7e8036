/** The daemon's hand-out code as it runs, over the maps, files and ledger it updates in place. */
module AutoSend {
  import opened Wrappers
  import opened IdleClock
  import TaskFile
  import Pairing
  import opened HandOut

  lemma ApplyOne(c: Clock, ts: seq<Tick>, t: Tick)
    ensures Apply(c, [t]) == Next(c, t)
    ensures Apply(c, ts + [t]) == Next(Apply(c, ts), t)
  {
    assert [t][..0] == [] && (ts + [t])[..|ts|] == ts;
  }

  lemma TickedTwice(w: World, a: seq<Tick>, b: seq<Tick>)
    ensures Ticked(Ticked(w, a), b) == Ticked(w, a + b)
  {
    ApplyConcat(w.clock, a, b);
  }

  class AutoSender {
    var lists: map<string, seq<TaskFile.Task>>
    var rows: map<nat, Row>
    var issued: nat
    var attempts: map<Key, nat>
    var idleSince: map<AgentId, IdleMark>
    var redrive: map<AgentId, Redrive>
    var claims: map<AgentId, Claim>
    var flight: Option<Flight>
    ghost var ticks: seq<Tick>
    ghost var log: seq<Event>

    ghost function Times(): Clock
      reads this
    {
      Clock(idleSince, redrive, claims)
    }

    ghost function State(): World
      reads this
    {
      World(lists, rows, issued, attempts, Times(), flight, ticks, log)
    }

    constructor ()
      ensures State() == EMPTY
    {
      lists, rows, issued, attempts := map[], map[], 0, map[];
      idleSince, redrive, claims, flight := map[], map[], map[], None;
      ticks, log := [], [];
    }

    // ----- the clock -----

    method NoteAgent(a: Agent, now: int)
      modifies `idleSince, `redrive, `claims
      ensures Times() == NoteOne(old(Times()), a, now)
    {
      if !Parked(a.status) {
        idleSince, claims, redrive := idleSince - {a.id}, claims - {a.id}, redrive - {a.id};
        return;
      }
      if a.id in idleSince && idleSince[a.id].pane == a.pane && idleSince[a.id].terminal == a.terminal { return; }
      claims, redrive := claims - {a.id}, redrive - {a.id};
      idleSince := idleSince[a.id := IdleMark(a.pane, a.terminal, now)];
    }

    /** Refreshes the parked-since clock and forgets agents that are gone and claims that expired. */
    method NoteIdleAgents(agents: seq<Agent>, now: int)
      modifies `idleSince, `redrive, `claims, `ticks
      ensures State() == Ticked(old(State()), [Listing(agents, now)])
    {
      hide NoteOne;
      var live: set<AgentId> := {};
      for i := 0 to |agents|
        invariant Times() == NoteAll(old(Times()), agents[..i], now)
        invariant live == Ids(agents[..i])
        invariant ticks == old(ticks)
      {
        assert agents[..i + 1][..i] == agents[..i] && agents[..i + 1] == agents[..i] + [agents[i]];
        live := live + {agents[i].id};
        NoteAgent(agents[i], now);
      }
      assert agents[..|agents|] == agents;
      idleSince := map id | id in idleSince && id in live :: idleSince[id];
      redrive := map id | id in redrive && id in live :: redrive[id];
      claims := map id | id in claims && id in live && now - claims[id].at <= CLAIM_TTL :: claims[id];
      ticks := ticks + [Listing(agents, now)];
      ApplyOne(old(Times()), [], Listing(agents, now));
    }

    method NoteRedrive(id: AgentId, now: int)
      modifies `redrive
      ensures redrive == old(redrive)[id := Redrive(Misses(old(Times()), id) + 1, now + Delay(Misses(old(Times()), id) + 1))]
    {
      var misses := if id in redrive then redrive[id].misses + 1 else 1;
      var delay := PollRedriveDelay(misses);
      redrive := redrive[id := Redrive(misses, now + delay)];
    }

    method DropAutoTaskClaim(id: AgentId)
      modifies `claims, `ticks
      ensures State() == Ticked(old(State()), [Unclaimed(id)])
    {
      claims := claims - {id};
      ticks := ticks + [Unclaimed(id)];
      ApplyOne(old(Times()), [], Unclaimed(id));
    }

    method DropAutoTaskClaimFor(r: Row)
      modifies `claims, `ticks
      ensures State() == Forgo(old(State()), r)
    {
      if r.agent !in claims || claims[r.agent].path != r.key.path || claims[r.agent].text != r.key.text { return; }
      DropAutoTaskClaim(r.agent);
    }

    // ----- the ledger -----

    method OpenTaskReservations() returns (ledger: seq<Row>)
      ensures ledger == Ledger(rows, issued)
    {
      ledger := [];
      for id := 0 to issued
        invariant ledger == Ledger(rows, id)
      {
        if id in rows { ledger := ledger + [rows[id]]; }
      }
    }

    method RetireReservation(r: Row, e: RowEnv)
      modifies `rows, `attempts
      ensures State() == RetireRow(old(State()), r, e)
    {
      if !e.deleteOk { return; }
      rows := rows - {r.id};
      if e.clearOk { attempts := attempts - {r.key}; }
    }

    method EscalateNeverStartedTask(r: Row, e: RowEnv)
      modifies `rows, `attempts, `claims, `ticks, `log
      ensures State() == EscalateRow(old(State()), r, e)
    {
      if e.deleteOk { rows := rows - {r.id}; }
      DropAutoTaskClaimFor(r);
      if e.clearOk { attempts := attempts - {r.key}; }
      if e.auditOk { log := log + [Told(r.key)]; }
    }

    method WriteMark(path: string, k: nat, mark: char)
      requires path in lists && 1 <= k <= |lists[path]|
      modifies `lists, `log
      ensures State() == Mark(old(State()), path, k, mark)
    {
      var tasks := lists[path];
      lists := lists[path := tasks[k - 1 := tasks[k - 1].(mark := mark)]];
      if mark == TaskFile.OPEN { log := log + [Opened(tasks[k - 1].id)]; }
    }

    method ReturnToOpen(r: Row, e: RowEnv) returns (done: bool)
      modifies `lists, `rows, `claims, `ticks, `log
      ensures State() == ReturnRow(old(State()), r, e)
      ensures done == (ReclaimAt(old(State()), r, e) != 0)
    {
      done := false;
      if !e.mutateOk || r.key.path !in lists { return; }
      var edit := TaskFile.ReclaimTask(lists[r.key.path], r.index, r.key.text);
      if edit.Refused? { return; }
      WriteMark(r.key.path, edit.index, TaskFile.OPEN);
      DropAutoTaskClaimFor(r);
      if e.deleteOk { rows := rows - {r.id}; }
      done := true;
    }

    /** One row of the reclaim; whether its agent is held back for the rest of the sweep. */
    method SettleStranded(r: Row, v: View) returns (awaits: bool)
      modifies `lists, `rows, `attempts, `claims, `ticks, `log
      ensures State() == SettleRow(old(State()), r, v)
      ensures awaits == Awaits(old(State()), r, v)
    {
      var e := EnvOf(v, r);
      if r.confirmed {
        RetireReservation(r, e);
        return false;
      }
      var a := Find(v.agents, r.agent);
      var tenant := a.Some? && SameTenant(a.value, r);
      var waiting := r.agent in v.waits && v.now < v.waits[r.agent];
      if v.now - r.reservedAt > STALE_TTL {
        if tenant && waiting && v.now - r.reservedAt <= STALE_TTL + MAX_DECLARED_WAIT { return true; }
        RetireReservation(r, e);
        return false;
      }
      if e.seen.None? { return true; }
      var marked := TaskFile.HasInProgress(e.seen.value, r.key.text);
      if !marked {
        RetireReservation(r, e);
        return false;
      }
      if tenant && !Parked(a.value.status) { return true; }
      if tenant && r.agent in v.background { return true; }
      if tenant && waiting { return true; }
      if v.now - r.reservedAt <= RECLAIM_GRACE { return true; }
      if !e.counterOk { return true; }
      var tries := if r.key in attempts then attempts[r.key] else 0;
      if tries >= MAX_HANDOUTS {
        EscalateNeverStartedTask(r, e);
        return false;
      }
      var done := ReturnToOpen(r, e);
      awaits := !done;
    }

    method ReclaimStrandedTasks(v: View) returns (awaiting: set<AgentId>)
      modifies `lists, `rows, `attempts, `claims, `ticks, `log
      ensures var p := ReclaimAll(old(State()), Ledger(old(rows), old(issued)), v); State() == p.world && awaiting == p.awaiting
    {
      hide SettleRow, Awaits;
      var ledger := OpenTaskReservations();
      awaiting := {};
      for i := 0 to |ledger|
        invariant ReclaimAll(old(State()), ledger[..i], v) == Pass(State(), awaiting)
      {
        assert ledger[..i + 1][..i] == ledger[..i];
        var awaits := SettleStranded(ledger[i], v);
        if awaits { awaiting := awaiting + {ledger[i].agent}; }
      }
      assert ledger[..|ledger|] == ledger;
    }

    // ----- the pairing -----

    method EligibleIdleAgents(s: Pairing.Source, agents: seq<Agent>, now: int, barred: set<AgentId>) returns (out: seq<Agent>)
      ensures out == Pairing.EligibleAgents(Times(), agents, s.allows, barred, now)
    {
      out := [];
      for i := 0 to |agents|
        invariant out == Pairing.EligibleAgents(Times(), agents[..i], s.allows, barred, now)
      {
        var a := agents[i];
        assert agents[..i + 1][..i] == agents[..i];
        if a.id in barred || !Parked(a.status) { continue; }
        if a.id !in idleSince || idleSince[a.id].pane != a.pane || idleSince[a.id].terminal != a.terminal { continue; }
        if now - idleSince[a.id].at <= AUTO_SEND_IDLE_AFTER { continue; }
        if a.id in redrive && now < redrive[a.id].nextAt { continue; }
        if a.id in claims || a.id !in s.allows { continue; }
        out := Pairing.InsertIdle(Clock(idleSince, redrive, claims), out, a);
      }
      assert agents[..|agents|] == agents;
    }

    method UnclaimedPendingTasks(path: string, tasks: seq<TaskFile.Task>) returns (out: seq<string>)
      ensures out == Pairing.Unpromised(Times(), path, TaskFile.Pending(tasks))
    {
      var promised := set id | id in claims && claims[id].path == path :: claims[id].text;
      var texts := TaskFile.Pending(tasks);
      out := [];
      for i := 0 to |texts|
        invariant out == Pairing.Unpromised(Times(), path, texts[..i])
      {
        assert texts[..i + 1][..i] == texts[..i];
        if texts[i] in promised { continue; }
        out := out + [texts[i]];
      }
      assert texts[..|texts|] == texts;
    }

    method PairAgent(a: Agent, claim: Claim, now: int)
      modifies `redrive, `claims, `ticks
      ensures State() == Ticked(old(State()), [Drove(a, claim, now)])
    {
      claims := claims[a.id := claim];
      NoteRedrive(a.id, now);
      ticks := ticks + [Drove(a, claim, now)];
      ApplyOne(old(Times()), [], Drove(a, claim, now));
    }

    /** Pairs the agents of one group with the open tasks nobody is promised, in order. */
    method PairGroup(g: Pairing.Group, seen: map<string, seq<TaskFile.Task>>, now: int) returns (driven: set<AgentId>)
      modifies `redrive, `claims, `ticks
      ensures State() == Ticked(old(State()), Pairing.DrivesOf(old(Times()), g, seen, now))
      ensures driven == Pairing.Driven(Pairing.DrivesOf(old(Times()), g, seen, now))
    {
      hide Apply, Pairing.Unpromised;
      driven := {};
      ghost var drives := Pairing.DrivesOf(Times(), g, seen, now);
      assert Apply(Times(), []) == Times() by { Pairing.NoTicks(Times()); }
      if g.locator.spelling !in seen { return; }
      var pending := UnclaimedPendingTasks(g.locator.path, seen[g.locator.spelling]);
      for i := 0 to |g.agents|
        invariant i <= |drives|
        invariant State() == Ticked(old(State()), drives[..i])
        invariant driven == Pairing.Driven(drives[..i])
      {
        if i >= |pending| { break; }
        var a, claim := g.agents[i], Claim(g.locator.path, pending[i], now);
        assert drives[..i + 1] == drives[..i] + [Drove(a, claim, now)];
        PairAgent(a, claim, now);
        TickedTwice(old(State()), drives[..i], [Drove(a, claim, now)]);
        driven := driven + {a.id};
      }
      assert drives[..|drives|] == drives;
    }

    method PairSource(s: Pairing.Source, eligible: seq<Agent>, now: int) returns (driven: set<AgentId>)
      modifies `redrive, `claims, `ticks
      ensures var drives := Pairing.PairGroups(old(Times()), Pairing.Groups(s.resolution, eligible), s.seen, now);
              State() == Ticked(old(State()), drives) && driven == Pairing.Driven(drives)
    {
      hide Apply, Pairing.DrivesOf;
      driven := {};
      var groups := Pairing.Groups(s.resolution, eligible);
      ghost var all := Pairing.PairGroups(Times(), groups, s.seen, now);
      ghost var done: seq<Tick> := [];
      assert Apply(Times(), []) == Times() by { Pairing.NoTicks(Times()); }
      for j := 0 to |groups|
        invariant State() == Ticked(old(State()), done)
        invariant all == done + Pairing.PairGroups(Times(), groups[j..], s.seen, now)
        invariant driven == Pairing.Driven(done)
      {
        ghost var drives := Pairing.DrivesOf(Times(), groups[j], s.seen, now);
        assert groups[j..][0] == groups[j] && groups[j..][1..] == groups[j + 1..];
        var more := PairGroup(groups[j], s.seen, now);
        TickedTwice(old(State()), done, drives);
        done, driven := done + drives, driven + more;
      }
      assert all == done;
    }

    /** The sweep: the clock, the reclaim, then the pairing, source by source. */
    method AutoSendIdleTasks(v: View, standDown: bool, ledgerOk: bool, sources: seq<Pairing.Source>)
      modifies this
      ensures State() == Sweep(old(State()), v, standDown, ledgerOk, sources)
    {
      hide Apply, ReclaimAll, Ledger, Pairing.PairGroups, Pairing.EligibleAgents, Pairing.Groups;
      NoteIdleAgents(v.agents, v.now);
      if standDown || !ledgerOk { return; }
      var awaiting := ReclaimStrandedTasks(v);
      label paired:
      var driven: set<AgentId> := {};
      ghost var all: seq<Tick> := [];
      assert Apply(Times(), []) == Times() by { Pairing.NoTicks(Times()); }
      for i := 0 to |sources|
        invariant all == Pairing.PairSources(old@paired(Times()), sources[..i], v.agents, awaiting, v.now)
        invariant State() == Ticked(old@paired(State()), all)
        invariant driven == Pairing.Driven(all)
      {
        assert sources[..i + 1][..i] == sources[..i];
        var eligible := EligibleIdleAgents(sources[i], v.agents, v.now, awaiting + driven);
        ghost var drives := Pairing.PairGroups(Times(), Pairing.Groups(sources[i].resolution, eligible), sources[i].seen, v.now);
        var more := PairSource(sources[i], eligible, v.now);
        TickedTwice(old@paired(State()), all, drives);
        all, driven := all + drives, driven + more;
      }
      assert sources[..|sources|] == sources;
    }

    // ----- one delivery -----

    /** Marks the task before it is sent; a refusal means somebody else took it, and nothing is sent. */
    method ReserveDeclaredTask(agent: AgentId, terminal: string, key: Key, ok: bool) returns (won: bool)
      requires flight.None?
      modifies `lists, `claims, `flight, `ticks, `log
      ensures State() == Reserve(old(State()), agent, terminal, key, ok)
      ensures won == flight.Some?
    {
      won := false;
      var edit := TaskFile.Refused;
      if ok && key.path in lists { edit := TaskFile.ReserveTask(lists[key.path], key.text); }
      if edit.Refused? {
        DropAutoTaskClaim(agent);
        return;
      }
      won := true;
      var f := Flight(agent, terminal, key, edit.index, lists[key.path][edit.index - 1].id);
      WriteMark(key.path, edit.index, TaskFile.IN_PROGRESS);
      flight, log := Some(f), log + [Won(f)];
    }

    method RollBack(f: Flight, ok: bool)
      modifies `lists, `log
      ensures State() == Rollback(old(State()), f, ok)
    {
      if !ok || f.key.path !in lists { return; }
      var edit := TaskFile.Release(lists[f.key.path], f.index, f.key.text);
      if edit.Edited? { WriteMark(f.key.path, f.index, TaskFile.OPEN); }
    }

    method CountAttempt(key: Key) returns (n: nat)
      modifies `attempts
      ensures State() == Bumped(old(State()), key) && n == Attempts(State(), key)
    {
      n := if key in attempts then attempts[key] + 1 else 1;
      attempts := attempts[key := n];
    }

    /** A refused send counts against the item's ceiling; short of it, or untold, the item returns to open. */
    method RefuseSend(f: Flight, e: Ending)
      requires e.SendFailed?
      modifies `lists, `attempts, `log
      ensures State() == Refuse(old(State()), f, e)
    {
      hide Rollback;
      if e.countOk {
        var n := CountAttempt(f.key);
        if n >= MAX_HANDOUTS && e.auditOk {
          if e.clearOk { attempts := attempts - {f.key}; }
          log := log + [Told(f.key)];
          return;
        }
      }
      RollBack(f, e.mutateOk);
    }

    method RecordHandoutReservation(f: Flight, now: int)
      modifies `rows, `issued, `attempts
      ensures State() == RecordRow(old(State()), f, now)
    {
      rows := rows[issued := Row(issued, f.key, f.index, f.agent, f.terminal, now, 0, false)];
      issued := issued + 1;
      var _ := CountAttempt(f.key);
    }

    method ClearRedriveOf(id: AgentId)
      modifies `redrive, `ticks
      ensures State() == Ticked(old(State()), [Landed(id)])
    {
      ApplyOne(Times(), [], Landed(id));
      redrive, ticks := redrive - {id}, ticks + [Landed(id)];
    }

    /** The end of a delivery: rolled back, counted against the ceiling, or recorded in the ledger. */
    method Conclude(e: Ending)
      requires flight.Some?
      modifies this
      ensures State() == Deliver(old(State()), e)
    {
      hide Ticked, Rollback, Refuse, RecordRow;
      var f := flight.value;
      flight := None;
      match e
      case Abandoned(ok) =>
        log := log + [Dropped(f)];
        RollBack(f, ok);
        DropAutoTaskClaim(f.agent);
      case SendFailed(_, _, _, _) =>
        log := log + [Failed(f)];
        RefuseSend(f, e);
        DropAutoTaskClaim(f.agent);
      case Accepted(now, recordOk) =>
        log := log + [Sent(f)];
        ClearRedriveOf(f.agent);
        if recordOk { RecordHandoutReservation(f, now); }
    }

    // ----- what the daemon sees and survives -----

    /** The agent was seen working again. */
    method AgentWorking(agent: AgentId, terminal: string, ok: bool)
      modifies `rows, `idleSince, `claims, `ticks
      ensures State() == Resume(old(State()), agent, terminal, ok)
    {
      ApplyOne(Times(), [], Tick.Ended(agent));
      idleSince, claims, ticks := idleSince - {agent}, claims - {agent}, ticks + [Tick.Ended(agent)];
      if ok {
        rows := map id | id in rows :: if Confirms(rows[id], agent, terminal) then rows[id].(confirmed := true) else rows[id];
      }
    }

    /** A daemon start: the memory is empty and unconfirmed rows get their window again, a few times. */
    method Start(now: int, ok: bool)
      modifies this
      ensures State() == Restart(old(State()), now, ok)
    {
      ApplyOne(Times(), [], Forgotten);
      idleSince, redrive, claims, ticks := map[], map[], map[], ticks + [Forgotten];
      if flight.Some? { log := log + [Dropped(flight.value)]; }
      flight := None;
      if ok {
        rows := map id | id in rows ::
          if !rows[id].confirmed && rows[id].restamps < MAX_RESTAMPS
          then rows[id].(reservedAt := now, restamps := rows[id].restamps + 1) else rows[id];
      }
    }
  }
}
