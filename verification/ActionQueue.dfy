/**
 The operator-action queue: rows filed by front ends, claimed and run by the daemon that owns the
 target, with crashes, failed writes and restarts. Times are seconds.
 */
module ActionQueue {
  import opened Wrappers

  const MAX_ATTEMPTS: nat := 3
  const ACTION_STALE_AFTER := 120
  const AGENT_STATE_STALE_AFTER := 3600

  datatype Kind =
    | DeliverReply | SendTask | AcceptGeneratedTask | SetMode | Capture | Focus | Rename
    | SetEnabled | SetSnoozed | DeclareWait | Unsupported(name: string)

  /** How long a request of this kind may wait; 0 when it never goes stale. */
  function StaleBound(kind: Kind): int {
    match kind
    case DeliverReply | SendTask | Focus | AcceptGeneratedTask => ACTION_STALE_AFTER
    case Rename | SetEnabled | SetSnoozed | DeclareWait => AGENT_STATE_STALE_AFTER
    case _ => 0
  }

  datatype Status = Pending | Running | Done | Failed

  predicate Terminal(s: Status) {
    s.Done? || s.Failed?
  }

  /** `correction` is the row this action delivers, 0 when it delivers none. */
  datatype Action = Action(
    node: string, kind: Kind, target: string, correction: int, createdAt: int,
    status: Status, attempts: nat, sideEffect: bool)

  datatype Failure = Transient | Refused | Closed | Permanent

  datatype Outcome = Landed | Erred(failure: Failure, text: string)

  /** Both refuse the request itself and leave nothing to record of it. */
  predicate WithdrawsCorrection(f: Failure) {
    f.Refused? || f.Closed?
  }

  /**
   What the executor met. `Quiet` typed nothing. `Unmarked` could not record the point of no return,
   though the write may have landed. `Typed` marked it and then sent the keystrokes; from there a
   failure is never reported as transient. `Died` is the process ending after the mark.
   */
  datatype Execution =
    | Quiet(outcome: Outcome)
    | Unmarked(landed: bool, failure: Failure)
    | Typed(outcome: Outcome)
    | Died(typed: bool)
  {
    predicate Valid() {
      && (Typed? && outcome.Erred? ==> !outcome.failure.Transient?)
      && (Unmarked? ==> failure.Transient? || failure.Permanent?)
    }
  }

  /** What happens around one drain of a row: the clock, which writes succeed, how the executor ends. */
  datatype Env = Env(now: int, claimOk: bool, diesClaimed: bool, execution: Execution, outcomeOk: bool, auditOk: bool)

  /** What became of one row over its life; `refusal` is what a recorded safety refusal said. */
  datatype Life = Life(
    executions: nat, releases: nat, requeues: nat, typed: nat, withdrawn: bool, refusal: Option<string>)

  const UNTOUCHED := Life(0, 0, 0, 0, false, None)

  /** One run of an executor: the row, the node whose daemon ran it, and when. */
  datatype Run = Run(id: int, node: string, at: int)

  /** A target as one node's daemon knows it. */
  datatype Whom = Whom(node: string, target: string)

  datatype Said = Said(kind: Kind, text: string)

  /** An agent as a listing shows it. */
  datatype Resident = Resident(id: string, name: string)

  function Ids(live: set<Resident>): set<string> {
    set a | a in live :: a.id
  }

  /** What a daemon told the operator about a target, and the listings and starts at which it forgot. */
  datatype Notice =
    | Escalated(id: int, whom: Whom, said: Said, recorded: bool)
    | Relisted(node: string, live: set<Resident>)
    | Restarted(node: string)

  /** What was said is kept under the target as the request spelled it, and a listing knows agents by id. */
  predicate Forgets(n: Notice, whom: Whom) {
    match n
    case Escalated(_, _, _, _) => false
    case Relisted(node, live) => node == whom.node && whom.target !in Ids(live)
    case Restarted(node) => node == whom.node
  }

  /** The shared store, the memory of each node's daemon, and what happened so far. */
  datatype World = World(
    rows: map<int, Action>,
    corrections: map<int, bool>,
    refusals: map<Whom, Said>,
    lives: map<int, Life>,
    runs: seq<Run>,
    notices: seq<Notice>,
    resolved: set<int>)

  const EMPTY := World(map[], map[], map[], map[], [], [], {})

  // ----- the store's guarded writes -----

  /** Correction ids are issued once: never one that is stored, was resolved, or is named by a row. */
  predicate Unissued(w: World, cid: int) {
    && cid !in w.corrections
    && cid !in w.resolved
    && forall id :: id in w.rows ==> w.rows[id].correction != cid
  }

  function Enqueue(w: World, id: int, a: Action): World {
    if id in w.rows || (a.correction != 0 && !Unissued(w, a.correction)) then w
    else w.(rows := w.rows[id := a.(status := Pending, attempts := 0, sideEffect := false)],
            lives := w.lives[id := UNTOUCHED],
            corrections := if a.correction == 0 then w.corrections else w.corrections[a.correction := false])
  }

  /** A correction recorded with nothing to deliver. */
  function Note(w: World, cid: int): World {
    if cid == 0 || !Unissued(w, cid) then w else w.(corrections := w.corrections[cid := false])
  }

  function Live(w: World, id: int): Life {
    if id in w.lives then w.lives[id] else UNTOUCHED
  }

  predicate Requeued(a: Action, node: string) {
    a.node == node && a.status.Running? && !a.sideEffect
  }

  function Reclaimed(a: Action, node: string): Action {
    if a.node != node || !a.status.Running? then a
    else if a.sideEffect then a.(status := Failed)
    else a.(status := Pending)
  }

  /** A starting daemon: claims left behind are requeued, or failed when their effect may have landed. */
  function Restart(w: World, node: string, ok: bool): World {
    var kept := w.(refusals := map x | x in w.refusals && x.node != node :: w.refusals[x],
                   notices := w.notices + [Restarted(node)]);
    if !ok then kept else
    kept.(rows := map id | id in w.rows :: Reclaimed(w.rows[id], node),
          lives := map id | id in w.rows :: if Requeued(w.rows[id], node)
                                            then Live(w, id).(requeues := Live(w, id).requeues + 1) else Live(w, id))
  }

  // ----- running one row -----

  function Result(x: Execution): Outcome
    requires !x.Died?
  {
    if x.Unmarked? then Erred(x.failure, "recording the delivery attempt") else x.outcome
  }

  function Decimal(n: nat): string {
    if n < 10 then ["0123456789"[n]] else Decimal(n / 10) + ["0123456789"[n % 10]]
  }

  function Message(text: string, attempts: nat): string {
    if attempts > 1 then text + " (gave up after " + Decimal(attempts) + " attempts)" else text
  }

  predicate Stale(a: Action, now: int) {
    StaleBound(a.kind) > 0 && now - a.createdAt > StaleBound(a.kind)
  }

  /** What one drain makes of the row it claims; `said` is a refusal it recorded. */
  datatype Verdict = Verdict(row: Action, life: Life, ran: bool, withdraws: bool, said: Option<string>)

  function Claimed(a: Action): Action {
    a.(status := Running, attempts := a.attempts + 1)
  }

  predicate Marks(x: Execution) {
    x.Typed? || x.Died? || (x.Unmarked? && x.landed)
  }

  predicate Types(x: Execution) {
    x.Typed? || (x.Died? && x.typed)
  }

  function Executed(a: Action, x: Execution): Action {
    a.(sideEffect := a.sideEffect || Marks(x))
  }

  function Lived(l: Life, x: Execution): Life {
    l.(executions := l.executions + 1, typed := l.typed + if Types(x) then 1 else 0)
  }

  /** The outcome of an executor that returned, as it settles a running row. */
  function Settled(a: Action, l: Life, outcome: Outcome, ok: bool): Verdict {
    if !ok then Verdict(a, l, true, false, None)
    else if outcome.Landed? then Verdict(a.(status := Done), l, true, false, None)
    else if outcome.failure.Transient? && a.attempts < MAX_ATTEMPTS then
      Verdict(a.(status := Pending), l.(releases := l.releases + 1), true, false, None)
    else if !WithdrawsCorrection(outcome.failure) then Verdict(a.(status := Failed), l, true, false, None)
    else if outcome.failure.Closed? then Verdict(a.(status := Failed), l.(withdrawn := true), true, true, None)
    else
      var msg := Message(outcome.text, a.attempts);
      Verdict(a.(status := Failed), l.(withdrawn := true, refusal := Some(msg)), true, true, Some(msg))
  }

  function JudgeClaimed(c: Action, l: Life, e: Env): Verdict {
    if c.kind.Unsupported? || Stale(c, e.now) then
      Verdict(if e.outcomeOk then c.(status := Failed) else c, l, false, false, None)
    else if e.execution.Died? then Verdict(Executed(c, e.execution), Lived(l, e.execution), true, false, None)
    else Settled(Executed(c, e.execution), Lived(l, e.execution), Result(e.execution), e.outcomeOk)
  }

  function Judge(a: Action, l: Life, e: Env): Verdict {
    if e.diesClaimed then Verdict(Claimed(a), l, false, false, None) else JudgeClaimed(Claimed(a), l, e)
  }

  predicate Claimable(w: World, id: int, node: string) {
    id in w.rows && w.rows[id].status.Pending? && w.rows[id].node == node
  }

  predicate AlreadySaid(w: World, whom: Whom, said: Said) {
    whom in w.refusals && w.refusals[whom] == said
  }

  function WhomOf(a: Action): Whom {
    Whom(a.node, a.target)
  }

  /** A recorded refusal is escalated unless it is the last thing said about this target. */
  function Tell(w: World, id: int, a: Action, refusal: Option<string>, auditOk: bool): World {
    if refusal.None? || AlreadySaid(w, WhomOf(a), Said(a.kind, refusal.value)) then w
    else w.(refusals := w.refusals[WhomOf(a) := Said(a.kind, refusal.value)],
            notices := w.notices + [Escalated(id, WhomOf(a), Said(a.kind, refusal.value), auditOk)])
  }

  /** A withdrawn outcome takes the unprocessed correction with it, in the same transaction. */
  function Remaining(corrections: map<int, bool>, cid: int, withdraws: bool): map<int, bool> {
    if withdraws && cid != 0 && cid in corrections && !corrections[cid] then corrections - {cid} else corrections
  }

  function Recorded(w: World, id: int, v: Verdict, e: Env): World {
    Tell(w.(rows := w.rows[id := v.row],
            lives := w.lives[id := v.life],
            runs := if v.ran then w.runs + [Run(id, v.row.node, e.now)] else w.runs,
            corrections := Remaining(w.corrections, v.row.correction, v.withdraws)),
         id, v.row, v.said, e.auditOk)
  }

  lemma RecordedOver(w: World, u: World, id: int, v: Verdict, e: Env)
    requires v.ran && id in w.rows && id in u.rows && id in u.lives && v.row.node == w.rows[id].node
    requires u == w.(rows := w.rows[id := u.rows[id]], lives := w.lives[id := u.lives[id]],
                     runs := w.runs + [Run(id, v.row.node, e.now)])
    ensures Recorded(u, id, v.(ran := false), e) == Recorded(w, id, v, e)
  {
    assert w.rows[id := u.rows[id]][id := v.row] == w.rows[id := v.row];
    assert w.lives[id := u.lives[id]][id := v.life] == w.lives[id := v.life];
  }

  /** One row of a drain by the daemon of `node`; dying while claimed leaves the row running. */
  function Drain(w: World, id: int, node: string, e: Env): World {
    if !Claimable(w, id, node) || !e.claimOk then w
    else Recorded(w, id, Judge(w.rows[id], Live(w, id), e), e)
  }

  function DrainAll(w: World, ids: seq<int>, node: string, envs: seq<Env>): World
    requires |ids| == |envs|
  {
    if ids == [] then w
    else Drain(DrainAll(w, ids[..|ids| - 1], node, envs[..|ids| - 1]), ids[|ids| - 1], node, envs[|ids| - 1])
  }

  // ----- the correction pass and the listing -----

  predicate Withheld(w: World, cid: int) {
    exists id :: id in w.rows && w.rows[id].correction == cid && !Terminal(w.rows[id].status)
  }

  /** Applying a correction resolves its escalation before the row is marked processed. */
  function Apply(w: World, cid: int, markOk: bool): World {
    if cid !in w.corrections || w.corrections[cid] || Withheld(w, cid) then w
    else w.(resolved := w.resolved + {cid}, corrections := w.corrections[cid := markOk])
  }

  /** A sweep's listing keeps what was said about a target only when some listed agent has it for an id. */
  function Relist(w: World, node: string, live: set<Resident>): World {
    w.(refusals := map x | x in w.refusals && !Forgets(Relisted(node, live), x) :: w.refusals[x],
       notices := w.notices + [Relisted(node, live)])
  }

  // ----- runs -----

  datatype Step =
    | File(id: int, action: Action)
    | FileNote(cid: int)
    | DrainRow(id: int, node: string, env: Env)
    | Start(node: string, ok: bool)
    | Correct(cid: int, markOk: bool)
    | Listed(node: string, live: set<Resident>)

  predicate Possible(s: Step) {
    s.DrainRow? ==> s.env.execution.Valid()
  }

  function Next(w: World, s: Step): World {
    match s
    case File(id, a) => Enqueue(w, id, a)
    case FileNote(cid) => Note(w, cid)
    case DrainRow(id, node, e) => Drain(w, id, node, e)
    case Start(node, ok) => Restart(w, node, ok)
    case Correct(cid, ok) => Apply(w, cid, ok)
    case Listed(node, live) => Relist(w, node, live)
  }

  function After(w: World, steps: seq<Step>): World {
    if steps == [] then w else Next(After(w, steps[..|steps| - 1]), steps[|steps| - 1])
  }

  // ----- the daemon as it runs -----

  class Daemon {
    const self: string
    var rows: map<int, Action>
    var corrections: map<int, bool>
    var refusals: map<Whom, Said>
    ghost var lives: map<int, Life>
    ghost var runs: seq<Run>
    ghost var notices: seq<Notice>
    ghost var resolved: set<int>

    ghost function State(): World
      reads this
    {
      World(rows, corrections, refusals, lives, runs, notices, resolved)
    }

    constructor (self: string, w: World)
      ensures this.self == self && State() == w
    {
      this.self := self;
      rows, corrections, refusals := w.rows, w.corrections, w.refusals;
      lives, runs, notices, resolved := w.lives, w.runs, w.notices, w.resolved;
    }

    /** Guarded on pending and on the node, so two claims cannot both win. */
    method ClaimAction(id: int, ok: bool) returns (claimed: bool)
      modifies `rows
      ensures claimed == (ok && Claimable(old(State()), id, self))
      ensures rows == if claimed then old(rows)[id := Claimed(old(rows)[id])] else old(rows)
    {
      claimed := ok && id in rows && rows[id].status.Pending? && rows[id].node == self;
      if claimed {
        var a := rows[id];
        rows := rows[id := a.(status := Running, attempts := a.attempts + 1)];
      }
    }

    /** Guarded on running, so it only ever advances a claim. */
    method FinishAction(id: int, s: Status, ok: bool)
      requires id in rows && Terminal(s)
      modifies `rows
      ensures rows == if ok && old(rows)[id].status.Running? then old(rows)[id := old(rows)[id].(status := s)] else old(rows)
    {
      if ok && rows[id].status.Running? {
        rows := rows[id := rows[id].(status := s)];
      }
    }

    method ReleaseAction(id: int, ok: bool) returns (released: bool)
      requires id in rows
      modifies `rows
      ensures released == (ok && old(rows)[id].status.Running?)
      ensures rows == if released then old(rows)[id := old(rows)[id].(status := Pending)] else old(rows)
    {
      released := ok && rows[id].status.Running?;
      if released {
        rows := rows[id := rows[id].(status := Pending)];
      }
    }

    /** The failed outcome and the removal of the correction, in one transaction. */
    method WithdrawAction(id: int, ok: bool) returns (recorded: bool)
      requires id in rows
      modifies `rows, `corrections
      ensures recorded == (ok && old(rows)[id].status.Running?)
      ensures rows == if recorded then old(rows)[id := old(rows)[id].(status := Failed)] else old(rows)
      ensures corrections == Remaining(old(corrections), old(rows)[id].correction, recorded)
    {
      recorded := ok && rows[id].status.Running?;
      if recorded {
        var cid := rows[id].correction;
        rows := rows[id := rows[id].(status := Failed)];
        if cid != 0 && cid in corrections && !corrections[cid] {
          corrections := corrections - {cid};
        }
      }
    }

    method EscalateRefused(id: int, text: string, auditOk: bool)
      requires id in rows
      modifies `refusals, `notices
      ensures State() == Tell(old(State()), id, rows[id], Some(text), auditOk)
    {
      var whom, said := Whom(rows[id].node, rows[id].target), Said(rows[id].kind, text);
      if whom in refusals && refusals[whom] == said { return; }
      refusals := refusals[whom := said];
      notices := notices + [Escalated(id, whom, said, auditOk)];
    }

    /** The pruning that follows a listing, entry by entry. */
    method ForgetUnlisted(live: set<Resident>)
      modifies `refusals, `notices
      ensures State() == Relist(old(State()), self, live)
    {
      var left := refusals.Keys;
      while left != {}
        invariant left <= refusals.Keys && notices == old(notices)
        invariant refusals == map x | x in old(refusals) && (x in left || !Forgets(Relisted(self, live), x)) :: old(refusals)[x]
        decreases |left|
      {
        var x :| x in left;
        left := left - {x};
        if x.node == self && x.target !in Ids(live) {
          refusals := refusals - {x};
        }
      }
      notices := notices + [Relisted(self, live)];
    }

    /** The executor's own writes: the mark set before keystrokes. */
    method Execute(id: int, e: Env)
      requires id in rows && e.execution.Valid()
      modifies `rows, `lives, `runs
      ensures rows == old(rows)[id := Executed(old(rows)[id], e.execution)]
      ensures lives == old(lives)[id := Lived(Live(old(State()), id), e.execution)]
      ensures runs == old(runs) + [Run(id, old(rows)[id].node, e.now)]
    {
      runs := runs + [Run(id, rows[id].node, e.now)];
      lives := lives[id := Lived(Live(State(), id), e.execution)];
      if Marks(e.execution) {
        rows := rows[id := rows[id].(sideEffect := true)];
      }
    }

    /** A refused or closed request: the withdrawal, then word of it when it was recorded and refused. */
    method FinishWithdrawn(id: int, f: Failure, msg: string, e: Env)
      requires id in rows && id in lives && rows[id].status.Running? && WithdrawsCorrection(f)
      modifies `rows, `corrections, `refusals, `lives, `notices
      ensures var a, l := old(rows)[id], old(lives)[id];
              var said := if e.outcomeOk && f.Refused? then Some(msg) else None;
              var v := if !e.outcomeOk then Verdict(a, l, false, false, None)
                       else Verdict(a.(status := Failed), l.(withdrawn := true, refusal := if said.Some? then said else l.refusal), false, true, said);
              State() == Recorded(old(State()), id, v, e)
    {
      var recorded := WithdrawAction(id, e.outcomeOk);
      if recorded {
        lives := lives[id := lives[id].(withdrawn := true, refusal := if f.Refused? then Some(msg) else lives[id].refusal)];
        if f.Refused? {
          EscalateRefused(id, msg, e.auditOk);
        }
      }
    }

    /** What follows an executor that returned. */
    method Conclude(id: int, outcome: Outcome, e: Env)
      requires id in rows && id in lives && rows[id].status.Running?
      modifies `rows, `corrections, `refusals, `lives, `notices
      ensures State() == Recorded(old(State()), id, Settled(old(rows)[id], old(lives)[id], outcome, e.outcomeOk).(ran := false), e)
    {
      var attempts := rows[id].attempts;
      if outcome.Landed? {
        FinishAction(id, Done, e.outcomeOk);
        return;
      }
      if !outcome.failure.Transient? || attempts >= MAX_ATTEMPTS {
        var msg := Message(outcome.text, attempts);
        if WithdrawsCorrection(outcome.failure) {
          FinishWithdrawn(id, outcome.failure, msg, e);
          return;
        }
        FinishAction(id, Failed, e.outcomeOk);
        return;
      }
      var released := ReleaseAction(id, e.outcomeOk);
      if released {
        lives := lives[id := lives[id].(releases := lives[id].releases + 1)];
      }
    }

    /** Takes a claimed row to an outcome, a release, or a claim nobody finished. */
    method RunClaimed(id: int, e: Env)
      requires e.execution.Valid() && id in rows && id in lives && rows[id].status.Running?
      modifies `rows, `corrections, `refusals, `lives, `runs, `notices
      ensures State() == Recorded(old(State()), id, JudgeClaimed(old(rows)[id], old(lives)[id], e), e)
    {
      if rows[id].kind.Unsupported? {
        FinishAction(id, Failed, e.outcomeOk);
        return;
      }
      var bound := StaleBound(rows[id].kind);
      if bound > 0 && e.now - rows[id].createdAt > bound {
        FinishAction(id, Failed, e.outcomeOk);
        return;
      }
      Execute(id, e);
      if !e.execution.Died? {
        label executed:
        Conclude(id, Result(e.execution), e);
        RecordedOver(old(State()), old@executed(State()), id,
                     Settled(old@executed(rows)[id], old@executed(lives)[id], Result(e.execution), e.outcomeOk), e);
      }
    }

    /** Claims one row and runs it. */
    method RunAgentAction(id: int, e: Env)
      requires e.execution.Valid() && (id in rows ==> id in lives)
      modifies `rows, `corrections, `refusals, `lives, `runs, `notices
      ensures State() == Drain(old(State()), id, self, e)
    {
      var claimed := ClaimAction(id, e.claimOk);
      if claimed && !e.diesClaimed {
        RunClaimed(id, e);
      }
    }

    /** Drains the listed rows in order. */
    method ProcessAgentActions(ids: seq<int>, envs: seq<Env>)
      requires |ids| == |envs| && rows.Keys <= lives.Keys
      requires forall k :: 0 <= k < |envs| ==> envs[k].execution.Valid()
      modifies `rows, `corrections, `refusals, `lives, `runs, `notices
      ensures State() == DrainAll(old(State()), ids, self, envs)
    {
      for k := 0 to |ids|
        invariant rows.Keys <= lives.Keys
        invariant State() == DrainAll(old(State()), ids[..k], self, envs[..k])
      {
        assert ids[..k + 1][..k] == ids[..k] && envs[..k + 1][..k] == envs[..k];
        RunAgentAction(ids[k], envs[k]);
      }
      assert ids[..|ids|] == ids && envs[..|ids|] == envs;
    }
  }
}
