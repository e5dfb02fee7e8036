/**
 The unattended task hand-out: checklist files edited by several processes, a durable ledger of
 hand-outs with a counter per item, the in-memory clock and claims, and the one delivery the daemon's
 loop has under way. Times are seconds.
 */
module HandOut {
  import opened Wrappers
  import opened IdleClock
  import TaskFile
  import Pairing

  const MAX_HANDOUTS: nat := 3
  const MAX_RESTAMPS: nat := 3
  const STALE_TTL := 3600
  const MAX_DECLARED_WAIT := 7200

  datatype Key = Key(path: string, text: string)

  /** A ledger row: one hand-out herdr accepted and nobody settled. */
  datatype Row = Row(
    id: nat, key: Key, index: nat, agent: AgentId, terminal: string, reservedAt: int, restamps: nat, confirmed: bool)

  /** A delivery between the mark it won and its send; `task` is the line it marked. */
  datatype Flight = Flight(agent: AgentId, terminal: string, key: Key, index: nat, task: nat)

  /** What happened to tasks, in order. `Opened` is a line that came to be open, by whoever's hand. */
  datatype Event =
    | Won(flight: Flight)
    | Sent(flight: Flight)
    | Failed(flight: Flight)
    | Dropped(flight: Flight)
    | Opened(task: nat)
    | Told(key: Key)

  datatype World = World(
    lists: map<string, seq<TaskFile.Task>>,
    rows: map<nat, Row>,
    issued: nat,
    attempts: map<Key, nat>,
    clock: Clock,
    flight: Option<Flight>,
    ticks: seq<Tick>,
    log: seq<Event>)

  function Attempts(w: World, key: Key): nat {
    if key in w.attempts then w.attempts[key] else 0
  }

  function Ticked(w: World, ts: seq<Tick>): World {
    w.(clock := Apply(w.clock, ts), ticks := w.ticks + ts)
  }

  function Logged(w: World, e: Event): World {
    w.(log := w.log + [e])
  }

  // ----- one sweep's view -----

  /** The writes and reads of the reclaim for one row; `seen` is the list as that pass read it. */
  datatype RowEnv = RowEnv(
    seen: Option<seq<TaskFile.Task>>, counterOk: bool, mutateOk: bool, deleteOk: bool, clearOk: bool, auditOk: bool)

  datatype View = View(
    now: int, agents: seq<Agent>, background: set<AgentId>, waits: map<AgentId, int>, envs: map<nat, RowEnv>)

  function EnvOf(v: View, r: Row): RowEnv {
    if r.id in v.envs then v.envs[r.id] else RowEnv(None, false, false, false, false, false)
  }

  /** Terminal ids tell a recycled pane apart; an unknown one matches anything. */
  predicate SameTenant(a: Agent, r: Row) {
    a.terminal == "" || r.terminal == "" || a.terminal == r.terminal
  }

  /** The agent the task was handed to is still there. */
  predicate Present(v: View, r: Row) {
    Find(v.agents, r.agent).Some? && SameTenant(Find(v.agents, r.agent).value, r)
  }

  predicate Waiting(v: View, r: Row) {
    r.agent in v.waits && v.now < v.waits[r.agent]
  }

  predicate Working(v: View, r: Row) {
    Find(v.agents, r.agent).Some? && !Parked(Find(v.agents, r.agent).value.status)
  }

  function Age(v: View, r: Row): int {
    v.now - r.reservedAt
  }

  datatype Verdict = Retire | GiveUp | Hold | Escalate | Return

  function Judge(r: Row, v: View, attempts: nat): Verdict {
    var e := EnvOf(v, r);
    if r.confirmed then Retire
    else if Age(v, r) > STALE_TTL then
      if Present(v, r) && Waiting(v, r) && Age(v, r) <= STALE_TTL + MAX_DECLARED_WAIT then Hold else GiveUp
    else if e.seen.None? then Hold
    else if !TaskFile.InProgress(e.seen.value, r.key.text) then Retire
    else if Present(v, r) && Working(v, r) then Hold
    else if Present(v, r) && r.agent in v.background then Hold
    else if Present(v, r) && Waiting(v, r) then Hold
    else if Age(v, r) <= RECLAIM_GRACE then Hold
    else if !e.counterOk then Hold
    else if attempts >= MAX_HANDOUTS then Escalate
    else Return
  }

  // ----- settling one row -----

  function DeleteRow(w: World, r: Row, ok: bool): World {
    if ok then w.(rows := w.rows - {r.id}) else w
  }

  function ClearCounter(w: World, key: Key, ok: bool): World {
    if ok then w.(attempts := w.attempts - {key}) else w
  }

  /** The pairing dies with the hand-out it was made for, and only then. */
  function Forgo(w: World, r: Row): World {
    if r.agent in w.clock.claims && w.clock.claims[r.agent].path == r.key.path && w.clock.claims[r.agent].text == r.key.text
    then Ticked(w, [Unclaimed(r.agent)]) else w
  }

  function RetireRow(w: World, r: Row, e: RowEnv): World {
    if e.deleteOk then ClearCounter(DeleteRow(w, r, true), r.key, e.clearOk) else w
  }

  function EscalateRow(w: World, r: Row, e: RowEnv): World {
    var settled := ClearCounter(Forgo(DeleteRow(w, r, e.deleteOk), r), r.key, e.clearOk);
    if e.auditOk then Logged(settled, Told(r.key)) else settled
  }

  /** The place a reclaim would reopen now, 0 when it is refused or the file cannot be written. */
  ghost function ReclaimAt(w: World, r: Row, e: RowEnv): (k: nat)
    ensures k != 0 ==> r.key.path in w.lists && TaskFile.IsInProgress(w.lists[r.key.path], k, r.key.text)
  {
    if e.mutateOk && r.key.path in w.lists then TaskFile.ReclaimPlace(w.lists[r.key.path], r.index, r.key.text) else 0
  }

  /** Writes one mark and records when a line came to be open. */
  function Mark(w: World, path: string, k: nat, mark: char): World
    requires path in w.lists && 1 <= k <= |w.lists[path]|
  {
    var u := w.(lists := w.lists[path := TaskFile.WithMark(w.lists[path], k, mark)]);
    if mark == TaskFile.OPEN then Logged(u, Opened(w.lists[path][k - 1].id)) else u
  }

  ghost function ReturnRow(w: World, r: Row, e: RowEnv): World {
    var k := ReclaimAt(w, r, e);
    if k == 0 then w else DeleteRow(Forgo(Mark(w, r.key.path, k, TaskFile.OPEN), r), r, e.deleteOk)
  }

  ghost function SettleRow(w: World, r: Row, v: View): World {
    match Judge(r, v, Attempts(w, r.key))
    case Retire | GiveUp => RetireRow(w, r, EnvOf(v, r))
    case Hold => w
    case Escalate => EscalateRow(w, r, EnvOf(v, r))
    case Return => ReturnRow(w, r, EnvOf(v, r))
  }

  /** The row stays open by choice, so its agent is given nothing else this sweep. */
  ghost predicate Awaits(w: World, r: Row, v: View) {
    var j := Judge(r, v, Attempts(w, r.key));
    j.Hold? || (j.Return? && ReclaimAt(w, r, EnvOf(v, r)) == 0)
  }

  datatype Pass = Pass(world: World, awaiting: set<AgentId>)

  ghost function ReclaimAll(w: World, ledger: seq<Row>, v: View): Pass {
    if ledger == [] then Pass(w, {})
    else
      var p, r := ReclaimAll(w, ledger[..|ledger| - 1], v), ledger[|ledger| - 1];
      Pass(SettleRow(p.world, r, v), p.awaiting + if Awaits(p.world, r, v) then {r.agent} else {})
  }

  /** The ledger in the order its rows were issued. */
  function Ledger(rows: map<nat, Row>, issued: nat): seq<Row> {
    if issued == 0 then [] else Ledger(rows, issued - 1) + if issued - 1 in rows then [rows[issued - 1]] else []
  }

  /** A sweep; `standDown` is an active or unreadable kill switch. */
  ghost function Sweep(w: World, v: View, standDown: bool, ledgerOk: bool, sources: seq<Pairing.Source>): World {
    var noted := Ticked(w, [Listing(v.agents, v.now)]);
    if standDown || !ledgerOk then noted
    else
      var p := ReclaimAll(noted, Ledger(noted.rows, noted.issued), v);
      Ticked(p.world, Pairing.PairSources(p.world.clock, sources, v.agents, p.awaiting, v.now))
  }

  // ----- one delivery -----

  /** Marks the first open task of that text; a refusal means nothing is sent. */
  function Reserve(w: World, agent: AgentId, terminal: string, key: Key, ok: bool): World {
    var k := if ok && key.path in w.lists then TaskFile.FirstOpen(w.lists[key.path], key.text) else 0;
    if k == 0 then Ticked(w, [Unclaimed(agent)])
    else
      var f := Flight(agent, terminal, key, k, w.lists[key.path][k - 1].id);
      Logged(Mark(w, key.path, k, TaskFile.IN_PROGRESS).(flight := Some(f)), Won(f))
  }

  function Rollback(w: World, f: Flight, ok: bool): World {
    if ok && f.key.path in w.lists && TaskFile.IsInProgress(w.lists[f.key.path], f.index, f.key.text)
    then Mark(w, f.key.path, f.index, TaskFile.OPEN) else w
  }

  /** How a delivery ended: nothing typed, keystrokes refused, or keystrokes accepted. */
  datatype Ending =
    | Abandoned(mutateOk: bool)
    | SendFailed(countOk: bool, auditOk: bool, clearOk: bool, mutateOk: bool)
    | Accepted(now: int, recordOk: bool)

  function Bumped(w: World, key: Key): World {
    w.(attempts := w.attempts[key := Attempts(w, key) + 1])
  }

  /** Counts a refused send; at the ceiling the item stays marked once the operator is told. */
  function Refuse(w: World, f: Flight, e: Ending): World
    requires e.SendFailed?
  {
    var counted := if e.countOk then Bumped(w, f.key) else w;
    if e.countOk && Attempts(counted, f.key) >= MAX_HANDOUTS && e.auditOk
    then Logged(ClearCounter(counted, f.key, e.clearOk), Told(f.key))
    else Rollback(counted, f, e.mutateOk)
  }

  function RecordRow(w: World, f: Flight, now: int): World {
    var r := Row(w.issued, f.key, f.index, f.agent, f.terminal, now, 0, false);
    Bumped(w, f.key).(rows := w.rows[w.issued := r], issued := w.issued + 1)
  }

  function Deliver(w: World, e: Ending): World
    requires w.flight.Some?
  {
    var f, landed := w.flight.value, w.(flight := None);
    match e
    case Abandoned(ok) => Ticked(Rollback(Logged(landed, Dropped(f)), f, ok), [Unclaimed(f.agent)])
    case SendFailed(_, _, _, _) => Ticked(Refuse(Logged(landed, Failed(f)), f, e), [Unclaimed(f.agent)])
    case Accepted(now, recordOk) =>
      var sent := Ticked(Logged(landed, Sent(f)), [Landed(f.agent)]);
      if recordOk then RecordRow(sent, f, now) else sent
  }

  // ----- everybody else -----

  predicate Confirms(r: Row, agent: AgentId, terminal: string) {
    r.agent == agent && (r.terminal == "" || terminal == "" || r.terminal == terminal)
  }

  /** The agent was seen working: its spell and claim end, and its hand-outs are confirmed. */
  function Resume(w: World, agent: AgentId, terminal: string, ok: bool): World {
    var u := Ticked(w, [Ended(agent)]);
    if !ok then u
    else u.(rows := map id | id in w.rows :: if Confirms(w.rows[id], agent, terminal) then w.rows[id].(confirmed := true) else w.rows[id])
  }

  /** A daemon start forgets the memory and gives unconfirmed rows a new grace window, a few times. */
  function Restart(w: World, now: int, ok: bool): World {
    var u := Ticked(w, [Forgotten]).(flight := None);
    var v := if w.flight.Some? then Logged(u, Dropped(w.flight.value)) else u;
    if !ok then v
    else v.(rows := map id | id in w.rows ::
                      if !w.rows[id].confirmed && w.rows[id].restamps < MAX_RESTAMPS
                      then w.rows[id].(reservedAt := now, restamps := w.rows[id].restamps + 1) else w.rows[id])
  }

  function OpenIds(tasks: seq<TaskFile.Task>): set<nat> {
    set t | t in tasks && t.mark == TaskFile.OPEN :: t.id
  }

  function NewlyOpen(was: set<nat>, tasks: seq<TaskFile.Task>): seq<Event> {
    if tasks == [] then []
    else NewlyOpen(was, tasks[..|tasks| - 1]) +
         var t := tasks[|tasks| - 1]; if t.mark == TaskFile.OPEN && t.id !in was then [Opened(t.id)] else []
  }

  function ListOf(w: World, path: string): seq<TaskFile.Task> {
    if path in w.lists then w.lists[path] else []
  }

  /** An operator or an agent rewrites a list: marks, texts, order, lines added and removed. */
  function Rewrite(w: World, path: string, tasks: seq<TaskFile.Task>): World {
    w.(lists := w.lists[path := tasks], log := w.log + NewlyOpen(OpenIds(ListOf(w, path)), tasks))
  }

  // ----- runs -----

  /**
   `HandedElsewhere` is a generated task a front end hands out itself, marked by an edit of its own and
   filed before its send; `Withdrawn` takes such a row back when the send failed.
   */
  datatype Step =
    | Swept(view: View, standDown: bool, ledgerOk: bool, sources: seq<Pairing.Source>)
    | Reserved(agent: AgentId, terminal: string, key: Key, ok: bool)
    | Concluded(ending: Ending)
    | Resumed(agent: AgentId, terminal: string, ok: bool)
    | Started(now: int, ok: bool)
    | Edited(path: string, tasks: seq<TaskFile.Task>)
    | HandedElsewhere(flight: Flight, now: int)
    | Withdrawn(id: nat)

  predicate DistinctIds(tasks: seq<TaskFile.Task>) {
    forall i, j :: 0 <= i < j < |tasks| ==> tasks[i].id != tasks[j].id
  }

  /** A line belongs to one list; listings name an agent once. */
  predicate Possible(w: World, s: Step) {
    && (s.Edited? ==> DistinctIds(s.tasks)
                      && forall p, t, u :: p in w.lists && p != s.path && t in w.lists[p] && u in s.tasks ==> t.id != u.id)
    && (s.Swept? ==> Unique(s.view.agents))
  }

  /** The loop is serial: while a delivery is under way only other processes act, or the daemon dies. */
  ghost function Act(w: World, s: Step): World {
    match s
    case Swept(v, standDown, ledgerOk, sources) => if w.flight.Some? then w else Sweep(w, v, standDown, ledgerOk, sources)
    case Reserved(agent, terminal, key, ok) => if w.flight.Some? then w else Reserve(w, agent, terminal, key, ok)
    case Concluded(e) => if w.flight.None? then w else Deliver(w, e)
    case Resumed(agent, terminal, ok) => if w.flight.Some? then w else Resume(w, agent, terminal, ok)
    case Started(now, ok) => Restart(w, now, ok)
    case Edited(path, tasks) => Rewrite(w, path, tasks)
    case HandedElsewhere(f, now) => RecordRow(w, f, now)
    case Withdrawn(id) => w.(rows := w.rows - {id})
  }

  const EMPTY := World(map[], map[], 0, map[], STOPPED, None, [], [])

  ghost function Reached(w: World, steps: seq<Step>): World {
    if steps == [] then w else Act(Reached(w, steps[..|steps| - 1]), steps[|steps| - 1])
  }

  ghost predicate AllPossible(w: World, steps: seq<Step>) {
    forall k :: 0 <= k < |steps| ==> Possible(Reached(w, steps[..k]), steps[k])
  }
}
