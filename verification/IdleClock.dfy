/**
 The in-memory clock of the unattended hand-out: since when each agent has been parked, how long the
 poll backs off before driving it again, and the task it is promised. Times are seconds.
 */
module IdleClock {
  import opened Wrappers

  const AUTO_SEND_IDLE_AFTER := 60
  const RECLAIM_GRACE := 120
  const CLAIM_TTL := RECLAIM_GRACE
  const MAX_REDRIVE_BACKOFF := 900

  /** Agent ids are numbered in the order of their spellings. */
  type AgentId = nat

  datatype Agent = Agent(id: AgentId, pane: string, terminal: string, status: string)

  predicate Parked(status: string) {
    status == "idle" || status == "done"
  }

  datatype IdleMark = IdleMark(pane: string, terminal: string, at: int)

  datatype Redrive = Redrive(misses: nat, nextAt: int)

  /** A pairing made by the poll, never written to the list. */
  datatype Claim = Claim(path: string, text: string, at: int)

  datatype Clock = Clock(idleSince: map<AgentId, IdleMark>, redrive: map<AgentId, Redrive>, claims: map<AgentId, Claim>)

  const STOPPED := Clock(map[], map[], map[])

  // ----- one listing -----

  predicate SameSpell(c: Clock, a: Agent) {
    a.id in c.idleSince && c.idleSince[a.id].pane == a.pane && c.idleSince[a.id].terminal == a.terminal
  }

  function NoteOne(c: Clock, a: Agent, now: int): Clock {
    if !Parked(a.status) then Clock(c.idleSince - {a.id}, c.redrive - {a.id}, c.claims - {a.id})
    else if SameSpell(c, a) then c
    else Clock(c.idleSince[a.id := IdleMark(a.pane, a.terminal, now)], c.redrive - {a.id}, c.claims - {a.id})
  }

  function NoteAll(c: Clock, agents: seq<Agent>, now: int): Clock {
    if agents == [] then c else NoteOne(NoteAll(c, agents[..|agents| - 1], now), agents[|agents| - 1], now)
  }

  function Ids(agents: seq<Agent>): set<AgentId> {
    set a | a in agents :: a.id
  }

  function Prune(c: Clock, live: set<AgentId>, now: int): Clock {
    Clock(map id | id in c.idleSince && id in live :: c.idleSince[id],
          map id | id in c.redrive && id in live :: c.redrive[id],
          map id | id in c.claims && id in live && now - c.claims[id].at <= CLAIM_TTL :: c.claims[id])
  }

  function Note(c: Clock, agents: seq<Agent>, now: int): Clock {
    Prune(NoteAll(c, agents, now), Ids(agents), now)
  }

  // ----- the redrive budget -----

  function Pow2(n: nat): nat {
    if n == 0 then 1 else 2 * Pow2(n - 1)
  }

  /** The wait after the n-th drive in a row: 1, 2, 4, 8 minutes, then the cap. */
  function Delay(n: nat): int {
    if n == 0 then AUTO_SEND_IDLE_AFTER
    else if AUTO_SEND_IDLE_AFTER * Pow2(n - 1) < MAX_REDRIVE_BACKOFF then AUTO_SEND_IDLE_AFTER * Pow2(n - 1)
    else MAX_REDRIVE_BACKOFF
  }

  method PollRedriveDelay(n: nat) returns (d: int)
    ensures d == Delay(n)
  {
    d := AUTO_SEND_IDLE_AFTER;
    var i := 1;
    while i < n && d < MAX_REDRIVE_BACKOFF
      invariant 1 <= i && (if n == 0 then i == 1 else i <= n)
      invariant d == AUTO_SEND_IDLE_AFTER * Pow2(i - 1)
      decreases n - i
    {
      d, i := d * 2, i + 1;
    }
    if i < n { Pow2Grows(i - 1, n - 1); }
    if d > MAX_REDRIVE_BACKOFF { d := MAX_REDRIVE_BACKOFF; }
  }

  lemma {:induction false} Pow2Grows(m: nat, n: nat)
    requires m <= n
    ensures Pow2(m) <= Pow2(n)
  {
    if m < n { Pow2Grows(m, n - 1); }
  }

  function Misses(c: Clock, id: AgentId): nat {
    if id in c.redrive then c.redrive[id].misses else 0
  }

  /** The poll pairs an agent with a task and arms the next step of its backoff. */
  function Drive(c: Clock, id: AgentId, claim: Claim, now: int): Clock {
    var n := Misses(c, id) + 1;
    Clock(c.idleSince, c.redrive[id := Redrive(n, now + Delay(n))], c.claims[id := claim])
  }

  predicate IdleLongEnough(c: Clock, a: Agent, now: int) {
    SameSpell(c, a) && now - c.idleSince[a.id].at > AUTO_SEND_IDLE_AFTER
  }

  predicate Deferred(c: Clock, id: AgentId, now: int) {
    id in c.redrive && now < c.redrive[id].nextAt
  }

  /** The gates of the poll that this clock answers. */
  predicate Ready(c: Clock, a: Agent, now: int) {
    Parked(a.status) && IdleLongEnough(c, a, now) && !Deferred(c, a.id, now) && a.id !in c.claims
  }

  function DropClaim(c: Clock, id: AgentId): Clock {
    c.(claims := c.claims - {id})
  }

  function ClearRedrive(c: Clock, id: AgentId): Clock {
    c.(redrive := c.redrive - {id})
  }

  /** The agent was seen working, or its pane now hosts another terminal. */
  function EndSpell(c: Clock, id: AgentId): Clock {
    c.(idleSince := c.idleSince - {id}, claims := c.claims - {id})
  }

  // ----- runs -----

  datatype Tick =
    | Listing(agents: seq<Agent>, now: int)
    | Drove(agent: Agent, claim: Claim, now: int)
    | Unclaimed(id: AgentId)
    | Landed(id: AgentId)
    | Ended(id: AgentId)
    | Forgotten

  function Next(c: Clock, t: Tick): Clock {
    match t
    case Listing(agents, now) => Note(c, agents, now)
    case Drove(a, claim, now) => Drive(c, a.id, claim, now)
    case Unclaimed(id) => DropClaim(c, id)
    case Landed(id) => ClearRedrive(c, id)
    case Ended(id) => EndSpell(c, id)
    case Forgotten => STOPPED
  }

  function After(ticks: seq<Tick>): Clock {
    if ticks == [] then STOPPED else Next(After(ticks[..|ticks| - 1]), ticks[|ticks| - 1])
  }

  predicate Unique(agents: seq<Agent>) {
    forall i, j :: 0 <= i < j < |agents| ==> agents[i].id != agents[j].id
  }

  /** Listings name each agent once, and the poll drives only the agents its gates let through. */
  predicate Legal(ticks: seq<Tick>) {
    forall k :: 0 <= k < |ticks| ==>
      && (ticks[k].Listing? ==> Unique(ticks[k].agents))
      && (ticks[k].Drove? ==> Ready(After(ticks[..k]), ticks[k].agent, ticks[k].now))
  }

  lemma LegalPrefix(ticks: seq<Tick>, n: nat)
    requires Legal(ticks) && n <= |ticks|
    ensures Legal(ticks[..n])
  {
    forall k | 0 <= k < n ensures ticks[..n][..k] == ticks[..k] {}
  }

  function Find(agents: seq<Agent>, id: AgentId): Option<Agent> {
    if agents == [] then None
    else if agents[|agents| - 1].id == id then Some(agents[|agents| - 1])
    else Find(agents[..|agents| - 1], id)
  }

  lemma {:induction false} FindIsListed(agents: seq<Agent>, id: AgentId)
    ensures id in Ids(agents) <==> Find(agents, id).Some?
    ensures Find(agents, id).Some? ==> Find(agents, id).value in agents && Find(agents, id).value.id == id
  {
    if agents != [] {
      FindIsListed(agents[..|agents| - 1], id);
      assert agents == agents[..|agents| - 1] + [agents[|agents| - 1]];
    }
  }

  predicate SameAt(c: Clock, d: Clock, id: AgentId) {
    && (id in c.idleSince <==> id in d.idleSince) && (id in c.idleSince ==> c.idleSince[id] == d.idleSince[id])
    && (id in c.redrive <==> id in d.redrive) && (id in c.redrive ==> c.redrive[id] == d.redrive[id])
    && (id in c.claims <==> id in d.claims) && (id in c.claims ==> c.claims[id] == d.claims[id])
  }

  /** A listing treats every agent by its own line in it. */
  lemma {:induction false} NotedByItsOwnLine(c: Clock, agents: seq<Agent>, now: int, id: AgentId)
    requires Unique(agents)
    ensures Find(agents, id).None? ==> SameAt(NoteAll(c, agents, now), c, id)
    ensures Find(agents, id).Some? ==> SameAt(NoteAll(c, agents, now), NoteOne(c, Find(agents, id).value, now), id)
  {
    if agents != [] {
      var front := agents[..|agents| - 1];
      NotedByItsOwnLine(c, front, now, id);
      FindIsListed(front, id);
      assert agents[|agents| - 1].id == id ==> id !in Ids(front);
    }
  }

  predicate ListedAs(agents: seq<Agent>, id: AgentId, pane: string, terminal: string) {
    exists k :: 0 <= k < |agents| && agents[k].id == id && Parked(agents[k].status)
                && agents[k].pane == pane && agents[k].terminal == terminal
  }

  /** What a listing leaves of an agent's spell: gone, begun by it, or seen to go on. */
  lemma ListingKeepsSpell(c: Clock, agents: seq<Agent>, now: int, id: AgentId)
    requires Unique(agents) && id in Note(c, agents, now).idleSince
    ensures var m := Note(c, agents, now).idleSince[id];
            ListedAs(agents, id, m.pane, m.terminal) && (m.at == now || (id in c.idleSince && c.idleSince[id] == m))
  {
    NotedByItsOwnLine(c, agents, now, id);
    FindIsListed(agents, id);
    var a := Find(agents, id).value;
    var k :| 0 <= k < |agents| && agents[k] == a;
  }

  /** A claim survives a listing only while its agent stays in the spell it was made for, and not past its age. */
  lemma ListingKeepsClaim(c: Clock, agents: seq<Agent>, now: int, id: AgentId)
    requires Unique(agents)
    ensures id in Note(c, agents, now).claims <==>
              && id in c.claims && now - c.claims[id].at <= CLAIM_TTL && id in c.idleSince
              && ListedAs(agents, id, c.idleSince[id].pane, c.idleSince[id].terminal)
    ensures id in Note(c, agents, now).claims ==> Note(c, agents, now).claims[id] == c.claims[id]
  {
    NotedByItsOwnLine(c, agents, now, id);
    FindIsListed(agents, id);
    FindIsTheOne(agents, id);
  }

  lemma {:induction false} FindIsTheOne(agents: seq<Agent>, id: AgentId)
    requires Unique(agents)
    ensures forall k :: 0 <= k < |agents| && agents[k].id == id ==> Find(agents, id) == Some(agents[k])
    ensures Find(agents, id).Some? ==> exists k :: 0 <= k < |agents| && agents[k] == Find(agents, id).value && agents[k].id == id
  {
    if agents != [] {
      var n := |agents| - 1;
      FindIsTheOne(agents[..n], id);
      forall k | 0 <= k < |agents| && agents[k].id == id ensures Find(agents, id) == Some(agents[k]) {
        if k < n { assert agents[..n][k] == agents[k]; }
      }
      if Find(agents, id).Some? && agents[n].id != id {
        var k :| 0 <= k < n && agents[..n][k] == Find(agents, id).value;
        assert agents[k] == agents[..n][k];
      }
    }
  }

  /** Where a standing mark was made, and that every listing since has shown the agent parked behind it. */
  lemma {:induction false} MarkHistory(ticks: seq<Tick>, id: AgentId) returns (i: nat)
    requires Legal(ticks) && id in After(ticks).idleSince
    ensures i < |ticks| && ticks[i].Listing? && ticks[i].now == After(ticks).idleSince[id].at
    ensures forall j :: i <= j < |ticks| && ticks[j].Listing? ==>
              ListedAs(ticks[j].agents, id, After(ticks).idleSince[id].pane, After(ticks).idleSince[id].terminal)
  {
    hide Note, ListedAs;
    var n := |ticks| - 1;
    var before, last := ticks[..n], ticks[n];
    LegalPrefix(ticks, n);
    if last.Listing? {
      ListingKeepsSpell(After(before), last.agents, last.now, id);
    }
    if last.Listing? && last.now == After(ticks).idleSince[id].at {
      i := n;
    } else {
      i := MarkHistory(before, id);
    }
  }

  /**
   An agent the poll drives was listed parked on the same pane and terminal by every listing since one
   more than a minute ago.
   */
  lemma DrivenWasParked(ticks: seq<Tick>, k: nat) returns (i: nat)
    requires Legal(ticks) && k < |ticks| && ticks[k].Drove?
    ensures i < k && ticks[i].Listing? && ticks[k].now - ticks[i].now > AUTO_SEND_IDLE_AFTER
    ensures forall j :: i <= j < k && ticks[j].Listing? ==>
              ListedAs(ticks[j].agents, ticks[k].agent.id, ticks[k].agent.pane, ticks[k].agent.terminal)
  {
    hide ListedAs;
    LegalPrefix(ticks, k);
    i := MarkHistory(ticks[..k], ticks[k].agent.id);
  }

  // ----- when a parked agent is idle long enough -----

  /**
   After a listing exactly the agents it shows parked carry a mark: on the pane and terminal it shows,
   and dated now unless a mark of that pane and terminal already stood.
   */
  lemma ListingMarksParked(c: Clock, agents: seq<Agent>, now: int, a: Agent)
    requires Unique(agents)
    ensures var d := Note(c, agents, now);
            (SameSpell(d, a) <==> ListedAs(agents, a.id, a.pane, a.terminal))
            && (ListedAs(agents, a.id, a.pane, a.terminal) ==>
                  d.idleSince[a.id] == if SameSpell(c, a) then c.idleSince[a.id] else IdleMark(a.pane, a.terminal, now))
    ensures a.id in Note(c, agents, now).idleSince <==> exists k :: 0 <= k < |agents| && agents[k].id == a.id && Parked(agents[k].status)
  {
    NotedByItsOwnLine(c, agents, now, a.id);
    FindIsListed(agents, a.id);
    FindIsTheOne(agents, a.id);
  }

  /** The agent was shown parked, on its pane and terminal, by listing i and every one since, and not seen to stop. */
  ghost predicate Spell(ticks: seq<Tick>, i: nat, a: Agent) {
    && i < |ticks| && ticks[i].Listing?
    && (forall j :: i <= j < |ticks| && ticks[j].Listing? ==> ListedAs(ticks[j].agents, a.id, a.pane, a.terminal))
    && (forall j :: i < j < |ticks| ==> !ticks[j].Forgotten? && (ticks[j].Ended? ==> ticks[j].id != a.id))
  }

  ghost predicate Begins(ticks: seq<Tick>, i: nat, a: Agent) {
    Spell(ticks, i, a) && forall j: nat :: j < i ==> !Spell(ticks, j, a)
  }

  lemma SpellGoesOn(ticks: seq<Tick>, t: Tick, i: nat, a: Agent)
    requires i < |ticks|
    ensures Spell(ticks + [t], i, a) <==>
              Spell(ticks, i, a) && !t.Forgotten? && (t.Ended? ==> t.id != a.id)
              && (t.Listing? ==> ListedAs(t.agents, a.id, a.pane, a.terminal))
  {
    hide ListedAs;
    var all := ticks + [t];
    assert forall j :: 0 <= j < |ticks| ==> all[j] == ticks[j];
    assert all[|ticks|] == t;
  }

  lemma OtherTicksKeepMarks(c: Clock, t: Tick, a: Agent)
    requires !t.Listing?
    ensures SameSpell(Next(c, t), a) <==> SameSpell(c, a) && !t.Forgotten? && (t.Ended? ==> t.id != a.id)
    ensures SameSpell(Next(c, t), a) ==> Next(c, t).idleSince[a.id] == c.idleSince[a.id]
  {
    hide Delay;
  }

  /** A mark stands exactly while a spell lasts, and it is dated by the listing the spell began at. */
  lemma {:induction false} MarkIsSpell(ticks: seq<Tick>, a: Agent) returns (i: nat)
    requires Legal(ticks)
    ensures SameSpell(After(ticks), a) ==>
              i < |ticks| && ticks[i].Listing? && Begins(ticks, i, a) && After(ticks).idleSince[a.id].at == ticks[i].now
    ensures !SameSpell(After(ticks), a) ==> forall j: nat :: !Spell(ticks, j, a)
  {
    hide Note, ListedAs, Spell, Next;
    i := 0;
    if ticks == [] {
      NothingMarked(a);
    } else {
      var n := |ticks| - 1;
      var before, t := ticks[..n], ticks[n];
      LegalPrefix(ticks, n);
      i := MarkIsSpell(before, a);
      assert ticks == before + [t];
      forall j: nat | j < n
        ensures Spell(ticks, j, a) <==>
                  Spell(before, j, a) && !t.Forgotten? && (t.Ended? ==> t.id != a.id)
                  && (t.Listing? ==> ListedAs(t.agents, a.id, a.pane, a.terminal))
      {
        SpellGoesOn(before, t, j, a);
      }
      SpellAtTheEnd(ticks, a);
      if t.Listing? {
        ListingMarksParked(After(before), t.agents, t.now, a);
        NextListing(After(before), t);
        if !SameSpell(After(before), a) { i := n; }
      } else {
        OtherTicksKeepMarks(After(before), t, a);
      }
    }
  }

  lemma NothingMarked(a: Agent)
    ensures !SameSpell(After([]), a) && forall j: nat :: !Spell([], j, a)
  {
  }

  lemma NextListing(c: Clock, t: Tick)
    requires t.Listing?
    ensures Next(c, t) == Note(c, t.agents, t.now)
  {
  }

  lemma SpellAtTheEnd(ticks: seq<Tick>, a: Agent)
    requires ticks != []
    ensures Spell(ticks, |ticks| - 1, a) <==>
              ticks[|ticks| - 1].Listing? && ListedAs(ticks[|ticks| - 1].agents, a.id, a.pane, a.terminal)
    ensures forall j: nat :: j >= |ticks| ==> !Spell(ticks, j, a)
  {
    hide ListedAs;
  }

  /**
   In every legal run an agent is idle long enough if and only if a spell of it that still lasts began at a
   listing more than a minute ago.
   */
  lemma IdleLongEnoughIff(ticks: seq<Tick>, a: Agent, now: int)
    requires Legal(ticks)
    ensures IdleLongEnough(After(ticks), a, now) <==>
              exists i: nat :: Begins(ticks, i, a) && now - ticks[i].now > AUTO_SEND_IDLE_AFTER
  {
    hide After, ListedAs;
    var i := MarkIsSpell(ticks, a);
    if j: nat :| Begins(ticks, j, a) && now - ticks[j].now > AUTO_SEND_IDLE_AFTER {
      OneBeginning(ticks, i, j, a);
    }
  }

  lemma OneBeginning(ticks: seq<Tick>, i: nat, j: nat, a: Agent)
    ensures Begins(ticks, i, a) && Begins(ticks, j, a) ==> i == j
  {
    hide Spell;
  }

  // ----- the backoff over a parked spell -----

  predicate Clears(c: Clock, t: Tick, id: AgentId) {
    (t.Landed? && t.id == id) || t.Forgotten? || (t.Listing? && id !in Note(c, t.agents, t.now).redrive)
  }

  /** How often the agent was driven since its budget was last restored. */
  function DrivesSince(ticks: seq<Tick>, id: AgentId): nat {
    if ticks == [] then 0
    else
      var before, last := ticks[..|ticks| - 1], ticks[|ticks| - 1];
      if last.Drove? && last.agent.id == id then DrivesSince(before, id) + 1
      else if Clears(After(before), last, id) then 0
      else DrivesSince(before, id)
  }

  lemma ListingKeepsRedrive(c: Clock, agents: seq<Agent>, now: int, id: AgentId)
    requires Unique(agents) && id in Note(c, agents, now).redrive
    ensures id in c.redrive && c.redrive[id] == Note(c, agents, now).redrive[id]
  {
    NotedByItsOwnLine(c, agents, now, id);
  }

  /** What one tick does to an agent's budget. */
  lemma StepOfBudget(c: Clock, t: Tick, id: AgentId)
    requires t.Listing? ==> Unique(t.agents)
    ensures var d := Next(c, t);
            if t.Drove? && t.agent.id == id then
              id in d.redrive && d.redrive[id] == Redrive(Misses(c, id) + 1, t.now + Delay(Misses(c, id) + 1))
            else if Clears(c, t, id) then id !in d.redrive
            else (id in d.redrive <==> id in c.redrive) && (id in c.redrive ==> d.redrive[id] == c.redrive[id])
  {
    hide Note, Delay;
    if t.Listing? && id in Note(c, t.agents, t.now).redrive { ListingKeepsRedrive(c, t.agents, t.now, id); }
  }

  /** The budget is a count of drives, and it was armed by the last of them. */
  lemma {:induction false} BudgetCountsDrives(ticks: seq<Tick>, id: AgentId) returns (i: nat)
    requires Legal(ticks)
    ensures id in After(ticks).redrive <==> DrivesSince(ticks, id) > 0
    ensures id in After(ticks).redrive ==>
              && After(ticks).redrive[id].misses == DrivesSince(ticks, id)
              && i < |ticks| && ticks[i].Drove? && ticks[i].agent.id == id
              && After(ticks).redrive[id].nextAt == ticks[i].now + Delay(DrivesSince(ticks, id))
              && forall j :: i < j < |ticks| && ticks[j].Drove? ==> ticks[j].agent.id != id
  {
    hide Note, Delay, Clears, Next;
    i := 0;
    if ticks != [] {
      var n := |ticks| - 1;
      var before, last := ticks[..n], ticks[n];
      LegalPrefix(ticks, n);
      i := BudgetCountsDrives(before, id);
      StepOfBudget(After(before), last, id);
      if last.Drove? && last.agent.id == id {
        i := n;
      }
    }
  }

  /**
   Two drives of one agent with its budget never restored in between are at least the k-th delay
   apart, where k counts the drives up to the earlier one.
   */
  lemma DrivesAreSpaced(ticks: seq<Tick>, i: nat, j: nat)
    requires Legal(ticks) && i < j < |ticks|
    requires ticks[i].Drove? && ticks[j].Drove? && ticks[i].agent.id == ticks[j].agent.id
    requires forall m :: i < m < j && ticks[m].Drove? ==> ticks[m].agent.id != ticks[i].agent.id
    requires DrivesSince(ticks[..j], ticks[i].agent.id) > 0
    ensures ticks[j].now - ticks[i].now >= Delay(DrivesSince(ticks[..j], ticks[i].agent.id))
  {
    hide Delay, DrivesSince, After, Next, IdleLongEnough, Unique;
    LegalPrefix(ticks, j);
    var m := BudgetCountsDrives(ticks[..j], ticks[i].agent.id);
    assert ticks[..j][i].Drove?;
    assert Ready(After(ticks[..j]), ticks[j].agent, ticks[j].now);
  }

  /** A drive raises the count by one; until the budget is restored it stays raised. */
  lemma {:induction false} CountStands(ticks: seq<Tick>, i: nat, id: AgentId)
    requires i < |ticks| && ticks[i].Drove? && ticks[i].agent.id == id
    requires forall m :: i < m < |ticks| ==>
               !(ticks[m].Drove? && ticks[m].agent.id == id) && !Clears(After(ticks[..m]), ticks[m], id)
    ensures DrivesSince(ticks, id) == DrivesSince(ticks[..i], id) + 1
  {
    hide Clears, After;
    var n := |ticks| - 1;
    if i < n {
      var before := ticks[..n];
      forall m | i < m < n ensures before[..m] == ticks[..m] {}
      assert before[..i] == ticks[..i];
      CountStands(before, i, id);
    }
  }

  /** The k-th and the next drive of a parked spell are at least min(2^(k-1), 15) minutes apart. */
  lemma BackoffWidens(ticks: seq<Tick>, i: nat, j: nat, k: nat)
    requires Legal(ticks) && i < j < |ticks|
    requires ticks[i].Drove? && ticks[j].Drove? && ticks[i].agent.id == ticks[j].agent.id
    requires forall m :: i < m < j ==>
               !(ticks[m].Drove? && ticks[m].agent.id == ticks[i].agent.id)
               && !Clears(After(ticks[..m]), ticks[m], ticks[i].agent.id)
    requires k == DrivesSince(ticks[..i], ticks[i].agent.id) + 1
    ensures ticks[j].now - ticks[i].now >= Delay(k)
    ensures Delay(k) == if 60 * Pow2(k - 1) < 900 then 60 * Pow2(k - 1) else 900
  {
    hide Clears, After, DrivesSince;
    var id := ticks[i].agent.id;
    forall m | i < m < j ensures ticks[..j][..m] == ticks[..m] {}
    assert ticks[..j][..i] == ticks[..i];
    CountStands(ticks[..j], i, id);
    DrivesAreSpaced(ticks, i, j);
  }

  /** Clocks driven from a given state; runs start from the stopped clock. */
  function Apply(c: Clock, ticks: seq<Tick>): Clock {
    if ticks == [] then c else Next(Apply(c, ticks[..|ticks| - 1]), ticks[|ticks| - 1])
  }

  lemma {:induction false} ApplyContinues(before: seq<Tick>, more: seq<Tick>)
    ensures After(before + more) == Apply(After(before), more)
  {
    if more == [] {
      assert before + more == before;
    } else {
      var n := |more| - 1;
      ApplyContinues(before, more[..n]);
      assert (before + more)[..|before + more| - 1] == before + more[..n];
    }
  }

  /** The same for a run continued by ticks that are legal from where it stands. */
  predicate LegalFrom(c: Clock, ticks: seq<Tick>) {
    forall k :: 0 <= k < |ticks| ==>
      && (ticks[k].Listing? ==> Unique(ticks[k].agents))
      && (ticks[k].Drove? ==> Ready(Apply(c, ticks[..k]), ticks[k].agent, ticks[k].now))
  }

  lemma LegalContinues(before: seq<Tick>, more: seq<Tick>)
    requires Legal(before) && LegalFrom(After(before), more)
    ensures Legal(before + more)
  {
    hide Ready, Unique, Apply, After;
    var all := before + more;
    forall k | 0 <= k < |all|
      ensures (all[k].Listing? ==> Unique(all[k].agents)) && (all[k].Drove? ==> Ready(After(all[..k]), all[k].agent, all[k].now))
    {
      if k < |before| {
        assert all[..k] == before[..k] && all[k] == before[k];
      } else {
        assert all[..k] == before + more[..k - |before|] && all[k] == more[k - |before|];
        ApplyContinues(before, more[..k - |before|]);
      }
    }
  }

  lemma {:induction false} ApplyConcat(c: Clock, a: seq<Tick>, b: seq<Tick>)
    ensures Apply(c, a + b) == Apply(Apply(c, a), b)
  {
    if b == [] {
      assert a + b == a;
    } else {
      ApplyConcat(c, a, b[..|b| - 1]);
      assert (a + b)[..|a + b| - 1] == a + b[..|b| - 1];
    }
  }

  lemma LegalFromConcat(c: Clock, a: seq<Tick>, b: seq<Tick>)
    requires LegalFrom(c, a) && LegalFrom(Apply(c, a), b)
    ensures LegalFrom(c, a + b)
  {
    hide Ready, Unique;
    var all := a + b;
    forall k | 0 <= k < |all|
      ensures (all[k].Listing? ==> Unique(all[k].agents)) && (all[k].Drove? ==> Ready(Apply(c, all[..k]), all[k].agent, all[k].now))
    {
      if k < |a| {
        assert all[..k] == a[..k] && all[k] == a[k];
      } else {
        assert all[..k] == a + b[..k - |a|] && all[k] == b[k - |a|];
        ApplyConcat(c, a, b[..k - |a|]);
      }
    }
  }

  lemma LegalFromSplit(c: Clock, a: seq<Tick>, b: seq<Tick>)
    requires LegalFrom(c, a + b)
    ensures LegalFrom(Apply(c, a), b)
  {
    hide Ready, Unique, Apply;
    forall k | 0 <= k < |b|
      ensures (b[k].Listing? ==> Unique(b[k].agents)) && (b[k].Drove? ==> Ready(Apply(Apply(c, a), b[..k]), b[k].agent, b[k].now))
    {
      assert (a + b)[|a| + k] == b[k] && (a + b)[..|a| + k] == a + b[..k];
      ApplyConcat(c, a, b[..k]);
    }
  }
}
