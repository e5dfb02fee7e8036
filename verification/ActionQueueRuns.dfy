/**
 Every run of the operator-action queue: any interleaving of filings, drains by any node's daemon,
 crashes, failed writes, restarts, correction passes and sweeps.
 */
module ActionQueueRuns {
  import opened Wrappers
  import opened ActionQueue

  predicate AllPossible(steps: seq<Step>) {
    forall k :: 0 <= k < |steps| ==> Possible(steps[k])
  }

  function Reached(steps: seq<Step>): World {
    After(EMPTY, steps)
  }

  // ----- what a step may do to rows -----

  predicate SameRequest(a: Action, b: Action) {
    a.node == b.node && a.kind == b.kind && a.target == b.target && a.correction == b.correction && a.createdAt == b.createdAt
  }

  /** What a verdict may say about the row it was given. */
  lemma VerdictIsAboutItsRow(a: Action, l: Life, e: Env)
    ensures var v := Judge(a, l, e);
            && SameRequest(a, v.row)
            && (v.ran ==> !a.kind.Unsupported? && !Stale(a, e.now))
            && v.life.requeues == l.requeues
            && (v.withdraws ==> v.row.status.Failed? && v.life.withdrawn)
            && (!v.withdraws ==> v.said.None? && v.life.withdrawn == l.withdrawn)
            && v.life.refusal == (if v.said.Some? then v.said else l.refusal)
  {
  }

  /** One row and its life, as one drain changes them. */
  ghost predicate OnlyTouches(w: World, v: World, id: int) {
    && v.rows.Keys == w.rows.Keys
    && (forall x :: x in w.rows && x != id ==> v.rows[x] == w.rows[x])
    && (forall x :: x != id ==> (x in v.lives <==> x in w.lives) && (x in w.lives ==> v.lives[x] == w.lives[x]))
    && v.resolved == w.resolved
  }

  lemma DrainTouchesOne(w: World, id: int, node: string, e: Env)
    ensures OnlyTouches(w, Drain(w, id, node, e), id)
    ensures id in w.rows ==> SameRequest(w.rows[id], Drain(w, id, node, e).rows[id])
    ensures id in w.rows && !w.rows[id].status.Pending? ==> Drain(w, id, node, e) == w
  {
    hide Judge;
    if id in w.rows { VerdictIsAboutItsRow(w.rows[id], Live(w, id), e); }
  }

  lemma RequestsAreKept(w: World, s: Step, id: int)
    requires id in w.rows
    ensures id in Next(w, s).rows && SameRequest(w.rows[id], Next(w, s).rows[id])
    ensures Terminal(w.rows[id].status) ==> Next(w, s).rows[id] == w.rows[id]
  {
    if s.DrainRow? { DrainTouchesOne(w, s.id, s.node, s.env); }
  }

  /** A terminal outcome is never rewritten, and no row disappears. */
  lemma {:induction false} TerminalIsForever(w: World, steps: seq<Step>, id: int)
    requires id in w.rows && Terminal(w.rows[id].status)
    ensures id in After(w, steps).rows && After(w, steps).rows[id] == w.rows[id]
  {
    if steps != [] {
      TerminalIsForever(w, steps[..|steps| - 1], id);
      RequestsAreKept(After(w, steps[..|steps| - 1]), steps[|steps| - 1], id);
    }
  }

  // ----- the life of one row -----

  /** Every claim is a first one, or follows a release or a requeue; keystrokes are typed at most once. */
  predicate LifeOk(a: Action, l: Life) {
    && a.attempts + (if a.status.Pending? then 1 else 0) == 1 + l.releases + l.requeues
    && l.releases <= MAX_ATTEMPTS - 1
    && l.executions <= a.attempts
    && l.typed <= 1
    && (l.typed == 1 ==> a.sideEffect && !a.status.Pending?)
    && (l.withdrawn ==> a.status.Failed?)
    && (l.refusal.Some? ==> l.withdrawn)
  }

  predicate LivesOk(w: World) {
    w.lives.Keys == w.rows.Keys && forall id :: id in w.rows ==> LifeOk(w.rows[id], w.lives[id])
  }

  lemma VerdictKeepsLife(a: Action, l: Life, e: Env)
    requires LifeOk(a, l) && a.status.Pending? && e.execution.Valid()
    ensures LifeOk(Judge(a, l, e).row, Judge(a, l, e).life)
  {
    hide Message, Stale, StaleBound;
  }

  lemma DrainKeepsLife(w: World, id: int, node: string, e: Env)
    requires LivesOk(w) && e.execution.Valid()
    ensures LivesOk(Drain(w, id, node, e))
  {
    hide Judge, LifeOk;
    DrainTouchesOne(w, id, node, e);
    if Claimable(w, id, node) { VerdictKeepsLife(w.rows[id], w.lives[id], e); }
  }

  lemma StepKeepsLives(w: World, s: Step)
    requires LivesOk(w) && Possible(s)
    ensures LivesOk(Next(w, s))
  {
    hide Drain;
    match s
    case DrainRow(id, node, e) => DrainKeepsLife(w, id, node, e);
    case _ =>
  }

  lemma {:induction false} RunKeepsLives(steps: seq<Step>)
    requires AllPossible(steps)
    ensures LivesOk(Reached(steps))
  {
    if steps != [] {
      RunKeepsLives(steps[..|steps| - 1]);
      StepKeepsLives(Reached(steps[..|steps| - 1]), steps[|steps| - 1]);
    }
  }

  function Starts(steps: seq<Step>, node: string): nat {
    if steps == [] then 0
    else Starts(steps[..|steps| - 1], node) + if steps[|steps| - 1].Start? && steps[|steps| - 1].node == node then 1 else 0
  }

  lemma DrainKeepsRequeues(w: World, id: int, node: string, e: Env)
    requires id in w.lives
    ensures id in Drain(w, id, node, e).lives && Drain(w, id, node, e).lives[id].requeues == w.lives[id].requeues
  {
    hide Judge;
    if Claimable(w, id, node) { VerdictIsAboutItsRow(w.rows[id], w.lives[id], e); }
  }

  lemma {:induction false} RequeuesAreStarts(steps: seq<Step>, id: int)
    requires AllPossible(steps) && id in Reached(steps).rows
    ensures id in Reached(steps).lives
    ensures Reached(steps).lives[id].requeues <= Starts(steps, Reached(steps).rows[id].node)
  {
    hide Drain, LifeOk;
    RunKeepsLives(steps);
    if steps != [] {
      var w, s := Reached(steps[..|steps| - 1]), steps[|steps| - 1];
      RunKeepsLives(steps[..|steps| - 1]);
      if id in w.rows {
        RequeuesAreStarts(steps[..|steps| - 1], id);
        RequestsAreKept(w, s, id);
      }
      if s.DrainRow? {
        DrainTouchesOne(w, s.id, s.node, s.env);
        if s.id == id { DrainKeepsRequeues(w, id, s.node, s.env); }
      }
    }
  }

  /**
   The whole life of a row: at most two releases, one keystroke delivery, and no more executions than
   the attempt ceiling plus the restarts of its own node's daemon.
   */
  lemma {:induction false} EffortIsBounded(steps: seq<Step>, id: int)
    requires AllPossible(steps) && id in Reached(steps).rows
    ensures id in Reached(steps).lives
    ensures Reached(steps).lives[id].releases <= MAX_ATTEMPTS - 1
    ensures Reached(steps).lives[id].typed <= 1
    ensures Reached(steps).lives[id].executions <= Reached(steps).rows[id].attempts
    ensures Reached(steps).rows[id].attempts <= MAX_ATTEMPTS + Starts(steps, Reached(steps).rows[id].node)
  {
    RunKeepsLives(steps);
    RequeuesAreStarts(steps, id);
  }

  // ----- whose row runs, and when -----

  /** An executor only ever ran for its own node's row, of a kind it knows, inside that kind's age. */
  predicate RunsOk(w: World) {
    forall k :: 0 <= k < |w.runs| ==>
      var r := w.runs[k];
      && r.id in w.rows && w.rows[r.id].node == r.node
      && !w.rows[r.id].kind.Unsupported? && !Stale(w.rows[r.id], r.at)
  }

  lemma DrainRunsItsOwn(w: World, id: int, node: string, e: Env)
    ensures var v := Drain(w, id, node, e);
            v.runs == w.runs ||
            (v.runs == w.runs + [Run(id, node, e.now)] && Claimable(w, id, node)
             && !w.rows[id].kind.Unsupported? && !Stale(w.rows[id], e.now))
  {
    hide Judge;
    if Claimable(w, id, node) { VerdictIsAboutItsRow(w.rows[id], Live(w, id), e); }
  }

  lemma {:induction false} OnlyOwnFreshRowsRun(steps: seq<Step>)
    ensures RunsOk(Reached(steps))
  {
    hide Drain;
    if steps != [] {
      var w, s := Reached(steps[..|steps| - 1]), steps[|steps| - 1];
      OnlyOwnFreshRowsRun(steps[..|steps| - 1]);
      forall id | id in w.rows ensures id in Next(w, s).rows && SameRequest(w.rows[id], Next(w, s).rows[id]) {
        RequestsAreKept(w, s, id);
      }
      if s.DrainRow? {
        DrainRunsItsOwn(w, s.id, s.node, s.env);
        DrainTouchesOne(w, s.id, s.node, s.env);
      }
    }
  }

  // ----- a refused reply and its correction -----

  predicate CorrectionOf(w: World, id: int)
    requires id in w.rows && id in w.lives
  {
    var cid := w.rows[id].correction;
    && (!Terminal(w.rows[id].status) ==> cid in w.corrections && !w.corrections[cid] && cid !in w.resolved)
    && (if w.lives[id].withdrawn then cid !in w.corrections && cid !in w.resolved
        else cid in w.corrections && (w.corrections[cid] ==> cid in w.resolved))
  }

  predicate CorrectionsOk(w: World) {
    && LivesOk(w)
    && 0 !in w.corrections
    && (forall id :: id in w.rows && w.rows[id].correction != 0 ==> CorrectionOf(w, id))
    && (forall i, j :: i in w.rows && j in w.rows && i != j && w.rows[i].correction != 0
                       ==> w.rows[i].correction != w.rows[j].correction)
  }

  lemma DrainKeepsWithdrawal(w: World, id: int, node: string, e: Env)
    requires CorrectionsOk(w) && e.execution.Valid()
    ensures CorrectionsOk(Drain(w, id, node, e))
  {
    hide Judge, LifeOk;
    var v := Drain(w, id, node, e);
    DrainKeepsLife(w, id, node, e);
    DrainTouchesOne(w, id, node, e);
    if Claimable(w, id, node) && e.claimOk {
      VerdictIsAboutItsRow(w.rows[id], w.lives[id], e);
      assert v.corrections == Remaining(w.corrections, w.rows[id].correction, Judge(w.rows[id], w.lives[id], e).withdraws);
      PendingIsNotWithdrawn(w, id);
      forall x | x in v.rows && v.rows[x].correction != 0 ensures CorrectionOf(v, x) {
        assert SameRequest(w.rows[x], v.rows[x]);
        assert CorrectionOf(w, x);
      }
    }
  }

  lemma PendingIsNotWithdrawn(w: World, id: int)
    requires LivesOk(w) && id in w.rows && w.rows[id].status.Pending?
    ensures !w.lives[id].withdrawn && w.lives[id].refusal.None?
  {
    assert LifeOk(w.rows[id], w.lives[id]);
  }

  lemma ApplyKeepsWithdrawal(w: World, cid: int, ok: bool)
    requires CorrectionsOk(w)
    ensures CorrectionsOk(Apply(w, cid, ok))
  {
    var v := Apply(w, cid, ok);
    forall x | x in v.rows && v.rows[x].correction != 0 ensures CorrectionOf(v, x) {
      assert CorrectionOf(w, x);
    }
  }

  lemma StepKeepsCorrections(w: World, s: Step)
    requires CorrectionsOk(w) && Possible(s)
    ensures CorrectionsOk(Next(w, s))
  {
    hide Drain, LifeOk;
    StepKeepsLives(w, s);
    match s
    case DrainRow(id, node, e) => DrainKeepsWithdrawal(w, id, node, e);
    case Correct(cid, ok) => ApplyKeepsWithdrawal(w, cid, ok);
    case _ =>
      var v := Next(w, s);
      forall x | x in v.rows && v.rows[x].correction != 0 ensures CorrectionOf(v, x) {
        if x in w.rows { assert CorrectionOf(w, x); RequestsAreKept(w, s, x); }
      }
  }

  lemma {:induction false} RunKeepsCorrections(steps: seq<Step>)
    requires AllPossible(steps)
    ensures CorrectionsOk(Reached(steps))
  {
    if steps != [] {
      RunKeepsCorrections(steps[..|steps| - 1]);
      StepKeepsCorrections(Reached(steps[..|steps| - 1]), steps[|steps| - 1]);
    }
  }

  /** A reply that was refused or closed is failed, and its escalation was not and cannot be resolved through it. */
  lemma WithdrawnIsNeverResolved(steps: seq<Step>, id: int, cid: int, ok: bool)
    requires AllPossible(steps) && id in Reached(steps).rows && id in Reached(steps).lives
    requires Reached(steps).lives[id].withdrawn && Reached(steps).rows[id].correction == cid != 0
    ensures Reached(steps).rows[id].status.Failed?
    ensures cid !in Reached(steps).corrections && cid !in Reached(steps).resolved
    ensures Apply(Reached(steps), cid, ok) == Reached(steps)
  {
    RunKeepsCorrections(steps);
    assert LifeOk(Reached(steps).rows[id], Reached(steps).lives[id]);
    assert CorrectionOf(Reached(steps), id);
  }

  /** While a reply is still queued or running its correction waits, unprocessed and unresolved. */
  lemma QueuedCorrectionWaits(steps: seq<Step>, id: int, cid: int, ok: bool)
    requires AllPossible(steps) && id in Reached(steps).rows && !Terminal(Reached(steps).rows[id].status)
    requires Reached(steps).rows[id].correction == cid != 0
    ensures cid in Reached(steps).corrections && cid !in Reached(steps).resolved
    ensures Apply(Reached(steps), cid, ok) == Reached(steps)
  {
    RunKeepsCorrections(steps);
    assert CorrectionOf(Reached(steps), id);
  }

  // ----- what the operator is told -----

  /** The last thing said about a target since it was last forgotten. */
  function LastSaid(ns: seq<Notice>, whom: Whom): Option<Said> {
    if ns == [] then None
    else
      var n := ns[|ns| - 1];
      if Forgets(n, whom) then None
      else if n.Escalated? && n.whom == whom then Some(n.said)
      else LastSaid(ns[..|ns| - 1], whom)
  }

  predicate Remembers(w: World, whom: Whom) {
    LastSaid(w.notices, whom) == if whom in w.refusals then Some(w.refusals[whom]) else None
  }

  predicate NeverTwice(ns: seq<Notice>) {
    forall k :: 0 <= k < |ns| && ns[k].Escalated? ==> LastSaid(ns[..k], ns[k].whom) != Some(ns[k].said)
  }

  /** A row that carries a recorded refusal, and the words that were said. */
  predicate Refused(w: World, id: int, whom: Whom, said: Said) {
    && id in w.rows && id in w.lives
    && w.lives[id].withdrawn && w.lives[id].refusal == Some(said.text)
    && whom == Whom(w.rows[id].node, w.rows[id].target) && said.kind == w.rows[id].kind
  }

  ghost predicate NoticesOk(w: World) {
    && (forall whom :: Remembers(w, whom))
    && NeverTwice(w.notices)
    && (forall k :: 0 <= k < |w.notices| && w.notices[k].Escalated?
                    ==> Refused(w, w.notices[k].id, w.notices[k].whom, w.notices[k].said))
  }

  /** What a drain records of a refusal, and what it then says of it. */
  lemma DrainSays(w: World, id: int, node: string, e: Env) returns (said: Option<string>)
    requires LivesOk(w)
    ensures var v := Drain(w, id, node, e);
            && (said.None? ==> v.notices == w.notices && v.refusals == w.refusals
                               && (id in w.rows ==> v.lives[id].refusal == w.lives[id].refusal))
            && (said.Some? ==>
                  && Claimable(w, id, node)
                  && Refused(v, id, WhomOf(w.rows[id]), Said(w.rows[id].kind, said.value))
                  && AlreadySaid(v, WhomOf(w.rows[id]), Said(w.rows[id].kind, said.value))
                  && (if AlreadySaid(w, WhomOf(w.rows[id]), Said(w.rows[id].kind, said.value))
                      then v.notices == w.notices && v.refusals == w.refusals
                      else v.refusals == w.refusals[WhomOf(w.rows[id]) := Said(w.rows[id].kind, said.value)]
                           && v.notices == w.notices + [Escalated(id, WhomOf(w.rows[id]), Said(w.rows[id].kind, said.value), e.auditOk)]))
  {
    hide Judge, LifeOk;
    said := None;
    if Claimable(w, id, node) && e.claimOk {
      VerdictIsAboutItsRow(w.rows[id], w.lives[id], e);
      said := Judge(w.rows[id], w.lives[id], e).said;
    }
  }

  lemma DrainKeepsRefused(w: World, id: int, node: string, e: Env, x: int, whom: Whom, said: Said)
    requires LivesOk(w) && Refused(w, x, whom, said)
    ensures Refused(Drain(w, id, node, e), x, whom, said)
  {
    hide Drain;
    assert LifeOk(w.rows[x], w.lives[x]);
    DrainTouchesOne(w, id, node, e);
  }

  lemma StepKeepsRefused(w: World, s: Step, x: int, whom: Whom, said: Said)
    requires LivesOk(w) && Refused(w, x, whom, said)
    ensures Refused(Next(w, s), x, whom, said)
  {
    hide Drain;
    match s
    case DrainRow(id, node, e) => DrainKeepsRefused(w, id, node, e, x, whom, said);
    case Start(node, ok) => assert LifeOk(w.rows[x], w.lives[x]);
    case _ =>
  }

  /** Adding one notice changes what was last said about the targets it names, and about no other. */
  lemma SayingKeepsMemory(w: World, v: World, n: Notice)
    requires forall whom :: Remembers(w, whom)
    requires NeverTwice(w.notices) && v.notices == w.notices + [n]
    requires n.Escalated? ==> !AlreadySaid(w, n.whom, n.said) && v.refusals == w.refusals[n.whom := n.said]
    requires !n.Escalated? ==> v.refusals == map x | x in w.refusals && !Forgets(n, x) :: w.refusals[x]
    ensures forall whom :: Remembers(v, whom)
    ensures NeverTwice(v.notices)
  {
    assert v.notices[..|v.notices| - 1] == w.notices;
    forall whom ensures Remembers(v, whom) {
      assert Remembers(w, whom);
    }
    forall k | 0 <= k < |v.notices| && v.notices[k].Escalated?
      ensures LastSaid(v.notices[..k], v.notices[k].whom) != Some(v.notices[k].said)
    {
      if k < |w.notices| {
        assert v.notices[..k] == w.notices[..k];
      } else {
        assert Remembers(w, n.whom);
      }
    }
  }

  lemma StepKeepsNotices(w: World, s: Step)
    requires LivesOk(w) && NoticesOk(w) && Possible(s)
    ensures NoticesOk(Next(w, s))
  {
    hide Drain, LifeOk;
    var v := Next(w, s);
    forall k | 0 <= k < |w.notices| && w.notices[k].Escalated?
      ensures Refused(v, w.notices[k].id, w.notices[k].whom, w.notices[k].said)
    {
      StepKeepsRefused(w, s, w.notices[k].id, w.notices[k].whom, w.notices[k].said);
    }
    match s
    case DrainRow(id, node, e) =>
      var said := DrainSays(w, id, node, e);
      if v.notices != w.notices {
        SayingKeepsMemory(w, v, v.notices[|w.notices|]);
      } else {
        forall whom ensures Remembers(v, whom) { assert Remembers(w, whom); }
      }
    case Start(node, _) => SayingKeepsMemory(w, v, Restarted(node));
    case Listed(node, live) => SayingKeepsMemory(w, v, Relisted(node, live));
    case _ => forall whom ensures Remembers(v, whom) { assert Remembers(w, whom); }
  }

  /**
   Over every run: a refusal is escalated only for a row whose withdrawal was recorded, and never with
   the words that were the last ones said about the same target.
   */
  lemma {:induction false} RefusalsAreSaidOnce(steps: seq<Step>)
    requires AllPossible(steps)
    ensures NoticesOk(Reached(steps))
  {
    if steps != [] {
      RefusalsAreSaidOnce(steps[..|steps| - 1]);
      RunKeepsLives(steps[..|steps| - 1]);
      StepKeepsNotices(Reached(steps[..|steps| - 1]), steps[|steps| - 1]);
    }
  }

  // ----- when the same words are said again -----

  predicate SpokenAt(ns: seq<Notice>, i: nat, whom: Whom) {
    i < |ns| && ns[i].Escalated? && ns[i].whom == whom
  }

  /** The last words to the operator about this target. */
  predicate LastAt(ns: seq<Notice>, i: nat, whom: Whom) {
    SpokenAt(ns, i, whom) && forall k :: i < k < |ns| && ns[k].Escalated? ==> ns[k].whom != whom
  }

  predicate ForgottenSince(ns: seq<Notice>, i: nat, whom: Whom) {
    exists k :: i < k < |ns| && Forgets(ns[k], whom)
  }

  lemma {:induction false} LastSaidStands(ns: seq<Notice>, i: nat, whom: Whom)
    requires LastAt(ns, i, whom)
    ensures LastSaid(ns, whom) == if ForgottenSince(ns, i, whom) then None else Some(ns[i].said)
  {
    var n := |ns| - 1;
    if i < n {
      assert LastAt(ns[..n], i, whom);
      LastSaidStands(ns[..n], i, whom);
      assert ForgottenSince(ns[..n], i, whom) ==> ForgottenSince(ns, i, whom);
    }
  }

  /**
   In every run, a refusal recorded with the words last said about its target is said again if and only
   if, since then, its node started or a listing showed no agent with that spelling for an id.
   */
  lemma SaidAgainIff(steps: seq<Step>, i: nat, id: int, node: string, e: Env, whom: Whom)
    requires AllPossible(steps) && LastAt(Reached(steps).notices, i, whom)
    requires var w := Reached(steps); Refused(Drain(w, id, node, e), id, whom, w.notices[i].said) && !Refused(w, id, whom, w.notices[i].said)
    ensures var w := Reached(steps);
            Drain(w, id, node, e).notices
            == w.notices + if ForgottenSince(w.notices, i, whom) then [Escalated(id, whom, w.notices[i].said, e.auditOk)] else []
  {
    hide Drain, LifeOk;
    var w := Reached(steps);
    RefusalsAreSaidOnce(steps);
    RunKeepsLives(steps);
    LastSaidStands(w.notices, i, whom);
    assert Remembers(w, whom);
    var words := DrainSays(w, id, node, e);
    NewRefusalIsTheSaidOne(w, id, node, e, id, whom, w.notices[i].said, words);
  }

  /** So two escalations of the same words, with none other about the target between them, have a start or such a listing between them. */
  lemma SaidTwiceWasForgotten(steps: seq<Step>, i: nat, j: nat, whom: Whom)
    requires AllPossible(steps) && i < j && SpokenAt(Reached(steps).notices, j, whom) && LastAt(Reached(steps).notices[..j], i, whom)
    requires Reached(steps).notices[i].said == Reached(steps).notices[j].said
    ensures ForgottenSince(Reached(steps).notices[..j], i, whom)
  {
    hide Refused;
    RefusalsAreSaidOnce(steps);
    LastSaidStands(Reached(steps).notices[..j], i, whom);
  }

  /** The operator has a row carrying these words about this target. */
  predicate Told(w: World, whom: Whom, said: Said) {
    exists k :: 0 <= k < |w.notices| && w.notices[k].Escalated? && w.notices[k].recorded
                && w.notices[k].whom == whom && w.notices[k].said == said
  }

  predicate WritesLand(s: Step) {
    s.DrainRow? ==> s.env.auditOk
  }

  ghost predicate Heard(w: World) {
    && (forall whom :: whom in w.refusals ==> Told(w, whom, w.refusals[whom]))
    && (forall id, whom, said :: Refused(w, id, whom, said) ==> Told(w, whom, said))
  }

  lemma ToldStays(w: World, v: World, whom: Whom, said: Said)
    requires Told(w, whom, said) && w.notices <= v.notices
    ensures Told(v, whom, said)
  {
    var k :| 0 <= k < |w.notices| && w.notices[k].Escalated? && w.notices[k].recorded
             && w.notices[k].whom == whom && w.notices[k].said == said;
    assert v.notices[k] == w.notices[k];
  }

  lemma DrainIsHeard(w: World, id: int, node: string, e: Env)
    requires LivesOk(w) && Heard(w) && e.auditOk
    ensures Heard(Drain(w, id, node, e))
  {
    hide Drain, LifeOk;
    var v := Drain(w, id, node, e);
    DrainTouchesOne(w, id, node, e);
    var said := DrainSays(w, id, node, e);
    if v.notices != w.notices {
      var n := v.notices[|w.notices|];
      assert Told(v, n.whom, n.said);
    }
    forall whom | whom in v.refusals ensures Told(v, whom, v.refusals[whom]) {
      if whom in w.refusals && v.refusals[whom] == w.refusals[whom] { ToldStays(w, v, whom, w.refusals[whom]); }
    }
    forall x, whom, s | Refused(v, x, whom, s) ensures Told(v, whom, s) {
      if Refused(w, x, whom, s) {
        ToldStays(w, v, whom, s);
      } else {
        NewRefusalIsTheSaidOne(w, id, node, e, x, whom, s, said);
      }
    }
  }

  /** The only refusal a drain can add is the one it just recorded. */
  lemma NewRefusalIsTheSaidOne(w: World, id: int, node: string, e: Env, x: int, whom: Whom, s: Said, said: Option<string>)
    requires LivesOk(w)
    requires Refused(Drain(w, id, node, e), x, whom, s) && !Refused(w, x, whom, s)
    requires Claimable(w, id, node) ==> id in Drain(w, id, node, e).lives
    requires said.None? ==> (id in w.rows ==> id in Drain(w, id, node, e).lives && Drain(w, id, node, e).lives[id].refusal == w.lives[id].refusal)
    requires said.Some? ==> Claimable(w, id, node) && Drain(w, id, node, e).lives[id].refusal == said
    ensures x == id && Claimable(w, id, node) && said == Some(s.text) && whom == WhomOf(w.rows[id]) && s.kind == w.rows[id].kind
  {
    hide Drain;
    DrainTouchesOne(w, id, node, e);
    assert x in w.rows && LifeOk(w.rows[x], w.lives[x]);
  }

  lemma StepIsHeard(w: World, s: Step)
    requires LivesOk(w) && Heard(w) && Possible(s) && WritesLand(s)
    ensures Heard(Next(w, s))
  {
    hide Drain;
    var v := Next(w, s);
    match s
    case DrainRow(id, node, e) => DrainIsHeard(w, id, node, e);
    case _ =>
      forall whom | whom in v.refusals ensures Told(v, whom, v.refusals[whom]) {
        ToldStays(w, v, whom, w.refusals[whom]);
      }
      forall x, whom, said | Refused(v, x, whom, said) ensures Told(v, whom, said) {
        assert LifeOk(w.rows[x], w.lives[x]);
        assert Refused(w, x, whom, said);
        ToldStays(w, v, whom, said);
      }
  }

  /** With the audit writes landing, every refused request has a row in front of the operator with its words. */
  lemma {:induction false} EveryRefusalIsTold(steps: seq<Step>)
    requires AllPossible(steps)
    requires forall k :: 0 <= k < |steps| ==> WritesLand(steps[k])
    ensures Heard(Reached(steps))
  {
    if steps != [] {
      EveryRefusalIsTold(steps[..|steps| - 1]);
      RunKeepsLives(steps[..|steps| - 1]);
      StepIsHeard(Reached(steps[..|steps| - 1]), steps[|steps| - 1]);
    }
  }

  /**
   Without that assumption it fails, and this is exactly when: a refusal recorded by a drain is told
   only if its words had been told before, or were not the last ones tried and the audit write landed.
   A write that failed once thus silences the same refusal when it comes again.
   */
  lemma RefusalIsToldIff(w: World, id: int, node: string, e: Env, whom: Whom, said: Said)
    requires LivesOk(w)
    requires Refused(Drain(w, id, node, e), id, whom, said) && !Refused(w, id, whom, said)
    ensures Told(Drain(w, id, node, e), whom, said) <==> Told(w, whom, said) || (e.auditOk && !AlreadySaid(w, whom, said))
  {
    hide Drain, LifeOk;
    var v := Drain(w, id, node, e);
    var words := DrainSays(w, id, node, e);
    NewRefusalIsTheSaidOne(w, id, node, e, id, whom, said, words);
    if Told(w, whom, said) {
      ToldStays(w, v, whom, said);
    } else if v.notices != w.notices {
      assert forall k :: 0 <= k < |w.notices| ==> v.notices[k] == w.notices[k];
      assert v.notices[|w.notices|] == Escalated(id, whom, said, e.auditOk);
    }
  }

  lemma FourSteps(steps: seq<Step>)
    requires |steps| == 4
    ensures After(EMPTY, steps) == Next(Next(Next(Next(EMPTY, steps[0]), steps[1]), steps[2]), steps[3])
  {
    hide Next;
    assert steps[..3][..2] == steps[..2] && steps[..2][..1] == steps[..1] && steps[..1][..0] == [];
    assert After(EMPTY, steps[..1]) == Next(EMPTY, steps[0]);
    assert After(EMPTY, steps[..2]) == Next(After(EMPTY, steps[..1]), steps[1]);
    assert After(EMPTY, steps[..3]) == Next(After(EMPTY, steps[..2]), steps[2]);
  }

  const REQUEST := Action("n", SendTask, "t", 0, 0, Pending, 0, false)

  function Vetoed(auditOk: bool): Env {
    Env(0, true, false, Quiet(Erred(Failure.Refused, "vetoed")), true, auditOk)
  }

  lemma VetoedDrain(w: World, id: int, auditOk: bool)
    requires id in w.rows && w.rows[id] == REQUEST
    ensures var v, whom, said := Drain(w, id, "n", Vetoed(auditOk)), Whom("n", "t"), Said(SendTask, "vetoed");
            && Refused(v, id, whom, said) && AlreadySaid(v, whom, said)
            && v.notices == w.notices + (if AlreadySaid(w, whom, said) then [] else [Escalated(id, whom, said, auditOk)])
            && forall x :: x in w.rows && x != id ==> x in v.rows && v.rows[x] == w.rows[x]
  {
    hide Decimal;
  }

  /** Two refusals of the same request: the first audit write fails, so the second is never told. */
  lemma FailedWriteSilencesRefusal(steps: seq<Step>)
    requires steps == [File(1, REQUEST), File(2, REQUEST), DrainRow(1, "n", Vetoed(false)), DrainRow(2, "n", Vetoed(true))]
    ensures AllPossible(steps)
    ensures Refused(Reached(steps), 2, Whom("n", "t"), Said(SendTask, "vetoed"))
    ensures !Told(Reached(steps), Whom("n", "t"), Said(SendTask, "vetoed"))
  {
    hide Drain, After;
    FourSteps(steps);
    var filed := Next(Next(EMPTY, steps[0]), steps[1]);
    assert filed.rows[1] == REQUEST && filed.rows[2] == REQUEST && filed.notices == [];
    VetoedDrain(filed, 1, false);
    VetoedDrain(Drain(filed, 1, "n", Vetoed(false)), 2, true);
    assert Reached(steps).notices == [Escalated(1, Whom("n", "t"), Said(SendTask, "vetoed"), false)];
  }

  lemma OneMoreStep(steps: seq<Step>, s: Step)
    ensures Reached(steps + [s]) == Next(Reached(steps), s)
  {
    hide Next;
    assert (steps + [s])[..|steps + [s]| - 1] == steps;
  }

  /** A request that names a live agent by its name: the sweep between two attempts forgets the refusal, and it is told twice. */
  lemma NamedTargetIsToldTwice(steps: seq<Step>)
    requires steps == [File(1, REQUEST), File(2, REQUEST), DrainRow(1, "n", Vetoed(true)), Listed("n", {Resident("p1", "t")})]
    ensures AllPossible(steps + [DrainRow(2, "n", Vetoed(true))])
    ensures var whom, said := Whom("n", "t"), Said(SendTask, "vetoed");
            Reached(steps + [DrainRow(2, "n", Vetoed(true))]).notices
            == [Escalated(1, whom, said, true), Relisted("n", {Resident("p1", "t")}), Escalated(2, whom, said, true)]
  {
    hide Drain, After;
    FourSteps(steps);
    OneMoreStep(steps, DrainRow(2, "n", Vetoed(true)));
    var filed := Next(Next(EMPTY, steps[0]), steps[1]);
    assert filed.rows[1] == REQUEST && filed.rows[2] == REQUEST && filed.notices == [];
    VetoedDrain(filed, 1, true);
    var listed := Reached(steps);
    assert Ids({Resident("p1", "t")}) == {"p1"};
    assert Forgets(Relisted("n", {Resident("p1", "t")}), Whom("n", "t"));
    assert listed.rows[2] == REQUEST && !AlreadySaid(listed, Whom("n", "t"), Said(SendTask, "vetoed"));
    VetoedDrain(listed, 2, true);
  }

  // ----- how a request ends -----

  /** The step claims the row for its own node and reaches the end of its drain, where the outcome is written. */
  predicate Drained(w: World, s: Step, id: int) {
    && s.DrainRow? && s.id == id && id in w.rows && w.rows[id].status == Pending && w.rows[id].node == s.node
    && s.env.claimOk && !s.env.diesClaimed && s.env.outcomeOk
  }

  /** The request is of no known kind, or older than its kind allows, so no executor is asked. */
  predicate Screened(a: Action, now: int) {
    a.kind.Unsupported? || (StaleBound(a.kind) > 0 && now > a.createdAt + StaleBound(a.kind))
  }

  /** The executor came back, with this outcome; one that could not mark its delivery came back with a failure. */
  predicate Reported(x: Execution, outcome: Outcome) {
    match x
    case Quiet(o) => o == outcome
    case Typed(o) => o == outcome
    case Unmarked(_, f) => outcome.Erred? && outcome.failure == f
    case Died(_) => false
  }

  predicate RecordsSuccess(w: World, s: Step, id: int) {
    Drained(w, s, id) && !Screened(w.rows[id], s.env.now) && Reported(s.env.execution, Landed)
  }

  /** A failure the row does not get another try for. */
  predicate Final(f: Failure, tries: nat) {
    f.Permanent? || f.Refused? || f.Closed? || (f.Transient? && tries >= 3)
  }

  predicate FailsFor(x: Execution, tries: nat) {
    match x
    case Quiet(o) => o.Erred? && Final(o.failure, tries)
    case Typed(o) => o.Erred? && Final(o.failure, tries)
    case Unmarked(_, f) => Final(f, tries)
    case Died(_) => false
  }

  /**
   An outcome is written for a request that was screened out or failed for good, the third transient
   failure included; or a start of its node finds it running past the mark set before its keystrokes.
   */
  predicate RecordsFailure(w: World, s: Step, id: int) {
    || (Drained(w, s, id) && (Screened(w.rows[id], s.env.now) || FailsFor(s.env.execution, w.rows[id].attempts + 1)))
    || (s.Start? && s.ok && id in w.rows && w.rows[id].node == s.node && w.rows[id].status == Running && w.rows[id].sideEffect)
  }

  lemma DrainEnds(w: World, id: int, node: string, e: Env)
    requires id in w.rows
    ensures var was, now, s := w.rows[id].status, Drain(w, id, node, e).rows[id].status, DrainRow(id, node, e);
            && (now == Done <==> was == Done || RecordsSuccess(w, s, id))
            && (now == Failed <==> was == Failed || RecordsFailure(w, s, id))
  {
    hide Judge, Drain, Claimable, Screened, Reported, FailsFor;
    DrainedRow(w, id, node, e);
    ClaimableIs(w, id, node);
    if Claimable(w, id, node) { VerdictEnds(w.rows[id], Live(w, id), e); }
  }

  lemma ClaimableIs(w: World, id: int, node: string)
    ensures Claimable(w, id, node) <==> id in w.rows && w.rows[id].status == Pending && w.rows[id].node == node
  {
  }

  lemma DrainedRow(w: World, id: int, node: string, e: Env)
    requires id in w.rows
    ensures Drain(w, id, node, e).rows[id] == if Claimable(w, id, node) && e.claimOk then Judge(w.rows[id], Live(w, id), e).row else w.rows[id]
  {
    hide Judge;
  }

  lemma VerdictEnds(a: Action, l: Life, e: Env)
    ensures var s := Judge(a, l, e).row.status;
            && (s == Done <==> !e.diesClaimed && e.outcomeOk && !Screened(a, e.now) && Reported(e.execution, Landed))
            && (s == Failed <==> !e.diesClaimed && e.outcomeOk && (Screened(a, e.now) || FailsFor(e.execution, a.attempts + 1)))
  {
    hide Message;
  }

  lemma StepEnds(w: World, s: Step, id: int)
    requires id in w.rows
    ensures var was, now := w.rows[id].status, Next(w, s).rows[id].status;
            && id in Next(w, s).rows
            && (now == Done <==> was == Done || RecordsSuccess(w, s, id))
            && (now == Failed <==> was == Failed || RecordsFailure(w, s, id))
  {
    hide Drain;
    RequestsAreKept(w, s, id);
    if s.DrainRow? {
      DrainTouchesOne(w, s.id, s.node, s.env);
      if s.id == id { DrainEnds(w, id, s.node, s.env); }
    }
  }

  lemma FiledIsPending(w: World, s: Step, id: int)
    requires id !in w.rows && id in Next(w, s).rows
    ensures Next(w, s).rows[id].status == Pending && !RecordsSuccess(w, s, id) && !RecordsFailure(w, s, id)
  {
    hide Drain;
    if s.DrainRow? { DrainTouchesOne(w, s.id, s.node, s.env); }
  }

  ghost predicate SucceededIn(steps: seq<Step>, id: int) {
    exists k :: 0 <= k < |steps| && RecordsSuccess(Reached(steps[..k]), steps[k], id)
  }

  ghost predicate FailedIn(steps: seq<Step>, id: int) {
    exists k :: 0 <= k < |steps| && RecordsFailure(Reached(steps[..k]), steps[k], id)
  }

  lemma OneStepMore(steps: seq<Step>, id: int)
    requires steps != []
    ensures var n := |steps| - 1;
            && (SucceededIn(steps, id) <==> SucceededIn(steps[..n], id) || RecordsSuccess(Reached(steps[..n]), steps[n], id))
            && (FailedIn(steps, id) <==> FailedIn(steps[..n], id) || RecordsFailure(Reached(steps[..n]), steps[n], id))
  {
    hide RecordsSuccess, RecordsFailure, Reached;
    var n := |steps| - 1;
    forall k | 0 <= k < n ensures steps[..n][..k] == steps[..k] && steps[..n][k] == steps[k] {}
    if k :| 0 <= k < n && RecordsSuccess(Reached(steps[..n][..k]), steps[..n][k], id) {
      assert RecordsSuccess(Reached(steps[..k]), steps[k], id);
    }
    if k :| 0 <= k < n && RecordsFailure(Reached(steps[..n][..k]), steps[..n][k], id) {
      assert RecordsFailure(Reached(steps[..k]), steps[k], id);
    }
  }

  /**
   Over every run, from what the executors reported: a request is done if and only if one of its
   executions landed and that outcome was written, and failed if and only if a failure was written for
   good, at its drain or by a start that found its keystrokes in doubt.
   */
  lemma {:induction false} OutcomeIff(steps: seq<Step>, id: int)
    requires id in Reached(steps).rows
    ensures Reached(steps).rows[id].status == Done <==> SucceededIn(steps, id)
    ensures Reached(steps).rows[id].status == Failed <==> FailedIn(steps, id)
  {
    hide Next, RecordsSuccess, RecordsFailure, SucceededIn, FailedIn;
    if steps != [] {
      var n := |steps| - 1;
      var w := Reached(steps[..n]);
      OneStepMore(steps, id);
      if id in w.rows {
        OutcomeIff(steps[..n], id);
        StepEnds(w, steps[n], id);
      } else {
        FiledIsPending(w, steps[n], id);
        NothingBefore(steps[..n], id);
      }
    }
  }

  /** A row that is not there yet has no history. */
  lemma {:induction false} NothingBefore(steps: seq<Step>, id: int)
    requires id !in Reached(steps).rows
    ensures !SucceededIn(steps, id) && !FailedIn(steps, id)
  {
    hide Next, SucceededIn, FailedIn;
    if steps == [] {
      NoHistory(id);
    } else {
      var n := |steps| - 1;
      if id in Reached(steps[..n]).rows { RequestsAreKept(Reached(steps[..n]), steps[n], id); }
      NothingBefore(steps[..n], id);
      OneStepMore(steps, id);
    }
  }

  lemma NoHistory(id: int)
    ensures !SucceededIn([], id) && !FailedIn([], id)
  {
  }

  /**
   A start of a node that reads the queue leaves none of its requests held by nobody: each one found running
   is queued again if nothing was typed, and has otherwise failed.
   */
  lemma StartLeavesNothingRunning(steps: seq<Step>, node: string, id: int)
    requires AllPossible(steps) && id in Reached(steps).rows && Reached(steps).rows[id].node == node
    ensures var w, u := Reached(steps), Next(Reached(steps), Start(node, true));
            && id in u.rows && id in u.lives && u.rows[id].status != Running
            && (w.rows[id].status != Running ==> u.rows[id] == w.rows[id])
            && (u.rows[id].status == Pending ==> u.lives[id].typed == 0)
  {
    RunKeepsLives(steps);
    StepKeepsLives(Reached(steps), Start(node, true));
    assert LifeOk(Next(Reached(steps), Start(node, true)).rows[id], Next(Reached(steps), Start(node, true)).lives[id]);
  }

  // ----- an answer that went out is applied -----

  /** A correction whose action has ended without being withdrawn is still there, and the next pass resolves its escalation if none has. */
  lemma EndedCorrectionIsApplied(steps: seq<Step>, id: int, cid: int, markOk: bool)
    requires AllPossible(steps) && id in Reached(steps).rows && id in Reached(steps).lives
    requires Terminal(Reached(steps).rows[id].status) && !Reached(steps).lives[id].withdrawn && Reached(steps).rows[id].correction == cid != 0
    ensures var w := Reached(steps);
            && cid in w.corrections && (w.corrections[cid] ==> cid in w.resolved)
            && cid in Apply(w, cid, markOk).resolved
  {
    RunKeepsCorrections(steps);
    assert CorrectionOf(Reached(steps), id);
    OnlyItsOwnAction(Reached(steps), id, cid);
  }

  lemma OnlyItsOwnAction(w: World, id: int, cid: int)
    requires CorrectionsOk(w) && id in w.rows && w.rows[id].correction == cid != 0 && Terminal(w.rows[id].status)
    ensures !Withheld(w, cid)
  {
  }

  // ----- every request ends -----

  /** The daemon reaches the end of a drain and its writes land. */
  predicate Healthy(e: Env) {
    e.claimOk && !e.diesClaimed && e.outcomeOk && e.execution.Valid() && !e.execution.Died?
  }

  lemma HealthyVerdict(a: Action, l: Life, e: Env)
    requires Healthy(e)
    ensures var r := Judge(a, l, e).row;
            Terminal(r.status) || (r.status.Pending? && r.node == a.node && r.attempts == a.attempts + 1 < MAX_ATTEMPTS)
  {
  }

  lemma {:induction false} HealthyDrainsEnd(w: World, id: int, node: string, envs: seq<Env>)
    requires Claimable(w, id, node)
    requires forall k :: 0 <= k < |envs| ==> Healthy(envs[k])
    ensures var v := DrainAll(w, seq(|envs|, _ => id), node, envs);
            && id in v.rows
            && (Terminal(v.rows[id].status)
                || (v.rows[id].status.Pending? && v.rows[id].node == node
                    && v.rows[id].attempts == w.rows[id].attempts + |envs|
                    && (envs != [] ==> v.rows[id].attempts < MAX_ATTEMPTS)))
  {
    hide Judge;
    var ids := seq(|envs|, _ => id);
    if envs != [] {
      var n := |envs| - 1;
      assert ids[..n] == seq(n, _ => id);
      HealthyDrainsEnd(w, id, node, envs[..n]);
      var u := DrainAll(w, ids[..n], node, envs[..n]);
      HealthyVerdict(u.rows[id], Live(u, id), envs[n]);
    }
  }

  /** Three healthy drains always bring a queued request to its outcome. */
  lemma ThreeDrainsEnd(w: World, id: int, node: string, envs: seq<Env>)
    requires Claimable(w, id, node) && |envs| == 3
    requires forall k :: 0 <= k < |envs| ==> Healthy(envs[k])
    ensures var v := DrainAll(w, seq(3, _ => id), node, envs); id in v.rows && Terminal(v.rows[id].status)
  {
    HealthyDrainsEnd(w, id, node, envs);
  }
}
