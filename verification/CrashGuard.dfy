/**
 The crash-loop breaker: a record of recent boots that outlives the daemon, the decision a boot takes
 from it, and the other places that read and rewrite it. Times are milliseconds.
 */
module CrashGuard {
  import opened Wrappers

  const WINDOW := 90000
  const THRESHOLD := 3

  datatype Reason = NoReason | AutoDisabled(starts: nat) | StillLooping(starts: nat)

  /** The persisted record; an empty digest is one never written. */
  datatype State = State(
    starts: seq<int>, embeddingOff: bool, gaveUp: bool, reason: Reason, setAt: Option<int>, digest: string)

  const BLANK := State([], false, false, NoReason, None, "")

  datatype Decision = Decision(disableEmbedding: bool, giveUp: bool, reason: Reason)

  /** The boots after the cutoff, in order. */
  function Recent(starts: seq<int>, now: int): seq<int> {
    if starts == [] then []
    else Recent(starts[..|starts| - 1], now) + if starts[|starts| - 1] > now - WINDOW then [starts[|starts| - 1]] else []
  }

  method PruneStarts(starts: seq<int>, now: int) returns (kept: seq<int>)
    ensures kept == Recent(starts, now)
  {
    var cutoff := now - WINDOW;
    kept := [];
    for i := 0 to |starts|
      invariant kept == Recent(starts[..i], now)
    {
      assert starts[..i + 1][..i] == starts[..i];
      if starts[i] > cutoff { kept := kept + [starts[i]]; }
    }
    assert starts[..|starts|] == starts;
  }

  predicate DigestChanged(st: State, digest: string) {
    st.digest != "" && digest != st.digest
  }

  function Cleared(digest: string): State {
    BLANK.(digest := digest)
  }

  function Evaluate(st: State, now: int, digest: string): (State, Decision) {
    var base := if DigestChanged(st, digest) then Cleared(digest) else st.(digest := digest);
    var starts := Recent(base.starts, now) + [now];
    var booted := base.(starts := starts);
    if base.gaveUp then (booted, Decision(false, true, base.reason))
    else if base.embeddingOff then
      if |starts| >= THRESHOLD then
        (booted.(gaveUp := true, setAt := Some(now), reason := StillLooping(|starts|)), Decision(false, true, StillLooping(|starts|)))
      else (booted, Decision(true, false, base.reason))
    else if |starts| >= THRESHOLD then
      (booted.(embeddingOff := true, setAt := Some(now), reason := AutoDisabled(|starts|), starts := [now]),
       Decision(true, false, AutoDisabled(|starts|)))
    else (booted, Decision(false, false, NoReason))
  }

  function Survived(st: State): (State, bool) {
    if st.starts == [] then (st, false) else (st.(starts := []), true)
  }

  /** Whether the latch holds the embedder off, and the record a changed config leaves. */
  function EmbeddingSuppressed(st: State, digest: string): (bool, State, bool) {
    if !st.embeddingOff then (false, st, false)
    else if DigestChanged(st, digest) then (false, Cleared(digest), true)
    else (true, st, false)
  }

  function SpawnBlocked(st: State, digest: string): (bool, State, Reason) {
    if !st.gaveUp then (false, st, NoReason)
    else if DigestChanged(st, digest) then (false, Cleared(digest), NoReason)
    else (true, st, st.reason)
  }

  // ----- the processes around the record -----

  /** A running daemon: what its boot decided, and whether its first embedder is still to be built. */
  datatype Running = Running(decision: Decision, firstBuild: bool)

  /**
   The record on disk, none when missing or malformed; the running daemon; and, for the statements only,
   the boots recorded since the boot history was last reset and how many were recorded in all.
   */
  datatype World = World(file: Option<State>, daemon: Option<Running>, history: seq<int>, recorded: nat)

  function Record(w: World): State {
    if w.file.Some? then w.file.value else BLANK
  }

  function Write(w: World, st: State, ok: bool): World {
    if ok then w.(file := Some(st)) else w
  }

  /** The boot history a boot continues: none when its record was reset by a changed config. */
  function Continued(w: World, digest: string): seq<int> {
    if DigestChanged(Record(w), digest) then [] else w.history
  }

  /** The boot that trips the embedder off starts the next cluster. */
  function Boot(w: World, now: int, digest: string, ok: bool): World {
    var (st, d) := Evaluate(Record(w), now, digest);
    var tripped := Tripped(Record(w), st, digest);
    var booted := Write(w, st, ok).(daemon := if d.giveUp then None else Some(Running(d, true)));
    if ok then booted.(history := if tripped then [now] else Continued(w, digest) + [now], recorded := w.recorded + 1) else booted
  }

  function Survive(w: World, ok: bool): World {
    if w.file.None? || !Survived(w.file.value).1 || !ok then w
    else w.(file := Some(Survived(w.file.value).0), history := [])
  }

  function ForgetBoots(w: World, ok: bool): World {
    if w.file.None? || w.file.value.starts == [] || !ok then w
    else w.(file := Some(w.file.value.(starts := [])), history := [])
  }

  /** Whether an embedder comes out of the factory for this configuration. */
  predicate Builds(w: World, disabled: bool, digest: string)
    requires w.daemon.Some?
  {
    if disabled then false
    else if w.daemon.value.firstBuild then !w.daemon.value.decision.disableEmbedding
    else w.file.Some? ==> !EmbeddingSuppressed(w.file.value, digest).0
  }

  function Build(w: World, disabled: bool, digest: string, ok: bool): World {
    if disabled || w.daemon.None? then w
    else if w.daemon.value.firstBuild then w.(daemon := Some(w.daemon.value.(firstBuild := false)))
    else if w.file.None? || !EmbeddingSuppressed(w.file.value, digest).2 || !ok then w
    else w.(file := Some(EmbeddingSuppressed(w.file.value, digest).1), history := [])
  }

  function Ensure(w: World, digest: string, ok: bool): World {
    if w.file.None? then w
    else
      var (blocked, cleared, _) := SpawnBlocked(w.file.value, digest);
      if !blocked && w.file.value.gaveUp && !cleared.gaveUp && ok then w.(file := Some(cleared), history := []) else w
  }

  datatype Step =
    | Booted(now: int, digest: string, ok: bool)
    | OutlivedWindow(ok: bool)
    | Built(disabled: bool, digest: string, ok: bool)
    | Ensured(digest: string, ok: bool)
    | Restarting(ok: bool)
    | Lost

  function Next(w: World, s: Step): World {
    match s
    case Booted(now, digest, ok) => Boot(w, now, digest, ok)
    case OutlivedWindow(ok) => Survive(w, ok)
    case Built(disabled, digest, ok) => Build(w, disabled, digest, ok)
    case Ensured(digest, ok) => Ensure(w, digest, ok)
    case Restarting(ok) => ForgetBoots(w, ok)
    case Lost => w.(file := None, history := [])
  }

  const EMPTY := World(None, None, [], 0)

  function After(w: World, steps: seq<Step>): World {
    if steps == [] then w else Next(After(w, steps[..|steps| - 1]), steps[|steps| - 1])
  }

  /** Digests print the whole config section and are never empty; the boots' clock does not run back. */
  predicate Legal(steps: seq<Step>) {
    && (forall k :: 0 <= k < |steps| ==>
          match steps[k] { case Booted(_, d, _) => d != "" case Built(_, d, _) => d != "" case Ensured(d, _) => d != "" case _ => true })
    && (forall i, j :: 0 <= i < j < |steps| && steps[i].Booted? && steps[j].Booted? ==> steps[i].now <= steps[j].now)
  }

  // ----- the sliding window -----

  predicate Sorted(ts: seq<int>) {
    forall i, j :: 0 <= i < j < |ts| ==> ts[i] <= ts[j]
  }

  function Last(ts: seq<int>): int
    requires ts != []
  {
    ts[|ts| - 1]
  }

  lemma {:induction false} RecentOfRecent(ts: seq<int>, a: int, b: int)
    requires a <= b
    ensures Recent(Recent(ts, a), b) == Recent(ts, b)
  {
    if ts != [] {
      var n := |ts| - 1;
      RecentOfRecent(ts[..n], a, b);
      if ts[n] > a - WINDOW {
        var r := Recent(ts[..n], a);
        assert (r + [ts[n]])[..|r|] == r;
      } else {
        assert Recent(ts, a) == Recent(ts[..n], a);
      }
    }
  }

  lemma RecentSnoc(ts: seq<int>, t: int, now: int)
    ensures Recent(ts + [t], now) == Recent(ts, now) + if t > now - WINDOW then [t] else []
  {
    assert (ts + [t])[..|ts|] == ts;
  }

  /** What holds of the record in every run. */
  predicate Sound(w: World) {
    && (w.file.None? ==> w.history == [])
    && Sorted(w.history)
    && (w.history == [] ==> Record(w).starts == [])
    && (w.history != [] ==> Record(w).starts == Recent(w.history, Last(w.history)))
    && (w.file.Some? ==> w.file.value.digest != "")
    && (!Record(w).gaveUp ==> |Record(w).starts| < THRESHOLD)
    && (Record(w).gaveUp ==> Record(w).embeddingOff)
  }

  /** The clock of the next boot stands at or after every boot on record. */
  predicate Clocked(w: World, now: int) {
    w.history != [] ==> Last(w.history) <= now
  }

  predicate Tripped(st: State, after: State, digest: string) {
    after.embeddingOff && (DigestChanged(st, digest) || !st.embeddingOff)
  }

  lemma EvaluateRecords(st: State, now: int, digest: string)
    requires st.gaveUp ==> st.embeddingOff
    ensures var r, kept := Evaluate(st, now, digest).0, if DigestChanged(st, digest) then [] else st.starts;
            && r.digest == digest
            && r.starts == (if Tripped(st, r, digest) then [now] else Recent(kept, now) + [now])
            && (!r.gaveUp ==> |r.starts| < THRESHOLD)
            && (r.gaveUp ==> r.embeddingOff)
  {
  }

  lemma UnwrittenBootKeepsSound(w: World, now: int, digest: string)
    requires Sound(w)
    ensures Sound(Boot(w, now, digest, false))
  {
    hide Evaluate, Recent;
  }

  /** The boots continued by a boot, pruned to its window. */
  lemma ContinuedIsPruned(w: World, now: int, digest: string)
    requires Sound(w) && Clocked(w, now)
    ensures var kept := if DigestChanged(Record(w), digest) then [] else Record(w).starts;
            Recent(kept, now) + [now] == Recent(Continued(w, digest) + [now], now)
    ensures Recent([now], now) == [now]
    ensures Sorted(Continued(w, digest) + [now])
  {
    hide Recent;
    var h := Continued(w, digest);
    if h != [] { RecentOfRecent(h, Last(h), now); }
    RecentSnoc(h, now, now);
    RecentSnoc([], now, now);
    NoneIsRecent([], now);
    assert [] + [now] == [now];
  }

  lemma BootKeepsSound(w: World, now: int, digest: string, ok: bool)
    requires Sound(w) && Clocked(w, now) && digest != ""
    ensures Sound(Boot(w, now, digest, ok))
  {
    hide Evaluate, Recent;
    if !ok {
      UnwrittenBootKeepsSound(w, now, digest);
    } else {
      EvaluateRecords(Record(w), now, digest);
      ContinuedIsPruned(w, now, digest);
      assert Last(Continued(w, digest) + [now]) == now && Last([now]) == now;
    }
  }

  lemma StepKeepsSound(w: World, s: Step)
    requires Sound(w) && Legal([s]) && (s.Booted? ==> Clocked(w, s.now))
    ensures Sound(Next(w, s))
  {
    hide Boot, Recent;
    assert [s][0] == s;
    if s.Booted? { BootKeepsSound(w, s.now, s.digest, s.ok); }
  }

  /** Every boot of the history is a boot of the run, so it lies before the ones still to come. */
  lemma {:induction false} HistoryIsPast(steps: seq<Step>, now: int)
    requires forall k :: 0 <= k < |steps| && steps[k].Booted? ==> steps[k].now <= now
    ensures forall i :: 0 <= i < |After(EMPTY, steps).history| ==> After(EMPTY, steps).history[i] <= now
  {
    hide Evaluate, Recent;
    if steps != [] { HistoryIsPast(steps[..|steps| - 1], now); }
  }

  /**
   The incrementally pruned boots are those of the whole history since the last reset that lie within
   one window of the last boot, fewer than the threshold unless the breaker gave up; giving up never
   stands without the embedder off.
   */
  lemma {:induction false} WindowIsExact(steps: seq<Step>)
    requires Legal(steps)
    ensures Sound(After(EMPTY, steps))
  {
    hide Next, Sound;
    if steps == [] {
      assert Sound(EMPTY) by { EmptyIsSound(); }
    } else {
      var n := |steps| - 1;
      var w := After(EMPTY, steps[..n]);
      WindowIsExact(steps[..n]);
      if steps[n].Booted? {
        HistoryIsPast(steps[..n], steps[n].now);
      }
      assert Legal([steps[n]]);
      StepKeepsSound(w, steps[n]);
    }
  }

  lemma EmptyIsSound()
    ensures Sound(EMPTY)
  {
  }

  // ----- five boots -----

  function Boots(st: State, times: seq<int>, digest: string): (State, Decision)
    requires times != []
  {
    var before := if |times| == 1 then st else Boots(st, times[..|times| - 1], digest).0;
    Evaluate(before, Last(times), digest)
  }

  lemma {:induction false} RecentHoldsLater(ts: seq<int>, now: int)
    ensures |Recent(ts, now)| <= |ts|
  {
    if ts != [] { RecentHoldsLater(ts[..|ts| - 1], now); }
  }

  /** How close a record is to giving up after n boots inside one window. */
  predicate Closing(st: State, digest: string, n: nat, since: int) {
    && st.digest == digest
    && (st.gaveUp || (st.embeddingOff && Tail(st.starts, n - 2, since)) || (!st.embeddingOff && n < 3 && Tail(st.starts, n, since)))
  }

  /** The last m boots on record all lie at or after the given time. */
  predicate Tail(starts: seq<int>, m: int, since: int) {
    m <= |starts| && forall i :: 0 <= i < |starts| && |starts| - m <= i ==> starts[i] >= since
  }

  lemma {:induction false} RecentKeepsTail(ts: seq<int>, m: int, since: int, now: int)
    requires Tail(ts, m, since) && since > now - WINDOW
    ensures Tail(Recent(ts, now), m, since)
  {
    if m > 0 {
      RecentKeepsTail(ts[..|ts| - 1], m - 1, since, now);
    }
  }

  lemma BootCloses(st: State, digest: string, n: nat, since: int, now: int)
    requires n <= 4 && (n > 0 ==> Closing(st, digest, n, since)) && since <= now < since + WINDOW && digest != ""
    ensures Closing(Evaluate(st, now, digest).0, digest, n + 1, since)
    ensures n == 4 ==> Evaluate(st, now, digest).1.giveUp
  {
    hide Recent;
    var base := if DigestChanged(st, digest) then Cleared(digest) else st.(digest := digest);
    var m := if n == 0 then 0 else if base.embeddingOff then n - 2 else n;
    if !base.gaveUp {
      RecentKeepsTail(base.starts, m, since, now);
    }
  }

  lemma {:induction false} BootsClose(st: State, times: seq<int>, digest: string)
    requires 1 <= |times| <= 5 && Sorted(times) && Last(times) < times[0] + WINDOW && digest != ""
    ensures Closing(Boots(st, times, digest).0, digest, |times|, times[0])
    ensures |times| == 5 ==> Boots(st, times, digest).1.giveUp
  {
    hide Evaluate, Closing;
    var n := |times| - 1;
    if n == 0 {
      BootCloses(st, digest, 0, times[0], times[0]);
    } else {
      BootsClose(st, times[..n], digest);
      BootCloses(Boots(st, times[..n], digest).0, digest, n, times[0], times[n]);
    }
  }

  /** Whatever the record held before, the fifth boot inside one window gives up. */
  lemma FiveBootsGiveUp(st: State, times: seq<int>, digest: string)
    requires |times| == 5 && Sorted(times) && times[4] - times[0] < WINDOW && digest != ""
    ensures Boots(st, times, digest).1.giveUp && Boots(st, times, digest).0.gaveUp
  {
    BootsClose(st, times, digest);
    GivingUpLatches(if |times| == 1 then st else Boots(st, times[..4], digest).0, times[4], digest);
  }

  lemma GivingUpLatches(st: State, now: int, digest: string)
    ensures Evaluate(st, now, digest).1.giveUp <==> Evaluate(st, now, digest).0.gaveUp
  {
  }

  /** A record that holds no more than the boots recorded so far can account for. */
  predicate Earned(w: World) {
    && |Record(w).starts| <= w.recorded
    && (Record(w).embeddingOff ==> w.recorded >= 3)
    && (Record(w).embeddingOff && !Record(w).gaveUp ==> |Record(w).starts| <= w.recorded - 2)
    && (Record(w).gaveUp ==> w.recorded >= 5)
  }

  /** From nothing, over any steps, no record gives up before its fifth boot. */
  lemma {:induction false} GivingUpTakesFive(steps: seq<Step>)
    ensures Earned(After(EMPTY, steps))
    ensures forall now, digest :: Evaluate(Record(After(EMPTY, steps)), now, digest).1.giveUp ==> After(EMPTY, steps).recorded >= 4
  {
    hide Recent;
    if steps != [] {
      var w, s := After(EMPTY, steps[..|steps| - 1]), steps[|steps| - 1];
      GivingUpTakesFive(steps[..|steps| - 1]);
      if s.Booted? {
        RecentHoldsLater(Record(w).starts, s.now);
        RecentHoldsLater([], s.now);
      }
    }
    var v := After(EMPTY, steps);
    forall now, digest | Evaluate(Record(v), now, digest).1.giveUp ensures v.recorded >= 4 {
      RecentHoldsLater(Record(v).starts, now);
      RecentHoldsLater([], now);
    }
  }

  /** Between two boots: outliving the window, or a restart somebody asked for. */
  predicate Forgives(s: Step) {
    (s.OutlivedWindow? && s.ok) || (s.Restarting? && s.ok)
  }

  /**
   A window outlived, or a restart asked for, wipes the count: from any record that has not given up the
   next two boots of the configuration run, as the latch already said, whenever they come.
   */
  lemma ForgivenBootsRun(w: World, s: Step, now: int, later: int)
    requires w.file.Some? && !w.file.value.gaveUp && Forgives(s)
    ensures var st, d := Record(Next(w, s)), w.file.value.digest;
            var (once, first) := Evaluate(st, now, d);
            var (_, second) := Evaluate(once, later, d);
            && !first.giveUp && !second.giveUp
            && first.disableEmbedding == second.disableEmbedding == w.file.value.embeddingOff
  {
    assert Record(Next(w, s)) == w.file.value.(starts := []);
    assert Recent([], now) == [];
    RecentHoldsLater([now], later);
    FewAreRecent([now], later);
  }

  lemma {:induction false} FewAreRecent(ts: seq<int>, now: int)
    ensures |Recent(ts, now)| <= |ts|
  {
    if ts != [] { FewAreRecent(ts[..|ts| - 1], now); }
  }

  // ----- latches -----

  /** A latch clears only when the configuration changed, or the record itself was lost. */
  lemma LatchesClearOnChange(w: World, s: Step)
    requires w.file.Some? && w.file.value.digest != ""
    requires !s.Lost?
    ensures Next(w, s).file.Some?
    ensures (Record(w).embeddingOff && !Record(Next(w, s)).embeddingOff) || (Record(w).gaveUp && !Record(Next(w, s)).gaveUp)
            ==> (s.Booted? || s.Built? || s.Ensured?) && s.digest != w.file.value.digest
                && Record(Next(w, s)).digest == s.digest
  {
    hide Recent;
  }

  lemma {:induction false} NoneIsRecent(ts: seq<int>, now: int)
    requires forall i :: 0 <= i < |ts| ==> ts[i] <= now - WINDOW
    ensures Recent(ts, now) == []
  {
    if ts != [] {
      NoneIsRecent(ts[..|ts| - 1], now);
    }
  }

  function Quiet(ts: seq<int>): int {
    if ts == [] then 0
    else if Quiet(ts[..|ts| - 1]) >= ts[|ts| - 1] + WINDOW then Quiet(ts[..|ts| - 1]) else ts[|ts| - 1] + WINDOW
  }

  lemma {:induction false} QuietIsLate(ts: seq<int>)
    ensures forall i :: 0 <= i < |ts| ==> ts[i] <= Quiet(ts) - WINDOW
  {
    if ts != [] {
      QuietIsLate(ts[..|ts| - 1]);
    }
  }

  ghost predicate AlwaysGivesUp(st: State, digest: string) {
    forall now :: Evaluate(st, now, digest).1.giveUp
  }

  ghost predicate AlwaysDegrades(st: State, digest: string) {
    forall now :: Evaluate(st, now, digest).1.giveUp || Evaluate(st, now, digest).1.disableEmbedding
  }

  /** A spawn is declined exactly when every boot would give up, whenever it came. */
  lemma SpawnBlockedIff(st: State, digest: string)
    ensures SpawnBlocked(st, digest).0 <==> AlwaysGivesUp(st, digest)
    ensures SpawnBlocked(st, digest).0 ==> SpawnBlocked(st, digest).1 == st
  {
    if !SpawnBlocked(st, digest).0 {
      QuietIsLate(st.starts);
      NoneIsRecent(st.starts, Quiet(st.starts));
      assert !Evaluate(st, Quiet(st.starts), digest).1.giveUp;
    }
  }

  /** A reload leaves the embedder off exactly when every boot would, on a record that never gave up alone. */
  lemma SuppressedIff(st: State, digest: string)
    requires st.gaveUp ==> st.embeddingOff
    ensures EmbeddingSuppressed(st, digest).0 <==> AlwaysDegrades(st, digest)
  {
    if !EmbeddingSuppressed(st, digest).0 {
      QuietIsLate(st.starts);
      NoneIsRecent(st.starts, Quiet(st.starts));
      var d := Evaluate(st, Quiet(st.starts), digest).1;
      assert !d.giveUp && !d.disableEmbedding;
    }
  }

  /** Clearing a latch early, at a reload or a spawn, leaves the next boot what it would have done itself. */
  lemma ClearingEarlyChangesNothing(st: State, digest: string, now: int)
    requires digest != ""
    ensures EmbeddingSuppressed(st, digest).2 ==> Evaluate(EmbeddingSuppressed(st, digest).1, now, digest) == Evaluate(st, now, digest)
    ensures st.gaveUp && !SpawnBlocked(st, digest).0 ==> Evaluate(SpawnBlocked(st, digest).1, now, digest) == Evaluate(st, now, digest)
  {
  }

  // ----- the mitigation over a daemon's life -----

  /** Steps of one daemon's life that keep to one embedding configuration. */
  predicate SameConfig(steps: seq<Step>, digest: string) {
    forall k :: 0 <= k < |steps| ==>
      match steps[k] { case Built(_, d, _) => d == digest case Ensured(d, _) => d == digest case Booted(_, _, _) => false case Lost => false case _ => true }
  }

  /** The daemon runs mitigated and the record that says so is on disk. */
  predicate Mitigated(w: World, digest: string) {
    && w.daemon.Some? && w.daemon.value.decision.disableEmbedding
    && w.file.Some? && w.file.value.embeddingOff && w.file.value.digest == digest
  }

  /** A boot that decided against the embedder never builds one until the configuration changes. */
  lemma {:induction false} MitigationHolds(w: World, now: int, digest: string, steps: seq<Step>, disabled: bool)
    requires digest != "" && SameConfig(steps, digest) && Evaluate(Record(w), now, digest).1.disableEmbedding
    ensures Mitigated(After(Boot(w, now, digest, true), steps), digest)
    ensures !Builds(After(Boot(w, now, digest, true), steps), disabled, digest)
  {
    hide Recent;
    if steps != [] {
      MitigationHolds(w, now, digest, steps[..|steps| - 1], disabled);
    }
  }

  /**
   When the boot's record could not be written it holds only if an earlier boot had written the latch:
   the second build then comes from the record on disk, not from the boot's decision.
   */
  lemma UnwrittenMitigationHoldsIff(w: World, now: int, digest: string)
    requires digest != "" && Evaluate(Record(w), now, digest).1.disableEmbedding
    ensures var v := Build(Boot(w, now, digest, false), false, digest, true);
            !Builds(v, false, digest) <==> w.file.Some? && w.file.value.embeddingOff && !DigestChanged(w.file.value, digest)
  {
    hide Recent;
  }

  // ----- the daemon and its neighbours as they run -----

  class Guard {
    var file: Option<State>
    var daemon: Option<Running>
    ghost var history: seq<int>
    ghost var recorded: nat

    ghost function Now(): World
      reads this
    {
      World(file, daemon, history, recorded)
    }

    constructor (w: World)
      ensures Now() == w
    {
      file, daemon, history, recorded := w.file, w.daemon, w.history, w.recorded;
    }

    method EvaluateBoot(st: State, now: int, digest: string) returns (r: (State, Decision))
      ensures r == Evaluate(st, now, digest)
    {
      var s := st;
      if s.digest != "" && digest != s.digest { s := BLANK.(digest := digest); }
      s := s.(digest := digest);
      var kept := PruneStarts(s.starts, now);
      s := s.(starts := kept + [now]);
      var looping := |s.starts| >= THRESHOLD;
      if s.gaveUp {
        return (s, Decision(false, true, s.reason));
      }
      if s.embeddingOff {
        if looping {
          s := s.(gaveUp := true, setAt := Some(now), reason := StillLooping(|s.starts|));
          return (s, Decision(false, true, s.reason));
        }
        return (s, Decision(true, false, s.reason));
      }
      if looping {
        s := s.(embeddingOff := true, setAt := Some(now), reason := AutoDisabled(|s.starts|));
        s := s.(starts := [now]);
        return (s, Decision(true, false, s.reason));
      }
      return (s, Decision(false, false, NoReason));
    }

    method BootDaemon(now: int, digest: string, ok: bool) returns (runs: bool)
      modifies this
      ensures Now() == Boot(old(Now()), now, digest, ok)
      ensures runs == daemon.Some?
    {
      var st := if file.Some? then file.value else BLANK;
      var r := EvaluateBoot(st, now, digest);
      var (next, decision) := r;
      if ok {
        var tripped := Tripped(st, next, digest);
        history := if tripped then [now] else Continued(Now(), digest) + [now];
        recorded := recorded + 1;
        file := Some(next);
      }
      runs := !decision.giveUp;
      daemon := if decision.giveUp then None else Some(Running(decision, true));
    }

    method SurviveWindow(ok: bool)
      modifies `file, `history
      ensures Now() == Survive(old(Now()), ok)
    {
      if file.None? || file.value.starts == [] || !ok { return; }
      file := Some(file.value.(starts := []));
      history := [];
    }

    /** The embedder factory: the first build honours the boot's decision, later ones the record. */
    method BuildEmbedder(disabled: bool, digest: string, ok: bool) returns (built: bool)
      requires daemon.Some?
      modifies this
      ensures built == Builds(old(Now()), disabled, digest)
      ensures Now() == Build(old(Now()), disabled, digest, ok)
    {
      if disabled { return false; }
      if daemon.value.firstBuild {
        built := !daemon.value.decision.disableEmbedding;
        daemon := Some(daemon.value.(firstBuild := false));
        return;
      }
      if file.Some? {
        var (suppressed, cleared, changed) := EmbeddingSuppressed(file.value, digest);
        if changed && ok {
          file := Some(cleared);
          history := [];
        }
        if suppressed { return false; }
      }
      return true;
    }

    method SpawnIsBlocked(digest: string, ok: bool) returns (blocked: bool)
      modifies `file, `history
      ensures blocked == (old(file).Some? && SpawnBlocked(old(file).value, digest).0)
      ensures Now() == Ensure(old(Now()), digest, ok)
    {
      if file.None? { return false; }
      var (declined, cleared, _) := SpawnBlocked(file.value, digest);
      if declined { return true; }
      if file.value.gaveUp && !cleared.gaveUp && ok {
        file := Some(cleared);
        history := [];
      }
      return false;
    }

    method ForgetRestartBoots(ok: bool)
      modifies `file, `history
      ensures Now() == ForgetBoots(old(Now()), ok)
    {
      if file.None? || |file.value.starts| == 0 || !ok { return; }
      file := Some(file.value.(starts := []));
      history := [];
    }
  }
}
