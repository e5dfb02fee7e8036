/**
 The control socket's dispatcher: nudges pass through a bounded queue and a debounce window, and the
 handler is called once for each run of equal kinds.
 */
module Debounce {
  import opened Wrappers

  const CAPACITY := 64

  datatype Kind = Reload | Wake | Reembed | FleetPush

  /** What the select of a loop met: a nudge off the queue, the window's timer, or the server closing. */
  datatype Wakeup = Took(kind: Kind) | Timeout | Closed

  /** The dispatcher: waiting for a first nudge, inside a window holding one, or returned. */
  datatype Phase = Waiting | Window(kind: Kind) | Stopped

  /**
   `arrived` are the valid nudges offered by connections, `dropped` those the full queue refused; `taken`
   lists the windows opened so far, each with the kinds it took; `calls` are the handler's calls.
   */
  datatype State = State(
    queue: seq<Kind>, done: bool, phase: Phase, calls: seq<Kind>, taken: seq<seq<Kind>>, arrived: nat, dropped: nat)

  const IDLE := State([], false, Waiting, [], [], 0, 0)

  /** A connection offers a nudge; once the server is closing a ready select may take either branch. */
  function Offer(s: State, k: Kind, bails: bool): State {
    if s.done && bails then s
    else if |s.queue| < CAPACITY then s.(queue := s.queue + [k], arrived := s.arrived + 1)
    else s.(arrived := s.arrived + 1, dropped := s.dropped + 1)
  }

  predicate Ready(s: State, w: Wakeup) {
    match w
    case Took(k) => s.queue != [] && s.queue[0] == k
    case Timeout => s.phase.Window?
    case Closed => s.done
  }

  function Extended(taken: seq<seq<Kind>>, k: Kind): seq<seq<Kind>>
    requires taken != []
  {
    taken[..|taken| - 1] + [taken[|taken| - 1] + [k]]
  }

  function WakeUp(s: State, w: Wakeup): State
    requires Ready(s, w) && (s.phase.Window? ==> s.taken != [])
  {
    match s.phase
    case Stopped => s
    case Waiting =>
      (match w
       case Took(k) => s.(queue := s.queue[1..], phase := Window(k), taken := s.taken + [[k]])
       case _ => s.(phase := Stopped))
    case Window(kind) =>
      match w
      case Took(k) =>
        s.(queue := s.queue[1..], taken := Extended(s.taken, k), phase := Window(k),
           calls := if k != kind then s.calls + [kind] else s.calls)
      case Timeout => s.(phase := Waiting, calls := s.calls + [kind])
      case Closed => s.(phase := Stopped, calls := s.calls + [kind])
  }

  datatype Step = Nudged(kind: Kind, bails: bool) | Woke(wake: Wakeup) | Shut

  predicate Possible(s: State, step: Step) {
    step.Woke? ==> Ready(s, step.wake) && (s.phase.Window? ==> s.taken != [])
  }

  function Next(s: State, step: Step): State
    requires Possible(s, step)
  {
    match step
    case Nudged(k, bails) => Offer(s, k, bails)
    case Woke(w) => WakeUp(s, w)
    case Shut => s.(done := true)
  }

  // ----- what the calls mean -----

  /** A list with adjacent repeats removed. */
  function Collapsed(kinds: seq<Kind>): seq<Kind> {
    if |kinds| <= 1 then kinds
    else
      var front := Collapsed(kinds[..|kinds| - 1]);
      if kinds[|kinds| - 1] == kinds[|kinds| - 2] then front else front + [kinds[|kinds| - 1]]
  }

  function Windows(taken: seq<seq<Kind>>): seq<Kind> {
    if taken == [] then [] else Windows(taken[..|taken| - 1]) + Collapsed(taken[|taken| - 1])
  }

  lemma {:induction false} CollapsedEndsAlike(kinds: seq<Kind>)
    requires kinds != []
    ensures Collapsed(kinds) != [] && Collapsed(kinds)[|Collapsed(kinds)| - 1] == kinds[|kinds| - 1]
  {
    if |kinds| > 1 { CollapsedEndsAlike(kinds[..|kinds| - 1]); }
  }

  /** No call repeats the one before it within a window, and every kind taken is among the calls. */
  lemma {:induction false} CollapsedKeepsKinds(kinds: seq<Kind>)
    ensures forall k :: k in kinds <==> k in Collapsed(kinds)
    ensures forall i :: 0 < i < |Collapsed(kinds)| ==> Collapsed(kinds)[i] != Collapsed(kinds)[i - 1]
  {
    if |kinds| > 1 {
      var n := |kinds| - 1;
      CollapsedKeepsKinds(kinds[..n]);
      CollapsedEndsAlike(kinds[..n]);
      assert kinds == kinds[..n] + [kinds[n]];
      assert kinds[..n][n - 1] == kinds[n - 1];
    }
  }

  /**
   The handler was called for every window taken, with its repeats removed; inside a window the last
   kind is the one call still owed.
   */
  predicate Answered(s: State) {
    && Full(s.taken)
    && (s.phase.Window? ==> EndsIn(s.taken, s.phase.kind) && Windows(s.taken) == s.calls + [s.phase.kind])
    && (!s.phase.Window? ==> Windows(s.taken) == s.calls)
  }

  /** No window is empty. */
  predicate Full(taken: seq<seq<Kind>>) {
    forall i :: 0 <= i < |taken| ==> taken[i] != []
  }

  predicate EndsIn(taken: seq<seq<Kind>>, k: Kind) {
    taken != [] && var w := taken[|taken| - 1]; w != [] && w[|w| - 1] == k
  }

  /** Every nudge offered was dropped by a full queue, waits in it, or was taken into a window. */
  function Count(taken: seq<seq<Kind>>): nat {
    if taken == [] then 0 else Count(taken[..|taken| - 1]) + |taken[|taken| - 1]|
  }

  predicate Conserved(s: State) {
    s.arrived == s.dropped + |s.queue| + Count(s.taken) && |s.queue| <= CAPACITY
  }

  lemma ExtendingWindow(taken: seq<seq<Kind>>, last: Kind, k: Kind)
    requires Full(taken) && EndsIn(taken, last)
    ensures Full(Extended(taken, k)) && EndsIn(Extended(taken, k), k)
    ensures Windows(Extended(taken, k)) == if last == k then Windows(taken) else Windows(taken) + [k]
    ensures Count(Extended(taken, k)) == Count(taken) + 1
  {
    var n := |taken| - 1;
    var w := taken[n] + [k];
    var e := Extended(taken, k);
    assert e[..|e| - 1] == taken[..n] && e[|e| - 1] == w;
    assert w[..|w| - 1] == taken[n];
  }

  lemma OpeningWindow(taken: seq<seq<Kind>>, k: Kind)
    requires Full(taken)
    ensures Full(taken + [[k]]) && EndsIn(taken + [[k]], k)
    ensures Windows(taken + [[k]]) == Windows(taken) + [k] && Count(taken + [[k]]) == Count(taken) + 1
  {
    assert (taken + [[k]])[..|taken|] == taken;
  }

  lemma StepKeepsAnswers(s: State, step: Step)
    requires Answered(s) && Conserved(s) && Possible(s, step)
    ensures Answered(Next(s, step)) && Conserved(Next(s, step))
  {
    hide Windows, Count, Extended, Full;
    if step.Woke? && step.wake.Took? {
      if s.phase.Waiting? { OpeningWindow(s.taken, step.wake.kind); }
      if s.phase.Window? { ExtendingWindow(s.taken, s.phase.kind, step.wake.kind); }
    }
  }

  function After(steps: seq<Step>): Option<State> {
    if steps == [] then Some(IDLE)
    else
      var before := After(steps[..|steps| - 1]);
      if before.Some? && Possible(before.value, steps[|steps| - 1]) then Some(Next(before.value, steps[|steps| - 1])) else None
  }

  /**
   In every run the calls are the windows' kinds with adjacent repeats removed, window by window, at
   shutdown as well, and no nudge is unaccounted for.
   */
  lemma {:induction false} EveryNudgeIsAnswered(steps: seq<Step>)
    requires After(steps).Some?
    ensures Answered(After(steps).value) && Conserved(After(steps).value)
  {
    hide Answered, Conserved, Next;
    if steps == [] {
      assert Answered(IDLE) && Conserved(IDLE) by { IdleIsAnswered(); }
    } else {
      EveryNudgeIsAnswered(steps[..|steps| - 1]);
      StepKeepsAnswers(After(steps[..|steps| - 1]).value, steps[|steps| - 1]);
    }
  }

  /** A connection handed the nudge on: it was not turned away by a closing server. */
  predicate Offers(s: State, step: Step) {
    step.Nudged? && !(s.done && step.bails)
  }

  ghost function Offered(steps: seq<Step>): nat
    requires After(steps).Some?
  {
    if steps == [] then 0
    else Offered(steps[..|steps| - 1]) + if Offers(After(steps[..|steps| - 1]).value, steps[|steps| - 1]) then 1 else 0
  }

  /** The offers that met a full queue. */
  ghost function Crowded(steps: seq<Step>): nat
    requires After(steps).Some?
  {
    if steps == [] then 0
    else
      var s := After(steps[..|steps| - 1]).value;
      Crowded(steps[..|steps| - 1]) + if Offers(s, steps[|steps| - 1]) && |s.queue| == CAPACITY then 1 else 0
  }

  /** In every run exactly the nudges that met a full queue are dropped; all the others wait or are taken. */
  lemma {:induction false} OnlyCrowdedAreDropped(steps: seq<Step>)
    requires After(steps).Some?
    ensures After(steps).value.dropped == Crowded(steps)
    ensures |After(steps).value.queue| + Count(After(steps).value.taken) == Offered(steps) - Crowded(steps)
  {
    hide Windows, Count, Answered, Extended;
    if steps == [] {
      assert Count([]) == 0 by { NothingTaken(); }
    } else {
      var n := |steps| - 1;
      OnlyCrowdedAreDropped(steps[..n]);
      EveryNudgeIsAnswered(steps[..n]);
      EveryNudgeIsAnswered(steps);
    }
  }

  lemma NothingTaken()
    ensures Count([]) == 0
  {
  }

  lemma IdleIsAnswered()
    ensures Answered(IDLE) && Conserved(IDLE)
  {
  }

  lemma StepGrowsWindows(s: State, step: Step)
    requires Answered(s) && Possible(s, step)
    ensures Windows(s.taken) <= Windows(Next(s, step).taken)
  {
    hide Windows, Count, Extended, Full;
    if step.Woke? && step.wake.Took? {
      if s.phase.Waiting? { OpeningWindow(s.taken, step.wake.kind); }
      if s.phase.Window? { ExtendingWindow(s.taken, s.phase.kind, step.wake.kind); }
    }
  }

  lemma {:induction false} RunGrowsWindows(steps: seq<Step>, n: nat)
    requires After(steps).Some? && n <= |steps|
    ensures After(steps[..n]).Some?
    ensures Windows(After(steps[..n]).value.taken) <= Windows(After(steps).value.taken)
  {
    hide Answered, Next, Windows, Possible;
    var m := |steps| - 1;
    if n == |steps| {
      assert steps[..n] == steps;
    } else {
      assert steps[..m][..n] == steps[..n];
      RunGrowsWindows(steps[..m], n);
      EveryNudgeIsAnswered(steps[..m]);
      StepGrowsWindows(After(steps[..m]).value, steps[m]);
    }
  }

  /**
   Every nudge taken off the queue is followed by a call of its own kind, made after it was taken, once
   its window is over; a shutdown that lands inside the window makes that call too.
   */
  lemma TakenIsCalledAfter(steps: seq<Step>, n: nat, k: Kind) returns (j: nat)
    requires After(steps).Some? && !After(steps).value.phase.Window?
    requires n < |steps| && steps[n] == Woke(Took(k)) && After(steps[..n]).Some? && !After(steps[..n]).value.phase.Stopped?
    ensures |After(steps[..n]).value.calls| <= j < |After(steps).value.calls| && After(steps).value.calls[j] == k
  {
    hide Windows, Extended, Full, Count, Possible;
    assert steps[..n + 1][..n] == steps[..n];
    RunGrowsWindows(steps, n + 1);
    EveryNudgeIsAnswered(steps[..n + 1]);
    EveryNudgeIsAnswered(steps);
    j := |After(steps[..n + 1]).value.calls|;
  }

  // ----- the loop as it runs -----

  class Dispatcher {
    var calls: seq<Kind>
    ghost var taken: seq<seq<Kind>>

    constructor ()
      ensures calls == [] && taken == []
    {
      calls, taken := [], [];
    }

    method Handle(kind: Kind)
      modifies `calls
      ensures calls == old(calls) + [kind]
    {
      calls := calls + [kind];
    }

    /** One window: takes nudges until its timer fires or the server closes, calling at each change of kind. */
    method Drain(first: Kind, wakes: seq<Wakeup>, from: nat) returns (n: nat, open: bool)
      requires from <= |wakes| && calls == Windows(taken) && Full(taken)
      modifies this
      ensures from <= n <= |wakes|
      ensures calls == Windows(taken) && Full(taken)
      ensures Taken(taken) + (if open then Consumed(wakes[n..]) else []) == Taken(old(taken)) + [first] + Consumed(wakes[from..])
    {
      hide Windows, Extended, Full, Taken;
      var kind := first;
      OpeningWindow(taken, kind);
      TakenOpens(taken, kind);
      taken := taken + [[kind]];
      n, open := from, true;
      while n < |wakes|
        invariant from <= n <= |wakes|
        invariant Full(taken) && EndsIn(taken, kind) && Windows(taken) == calls + [kind]
        invariant Taken(taken) + Consumed(wakes[n..]) == Taken(old(taken)) + [first] + Consumed(wakes[from..])
      {
        var w := wakes[n];
        assert wakes[n..][0] == w && wakes[n..][1..] == wakes[n + 1..];
        n := n + 1;
        if w.Took? {
          ExtendingWindow(taken, kind, w.kind);
          TakenExtends(taken, w.kind);
          taken := Extended(taken, w.kind);
          if w.kind != kind {
            Handle(kind);
            kind := w.kind;
          }
          continue;
        }
        open := w.Timeout?;
        break;
      }
      Handle(kind);
    }

    /** The dispatch loop over what its selects met; with no window open a timer cannot fire and is passed over. */
    method Dispatch(wakes: seq<Wakeup>)
      requires calls == Windows(taken) && Full(taken)
      modifies this
      ensures calls == Windows(taken) && Full(taken)
      ensures Taken(taken) == Taken(old(taken)) + Consumed(wakes)
    {
      hide Windows, Full, Taken, Consumed;
      var n, open := 0, true;
      ghost var all := Taken(taken) + Consumed(wakes);
      assert wakes[0..] == wakes;
      while open && n < |wakes|
        invariant n <= |wakes|
        invariant calls == Windows(taken) && Full(taken)
        invariant Taken(taken) + (if open then Consumed(wakes[n..]) else []) == all
        decreases |wakes| - n, open
      {
        var w := wakes[n];
        ConsumedFrom(wakes, n);
        n := n + 1;
        if w.Closed? {
          open := false;
        } else if w.Took? {
          assert Taken(taken) + ([w.kind] + Consumed(wakes[n..])) == Taken(taken) + [w.kind] + Consumed(wakes[n..]);
          n, open := Drain(w.kind, wakes, n);
        }
      }
      ConsumedEnds(wakes);
    }
  }

  /** All the kinds taken, in order. */
  function Taken(taken: seq<seq<Kind>>): seq<Kind> {
    if taken == [] then [] else Taken(taken[..|taken| - 1]) + taken[|taken| - 1]
  }

  /** The nudges a dispatcher takes out of what it meets, up to the closing. */
  function Consumed(wakes: seq<Wakeup>): seq<Kind> {
    if wakes == [] || wakes[0].Closed? then []
    else (if wakes[0].Took? then [wakes[0].kind] else []) + Consumed(wakes[1..])
  }

  lemma ConsumedFrom(wakes: seq<Wakeup>, n: nat)
    requires n < |wakes|
    ensures Consumed(wakes[n..]) ==
            match wakes[n] { case Closed => [] case Timeout => Consumed(wakes[n + 1..]) case Took(k) => [k] + Consumed(wakes[n + 1..]) }
  {
    assert wakes[n..][0] == wakes[n] && wakes[n..][1..] == wakes[n + 1..];
  }

  lemma ConsumedEnds(wakes: seq<Wakeup>)
    ensures Consumed(wakes[|wakes|..]) == []
  {
  }

  lemma TakenOpens(taken: seq<seq<Kind>>, k: Kind)
    ensures Taken(taken + [[k]]) == Taken(taken) + [k]
  {
    assert (taken + [[k]])[..|taken|] == taken;
  }

  lemma TakenExtends(taken: seq<seq<Kind>>, k: Kind)
    requires taken != []
    ensures Taken(Extended(taken, k)) == Taken(taken) + [k]
  {
    var e := Extended(taken, k);
    assert e[..|e| - 1] == taken[..|taken| - 1];
  }
}
