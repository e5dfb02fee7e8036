/** What every interleaving of the stream reader with appends and prunes keeps. */
module EventStreamRuns {
  import opened EventLog
  import opened EventStream
  import opened Wrappers

  // ----- what the output accounts for -----

  predicate Positional(line: Line) {
    line.Gap? || line.Shown?
  }

  function Lo(line: Line): int
    requires Positional(line)
  {
    if line.Gap? then line.first else line.event.seqNo
  }

  function Hi(line: Line): int
    requires Positional(line)
  {
    if line.Gap? then line.last else line.event.seqNo
  }

  predicate Covers(line: Line, n: int) {
    Positional(line) && Lo(line) <= n <= Hi(line)
  }

  /** Events and gaps follow one another upwards. */
  ghost predicate Ascending(out: seq<Line>) {
    forall i, j :: 0 <= i < j < |out| && Positional(out[i]) && Positional(out[j]) ==> Hi(out[i]) < Lo(out[j])
  }

  ghost predicate InGap(out: seq<Line>, n: int) {
    exists i :: 0 <= i < |out| && out[i].Gap? && Covers(out[i], n)
  }

  ghost predicate Printed(out: seq<Line>, ev: Event) {
    Shown(ev) in out
  }

  /** Holds of the reader at every instant of every run. */
  ghost predicate Sound(v: View, l: Log) {
    && l.Valid()
    && v.start <= v.cursor <= l.head
    && Ascending(v.out)
    && (forall i :: 0 <= i < |v.out| && Positional(v.out[i]) ==> v.start < Lo(v.out[i]) <= Hi(v.out[i]) <= v.cursor)
    && (forall ev :: Printed(v.out, ev) ==> ev in l.events && Visible(ev, v.includeSelf))
    && (forall k :: 0 <= k < |l.events| && InGap(v.out, l.events[k].seqNo) ==> k < l.pruned)
  }

  /** An event the reader has passed without printing it or admitting that it was lost. */
  ghost predicate Missed(v: View, ev: Event) {
    && v.start < ev.seqNo <= v.cursor
    && Visible(ev, v.includeSelf)
    && !Printed(v.out, ev) && !InGap(v.out, ev.seqNo)
  }

  ghost predicate Complete(v: View, l: Log) {
    forall k :: 0 <= k < |l.events| ==> !Missed(v, l.events[k])
  }

  lemma Later(v: View, l: Log, later: Log)
    requires Sound(v, l) && l.Evolves(later)
    ensures Sound(v, later)
    ensures Complete(v, later) <==> Complete(v, l)
  {
    forall k | 0 <= k < |later.events|
      ensures InGap(v.out, later.events[k].seqNo) ==> k < later.pruned
      ensures k < |l.events| ==> later.events[k] == l.events[k]
      ensures k >= |l.events| ==> later.events[k].seqNo > v.cursor
    {}
  }

  /** A number inside a reported gap is never an event the reader could still get. */
  lemma GapNeverArrives(v: View, l: Log, later: Log, k: nat)
    requires Sound(v, l) && l.Evolves(later) && k < |later.events|
    requires InGap(v.out, later.events[k].seqNo)
    ensures k < l.pruned <= later.pruned
  {
    Later(v, l, later);
  }

  lemma AtMostOneLine(out: seq<Line>, i: nat, j: nat, n: int)
    requires Ascending(out) && i < |out| && j < |out| && Covers(out[i], n) && Covers(out[j], n)
    ensures i == j
  {
  }

  lemma PrintedIsNotInGap(v: View, ev: Event)
    requires Ascending(v.out) && Printed(v.out, ev)
    ensures !InGap(v.out, ev.seqNo)
  {
    var i :| 0 <= i < |v.out| && v.out[i] == Shown(ev);
    forall j | 0 <= j < |v.out| && Covers(v.out[j], ev.seqNo) ensures !v.out[j].Gap? {
      AtMostOneLine(v.out, i, j, ev.seqNo);
    }
  }

  /**
   Every event between the start and the cursor of a complete run is exactly one of: printed, inside a
   reported gap, or the orchestrator's own and filtered out; and no two lines answer for it.
   */
  lemma ExactlyOnce(v: View, l: Log, ev: Event)
    requires Sound(v, l) && Complete(v, l) && ev in l.events && v.start < ev.seqNo <= v.cursor
    ensures Visible(ev, v.includeSelf) ==> (Printed(v.out, ev) <==> !InGap(v.out, ev.seqNo))
    ensures !Visible(ev, v.includeSelf) ==> !Printed(v.out, ev)
    ensures forall i, j :: 0 <= i < |v.out| && 0 <= j < |v.out| && Covers(v.out[i], ev.seqNo) && Covers(v.out[j], ev.seqNo) ==> i == j
  {
    assert !Missed(v, ev);
    if Printed(v.out, ev) { PrintedIsNotInGap(v, ev); }
    forall i, j | 0 <= i < |v.out| && 0 <= j < |v.out| && Covers(v.out[i], ev.seqNo) && Covers(v.out[j], ev.seqNo) ensures i == j {
      AtMostOneLine(v.out, i, j, ev.seqNo);
    }
  }

  // ----- one more line of output -----

  lemma InGapAppend(out: seq<Line>, line: Line, n: int)
    ensures InGap(out + [line], n) <==> InGap(out, n) || (line.Gap? && Covers(line, n))
  {
    var all := out + [line];
    assert all[|out|] == line;
    if InGap(out, n) {
      var i :| 0 <= i < |out| && out[i].Gap? && Covers(out[i], n);
      assert all[i] == out[i];
    }
  }

  /** Nothing above the cursor has been printed or reported lost. */
  lemma Ahead(v: View, l: Log, ev: Event)
    requires Sound(v, l) && v.cursor < ev.seqNo
    ensures !Printed(v.out, ev) && !InGap(v.out, ev.seqNo)
  {
    forall i | 0 <= i < |v.out| ensures !Covers(v.out[i], ev.seqNo) && v.out[i] != Shown(ev) {}
  }

  lemma GapKeeps(v: View, l: Log, last: int)
    requires Sound(v, l) && v.cursor < last <= l.head
    requires forall k :: 0 <= k < |l.events| && v.cursor < l.events[k].seqNo <= last ==> k < l.pruned
    ensures Sound(WithGap(v, last), l)
    ensures Complete(v, l) ==> Complete(WithGap(v, last), l)
    ensures !Complete(v, l) ==> !Complete(WithGap(v, last), l)
  {
    var line := Gap(v.cursor + 1, last);
    var w := WithGap(v, last);
    forall k | 0 <= k < |l.events|
      ensures InGap(w.out, l.events[k].seqNo) ==> k < l.pruned
      ensures Missed(w, l.events[k]) <==> Missed(v, l.events[k])
    {
      InGapAppend(v.out, line, l.events[k].seqNo);
      if v.cursor < l.events[k].seqNo { Ahead(v, l, l.events[k]); }
    }
    forall ev | Printed(w.out, ev) ensures Printed(v.out, ev) {}
  }

  /** One event of a batch: the events newly missed are exactly the visible ones stepped over. */
  lemma EventKeeps(v: View, l: Log, k: nat)
    requires Sound(v, l) && k < |l.events| && v.cursor < l.events[k].seqNo
    ensures Sound(WithEvent(v, l.events[k]), l)
    ensures forall i :: 0 <= i < |l.events| ==>
              (Missed(WithEvent(v, l.events[k]), l.events[i])
               <==> Missed(v, l.events[i]) || (i < k && v.cursor < l.events[i].seqNo && Visible(l.events[i], v.includeSelf)))
  {
    var ev := l.events[k];
    var w := WithEvent(v, ev);
    forall m: int ensures InGap(w.out, m) <==> InGap(v.out, m) {
      InGapAppend(v.out, Shown(ev), m);
    }
    forall e ensures Printed(w.out, e) <==> Printed(v.out, e) || (e == ev && Visible(ev, v.includeSelf)) {
      if e == ev && Visible(ev, v.includeSelf) { assert w.out[|v.out|] == Shown(ev); }
      if Printed(v.out, e) {
        var i :| 0 <= i < |v.out| && v.out[i] == Shown(e);
        assert w.out[i] == Shown(e);
      }
    }
    forall i | 0 <= i < |l.events|
      ensures Missed(w, l.events[i])
              <==> Missed(v, l.events[i]) || (i < k && v.cursor < l.events[i].seqNo && Visible(l.events[i], v.includeSelf))
    {
      assert i < k ==> l.events[i].seqNo < ev.seqNo;
      assert i > k ==> l.events[i].seqNo > ev.seqNo;
      if v.cursor < l.events[i].seqNo { Ahead(v, l, l.events[i]); }
    }
  }

  // ----- the batch -----

  /** Visible events between the cursor and position k, which the log no longer offers. */
  ghost predicate Beneath(v: View, l: Log, k: nat)
    requires k <= |l.events|
  {
    exists i :: 0 <= i < k && v.cursor < l.events[i].seqNo && Visible(l.events[i], v.includeSelf)
  }

  predicate Moves(v: View, evs: seq<Event>, room: nat) {
    evs != [] && (room > 0 || !Visible(evs[0], v.includeSelf))
  }

  /** A delivered run of the log stays complete exactly when it steps over nothing that lay beneath it. */
  lemma {:induction false} DeliverKeeps(r: Reader, l: Log, k: nat, evs: seq<Event>, room: nat)
    requires Sound(r.view, l) && k + |evs| <= |l.events| && evs == l.events[k..k + |evs|]
    requires evs != [] ==> r.view.cursor < l.events[k].seqNo
    ensures Sound(Deliver(r, evs, room).view, l)
    ensures Complete(Deliver(r, evs, room).view, l)
            <==> Complete(r.view, l) && !(Moves(r.view, evs, room) && Beneath(r.view, l, k))
    decreases |evs|
  {
    if Moves(r.view, evs, room) {
      assert evs[0] == l.events[k] && evs[1..] == l.events[k + 1..k + |evs|];
      var v := WithEvent(r.view, evs[0]);
      EventKeeps(r.view, l, k);
      assert Complete(v, l) <==> Complete(r.view, l) && !Beneath(r.view, l, k);
      assert !Beneath(v, l, k + 1);
      assert |evs| > 1 ==> l.events[k].seqNo < l.events[k + 1].seqNo;
      DeliverKeeps(r.(view := v), l, k + 1, evs[1..], if Visible(evs[0], r.view.includeSelf) then room - 1 else room);
    }
  }

  // ----- the gap check -----

  /** Where the batch starts in the log, and that everything the reader skips below it is gone. */
  lemma BatchBegins(r: Reader, p: Poll, before: Log) returns (k: nat)
    requires p.Follows(before) && p.readOk
    ensures p.atRead.pruned <= k <= k + |Batch(r, p)| <= |p.atRead.events|
    ensures Batch(r, p) == p.atRead.events[k..k + |Batch(r, p)|]
    ensures forall i :: p.atRead.pruned <= i < |p.atRead.events| ==> (p.atRead.events[i].seqNo <= r.view.cursor <==> i < k)
    ensures |Batch(r, p)| <= STREAM_BATCH && (|Batch(r, p)| < STREAM_BATCH ==> k + |Batch(r, p)| == |p.atRead.events|)
    ensures Batch(r, p) != [] ==> Batch(r, p)[0] == p.atRead.events[k]
  {
    k := SinceIsARun(p.atRead, r.view.cursor, STREAM_BATCH);
  }

  function Bound(r: Reader, p: Poll): int {
    PrunedUnder(p.atHead.head, p.atFloor.Floor(), Batch(r, p))
  }

  /** Everything the bound covers had been pruned when the floor was read: head first, floor second. */
  lemma BoundIsSound(r: Reader, p: Poll, before: Log)
    requires Sound(r.view, before) && p.Follows(before) && p.readOk
    ensures Bound(r, p) <= p.atFloor.head
    ensures forall i :: p.atFloor.pruned <= i < |p.atFloor.events| ==>
              p.atFloor.events[i].seqNo <= r.view.cursor || Bound(r, p) < p.atFloor.events[i].seqNo
  {
    var now := p.atFloor;
    forall i | now.pruned <= i < |now.events|
      ensures now.events[i].seqNo <= r.view.cursor || Bound(r, p) < now.events[i].seqNo
    {
      assert now.Floor() == now.events[now.pruned].seqNo;
      assert i > now.pruned ==> now.events[now.pruned].seqNo < now.events[i].seqNo;
    }
  }

  /** How far the check lets the cursor go before the batch. */
  function Passed(r: Reader, p: Poll): int {
    if Bound(r, p) <= r.view.cursor then r.view.cursor else Bound(r, p)
  }

  /** And it covers all that is gone: nothing issued by the time of the read lies uncovered beneath the batch. */
  lemma BoundIsEnough(r: Reader, p: Poll, before: Log, k: nat)
    requires Sound(r.view, before) && p.Follows(before) && p.readOk
    requires p.atRead.pruned <= k <= |p.atRead.events|
    requires forall i :: p.atRead.pruned <= i < k ==> p.atRead.events[i].seqNo <= r.view.cursor
    requires Batch(r, p) == [] ==> k == |p.atRead.events|
    requires Batch(r, p) != [] ==> k < |p.atRead.events| && Batch(r, p)[0] == p.atRead.events[k]
    ensures forall i :: 0 <= i < k ==> p.atRead.events[i].seqNo <= Passed(r, p)
  {
    EvolvesTransitive(p.atRead, p.atHead, p.atFloor);
    var now := p.atFloor;
    forall i | 0 <= i < p.atRead.pruned ensures p.atRead.events[i].seqNo <= Bound(r, p) {
      assert now.events[i] == p.atRead.events[i];
      assert now.pruned < |now.events| ==> now.events[i].seqNo < now.events[now.pruned].seqNo;
      assert k < |p.atRead.events| ==> p.atRead.events[i].seqNo < p.atRead.events[k].seqNo;
      assert p.atRead.events[i].seqNo <= p.atRead.head <= p.atHead.head;
    }
  }

  lemma CheckKeeps(r: Reader, p: Poll, before: Log)
    requires Sound(r.view, before) && p.Follows(before) && r.open
    ensures Sound(Check(r, p).view, p.atFloor)
    ensures Complete(Check(r, p).view, p.atFloor) <==> Complete(r.view, before)
  {
    EvolvesTransitive(p.atRead, p.atHead, p.atFloor);
    EvolvesTransitive(before, p.atRead, p.atFloor);
    Later(r.view, before, p.atFloor);
    if Check(r, p).view != r.view {
      BoundIsSound(r, p, before);
      GapKeeps(r.view, p.atFloor, Bound(r, p));
    }
  }

  // ----- one turn -----

  /** The one way a turn loses an event silently: a failed gap check while a batch steps over a pruned event. */
  ghost predicate Loses(r: Reader, p: Poll) {
    && r.open && p.readOk && !(p.headOk && p.floorOk)
    && Moves(r.view, Batch(r, p), p.room)
    && exists ev :: ev in p.atRead.events && r.view.cursor < ev.seqNo < Batch(r, p)[0].seqNo && Visible(ev, r.view.includeSelf)
  }

  lemma BeneathIsUnprinted(v: View, l: Log, later: Log, k: nat)
    requires l.Valid() && l.events <= later.events && k < |l.events|
    ensures Beneath(v, later, k)
            <==> exists ev :: ev in l.events && v.cursor < ev.seqNo < l.events[k].seqNo && Visible(ev, v.includeSelf)
  {
    forall i | 0 <= i < |l.events| ensures l.events[i].seqNo < l.events[k].seqNo <==> i < k {}
    if Beneath(v, later, k) {
      var i :| 0 <= i < k && v.cursor < later.events[i].seqNo && Visible(later.events[i], v.includeSelf);
      assert l.events[i] in l.events && l.events[i] == later.events[i];
    }
    if ev :| ev in l.events && v.cursor < ev.seqNo < l.events[k].seqNo && Visible(ev, v.includeSelf) {
      var i :| 0 <= i < |l.events| && l.events[i] == ev;
      assert later.events[i] == ev;
    }
  }

  /** After the gap check, a pruned event is still beneath the batch exactly when the turn loses it. */
  lemma BeneathIsLoss(r: Reader, p: Poll, before: Log, k: nat)
    requires Sound(r.view, before) && p.Follows(before) && r.open && p.readOk && Check(r, p).open
    requires k < |p.atRead.events| && p.atRead.events <= p.atFloor.events
    requires Batch(r, p) != [] && Batch(r, p)[0] == p.atRead.events[k]
    requires forall i :: 0 <= i < k ==> p.atRead.events[i].seqNo <= Passed(r, p)
    ensures Moves(Check(r, p).view, Batch(r, p), RoomAfterCheck(r, p)) && Beneath(Check(r, p).view, p.atFloor, k) <==> Loses(r, p)
  {
    var c := Check(r, p);
    if p.headOk && p.floorOk {
      assert c.view.cursor == Passed(r, p);
      forall i | 0 <= i < k ensures p.atFloor.events[i].seqNo <= c.view.cursor {
        assert p.atFloor.events[i] == p.atRead.events[i];
      }
    } else {
      BeneathIsUnprinted(r.view, p.atRead, p.atFloor, k);
    }
  }

  lemma BatchKeeps(r: Reader, p: Poll, before: Log)
    requires Sound(r.view, before) && p.Follows(before) && r.open && p.readOk && Check(r, p).open
    requires p.atRead.events <= p.atFloor.events
    requires Sound(Check(r, p).view, p.atFloor)
    ensures Sound(Step(r, p).view, p.atFloor)
    ensures Complete(Step(r, p).view, p.atFloor) <==> Complete(Check(r, p).view, p.atFloor) && !Loses(r, p)
  {
    var c, evs := Check(r, p), Batch(r, p);
    var k := BatchBegins(r, p, before);
    var room := RoomAfterCheck(r, p);
    assert Step(r, p) == Deliver(c, evs, room);
    assert evs == p.atFloor.events[k..k + |evs|];
    assert evs != [] ==> (Moves(c.view, evs, room) && Beneath(c.view, p.atFloor, k) <==> Loses(r, p)) && c.view.cursor < p.atFloor.events[k].seqNo by {
      if evs != [] {
        BoundIsEnough(r, p, before, k);
        BeneathIsLoss(r, p, before, k);
        BatchIsAhead(r, p, before, k);
      }
    }
    DeliverKeeps(c, p.atFloor, k, evs, room);
  }

  lemma BatchIsAhead(r: Reader, p: Poll, before: Log, k: nat)
    requires Sound(r.view, before) && p.Follows(before) && p.readOk && Check(r, p).open
    requires p.atRead.pruned <= k < |p.atRead.events| && p.atRead.events <= p.atFloor.events
    requires Batch(r, p) != [] && Batch(r, p)[0] == p.atRead.events[k]
    requires forall i :: p.atRead.pruned <= i < |p.atRead.events| ==> (p.atRead.events[i].seqNo <= r.view.cursor <==> i < k)
    ensures Check(r, p).view.cursor < p.atFloor.events[k].seqNo
  {
    assert p.atFloor.events[k] == p.atRead.events[k];
    assert r.view.cursor < p.atRead.events[k].seqNo && Bound(r, p) < Batch(r, p)[0].seqNo;
  }

  lemma StepKeeps(r: Reader, p: Poll, before: Log)
    requires Sound(r.view, before) && p.Follows(before)
    ensures Sound(Step(r, p).view, p.atFloor)
    ensures Complete(Step(r, p).view, p.atFloor) <==> Complete(r.view, before) && !Loses(r, p)
  {
    EvolvesTransitive(p.atRead, p.atHead, p.atFloor);
    EvolvesTransitive(before, p.atRead, p.atFloor);
    Later(r.view, before, p.atFloor);
    if r.open {
      CheckKeeps(r, p, before);
      if p.readOk && Check(r, p).open { BatchKeeps(r, p, before); }
    }
  }

  // ----- whole runs -----

  function LogAfter(before: Log, polls: seq<Poll>): Log {
    if polls == [] then before else polls[|polls| - 1].atFloor
  }

  /** Each turn starts from the log the turn before it ended with. */
  ghost predicate Interleaving(before: Log, polls: seq<Poll>) {
    polls == [] ||
    var n := |polls| - 1;
    Interleaving(before, polls[..n]) && polls[n].Follows(LogAfter(before, polls[..n]))
  }

  /** No turn loses an event silently. */
  ghost predicate NoLoss(r: Reader, polls: seq<Poll>) {
    polls == [] ||
    var n := |polls| - 1;
    NoLoss(r, polls[..n]) && !Loses(Run(r, polls[..n]), polls[n])
  }

  /** Where a stream starts, and what its header says of it. */
  ghost predicate StartsAs(v: View, resume: Option<int>, head: nat, floor: int) {
    var header, oldest := [Header(head, floor)], if floor == 0 then head + 1 else floor;
    if resume.None? then v.start == v.cursor == head && v.out == header
    else if resume.value > head then v.start == v.cursor == head && v.out == header + [Reset(resume.value, head)]
    else
      v.start == resume.value
      && (if resume.value + 1 < oldest then v.cursor == oldest - 1 && v.out == header + [Gap(resume.value + 1, oldest - 1)]
          else v.cursor == resume.value && v.out == header)
  }

  /**
   A stream opens exactly when the flag and both reads are good. Without a number it follows from the head;
   a number never issued is answered with a reset to the head; any other is resumed at, with a gap exactly
   when the next number lies below the oldest retained. Either way everything up to its cursor is accounted for.
   */
  lemma OpenKeeps(resume: Option<int>, includeSelf: bool, headOk: bool, atHead: Log, floorOk: bool, atFloor: Log)
    requires atHead.Evolves(atFloor)
    ensures var result := Open(resume, includeSelf, headOk, atHead, floorOk, atFloor);
            && (result.None? <==> (resume.Some? && resume.value < 0) || !headOk || !floorOk)
            && (result.Some? ==> Sound(result.value.view, atFloor) && Complete(result.value.view, atFloor)
                                 && !result.value.settled && result.value.open && result.value.view.includeSelf == includeSelf
                                 && StartsAs(result.value.view, resume, atHead.head, atFloor.Floor()))
  {
    hide Sound, Complete, StartsAs;
    OpenStarts(resume, includeSelf, headOk, atHead, floorOk, atFloor);
    var result := Open(resume, includeSelf, headOk, atHead, floorOk, atFloor);
    if result.Some? { StartIsAccountedFor(result.value.view, resume, atHead, atFloor); }
  }

  lemma OpenStarts(resume: Option<int>, includeSelf: bool, headOk: bool, atHead: Log, floorOk: bool, atFloor: Log)
    ensures var result := Open(resume, includeSelf, headOk, atHead, floorOk, atFloor);
            result.Some? ==> StartsAs(result.value.view, resume, atHead.head, atFloor.Floor()) && (resume.Some? ==> resume.value >= 0)
  {
    hide Log.Floor;
  }

  lemma StartIsAccountedFor(v: View, resume: Option<int>, atHead: Log, atFloor: Log)
    requires atHead.Evolves(atFloor) && StartsAs(v, resume, atHead.head, atFloor.Floor()) && (resume.Some? ==> resume.value >= 0)
    ensures Sound(v, atFloor) && Complete(v, atFloor)
  {
    hide Sound, Complete, Log.Floor;
    var header := [Header(atHead.head, atFloor.Floor())];
    if |v.out| == 2 && v.out[1].Gap? {
      var plain := View(v.start, v.start, header, v.includeSelf);
      NothingPassed(plain, atFloor);
      UnderTheFloor(atHead, atFloor, v.start);
      GapKeeps(plain, atFloor, v.cursor);
    } else {
      NothingPassed(v, atFloor);
    }
  }

  lemma NothingPassed(v: View, l: Log)
    requires l.Valid() && v.start == v.cursor <= l.head && forall i :: 0 <= i < |v.out| ==> !Positional(v.out[i])
    ensures Sound(v, l) && Complete(v, l)
  {
  }

  /** Everything numbered below the floor was pruned, and with nothing retained everything up to the head. */
  lemma UnderTheFloor(atHead: Log, atFloor: Log, start: int)
    requires atHead.Evolves(atFloor)
    ensures var oldest := if atFloor.Floor() == 0 then atHead.head + 1 else atFloor.Floor();
            oldest - 1 <= atFloor.head
            && forall k :: 0 <= k < |atFloor.events| && start < atFloor.events[k].seqNo <= oldest - 1 ==> k < atFloor.pruned
  {
    var l := atFloor;
    if l.pruned < |l.events| {
      assert l.Floor() == l.events[l.pruned].seqNo;
    } else {
      assert l.Retained() == [];
    }
  }

  /**
   Over every interleaving the output stays sound, and it is complete exactly when no turn's gap check
   failed while its batch stepped over a pruned event.
   */
  lemma {:induction false} RunKeeps(r: Reader, before: Log, polls: seq<Poll>)
    requires Sound(r.view, before) && Interleaving(before, polls)
    ensures Sound(Run(r, polls).view, LogAfter(before, polls))
    ensures Complete(Run(r, polls).view, LogAfter(before, polls))
            <==> Complete(r.view, before) && NoLoss(r, polls)
  {
    if polls != [] {
      var n := |polls| - 1;
      var init := polls[..n];
      RunKeeps(r, before, init);
      StepKeeps(Run(r, init), polls[n], LogAfter(before, init));
    }
  }

  lemma {:induction false} CheckedRunLosesNothing(r: Reader, polls: seq<Poll>)
    requires forall p :: p in polls ==> p.headOk && p.floorOk
    ensures NoLoss(r, polls)
  {
    if polls != [] {
      CheckedRunLosesNothing(r, polls[..|polls| - 1]);
      assert polls[|polls| - 1] in polls;
    }
  }

  /** A run whose gap checks all succeed accounts for everything it passes. */
  lemma CheckedRunIsComplete(r: Reader, before: Log, polls: seq<Poll>)
    requires Sound(r.view, before) && Complete(r.view, before) && Interleaving(before, polls)
    requires forall p :: p in polls ==> p.headOk && p.floorOk
    ensures Complete(Run(r, polls).view, LogAfter(before, polls))
  {
    CheckedRunLosesNothing(r, polls);
    RunKeeps(r, before, polls);
  }

  /** The loss is real: one failed head read, with a prune before the read, hides an event for good. */
  lemma FailedCheckHidesAnEvent() returns (r: Reader, before: Log, p: Poll)
    ensures Sound(r.view, before) && Complete(r.view, before) && Interleaving(before, [p])
    ensures !Complete(Run(r, [p]).view, LogAfter(before, [p]))
  {
    hide Sound, Complete, Interleaving, NoLoss, Run, LogAfter;
    r, before, p := LosingTurn();
    RunKeeps(r, before, [p]);
  }

  lemma LosingTurn() returns (r: Reader, before: Log, p: Poll)
    ensures Sound(r.view, before) && Complete(r.view, before) && Interleaving(before, [p]) && !NoLoss(r, [p])
  {
    hide Sound, Complete;
    before := Log([Event(1, "a")], 0, 1);
    var at := Log([Event(1, "a"), Event(2, "a")], 1, 2);
    p := Poll(at, true, at, false, at, true, false, 10);
    r := Reader(View(0, 0, [], false), false, true);
    NothingPassedYet(r, before);
    assert before.Evolves(at) && at.Evolves(at) && [p][..0] == [];
    assert Interleaving(before, []) && Interleaving(before, [p]);
    assert at.Retained() == [Event(2, "a")];
    assert Batch(r, p) == [Event(2, "a")];
    assert at.events[0] in p.atRead.events && Visible(at.events[0], false);
    assert Loses(r, p) && Run(r, []) == r;
  }

  lemma NothingPassedYet(r: Reader, l: Log)
    requires r == Reader(View(0, 0, [], false), false, true) && l.Valid()
    ensures Sound(r.view, l) && Complete(r.view, l)
  {
  }

  /** Asking for the floor before the head would report an event that is still there as lost. */
  lemma FloorFirstIsUnsound() returns (l: Log, later: Log)
    ensures l.Evolves(later) && PrunedUnder(later.head, l.Floor(), []) == 1 && later.Floor() == 1
  {
    l := Log([], 0, 0);
    later := Append(l, "a");
    AppendAndPruneEvolve(l, "a", 0);
    assert later.Retained() == [Event(1, "a")];
  }

  // ----- what a turn delivers -----

  /** The lines a reader sees of a run of events. */
  function Lines(evs: seq<Event>, includeSelf: bool): seq<Line> {
    if evs == [] then []
    else (if Visible(evs[0], includeSelf) then [Shown(evs[0])] else []) + Lines(evs[1..], includeSelf)
  }

  lemma {:induction false} DeliverPrintsAll(r: Reader, evs: seq<Event>, room: nat)
    requires room >= |Lines(evs, r.view.includeSelf)|
    ensures var u := Deliver(r, evs, room);
            && u.open == r.open && u.settled == r.settled
            && u.view == View(r.view.start, if evs == [] then r.view.cursor else evs[|evs| - 1].seqNo,
                              r.view.out + Lines(evs, r.view.includeSelf), r.view.includeSelf)
    decreases |evs|
  {
    if evs != [] {
      var ev, v := evs[0], WithEvent(r.view, evs[0]);
      DeliverPrintsAll(r.(view := v), evs[1..], if Visible(ev, r.view.includeSelf) then room - 1 else room);
      assert r.view.out + Lines(evs, r.view.includeSelf)
             == v.out + Lines(evs[1..], r.view.includeSelf);
    }
  }

  /** At most one gap line comes before a batch, and with room for it the pipe stays open. */
  lemma CheckAddsAtMostAGap(r: Reader, p: Poll)
    requires r.open && p.room > 0
    ensures var c := Check(r, p);
            && c.open && c.view == r.view.(cursor := c.view.cursor, out := c.view.out)
            && (c.view == r.view || (c.view.cursor > r.view.cursor && c.view.out == r.view.out + [Gap(r.view.cursor + 1, c.view.cursor)]))
            && RoomAfterCheck(r, p) >= p.room - 1
  {
    hide Batch, PrunedUnder;
  }

  /**
   A turn whose read lands, with room for a gap and the batch, prints the batch whole: at most one gap
   line, then its visible events in order, and the cursor stands at its last number.
   */
  lemma TurnDelivers(r: Reader, p: Poll) returns (gaps: seq<Line>)
    requires r.open && p.readOk
    requires p.room > |Lines(p.atRead.Since(r.view.cursor, STREAM_BATCH), r.view.includeSelf)|
    ensures |gaps| <= 1 && forall i :: 0 <= i < |gaps| ==> gaps[i].Gap? && gaps[i].first == r.view.cursor + 1
    ensures var evs, u := p.atRead.Since(r.view.cursor, STREAM_BATCH), Step(r, p);
            && u.open && u.view.out == r.view.out + gaps + Lines(evs, r.view.includeSelf)
            && (if evs == [] then u.view.cursor >= r.view.cursor else u.view.cursor == evs[|evs| - 1].seqNo)
  {
    hide Check, RoomAfterCheck;
    var evs, c := Batch(r, p), Check(r, p);
    CheckAddsAtMostAGap(r, p);
    DeliverPrintsAll(c, evs, RoomAfterCheck(r, p));
    assert Step(r, p) == Deliver(c, evs, RoomAfterCheck(r, p));
    gaps := if c.view == r.view then [] else [Gap(r.view.cursor + 1, c.view.cursor)];
    assert c.view.out == r.view.out + gaps;
  }

  // ----- the settled shortcut -----

  lemma SettledStep(r: Reader, p: Poll, before: Log)
    requires Sound(r.view, before) && p.Follows(before) && r.open && Check(r, p).open
    requires Step(r, p).settled && Checks(r, p)
    ensures forall i :: 0 <= i < |p.atRead.events| ==> p.atRead.events[i].seqNo <= Step(r, p).view.cursor
  {
    var k := BatchBegins(r, p, before);
    DeliverKeepsSettled(Check(r, p), Batch(r, p), RoomAfterCheck(r, p));
    BoundIsEnough(r, p, before, k);
    assert Batch(r, p) == [] && Passed(r, p) == r.view.cursor;
  }

  lemma {:induction false} DeliverKeepsSettled(r: Reader, evs: seq<Event>, room: nat)
    ensures Deliver(r, evs, room).settled == r.settled
    ensures evs == [] ==> Deliver(r, evs, room) == r
    decreases |evs|
  {
    if evs != [] {
      var next := r.(view := WithEvent(r.view, evs[0]));
      if !Visible(evs[0], r.view.includeSelf) { DeliverKeepsSettled(next, evs[1..], room); }
      else if room > 0 { DeliverKeepsSettled(next, evs[1..], room - 1); }
    }
  }

  lemma CheckMovesForward(r: Reader, p: Poll)
    ensures r.view.cursor <= Check(r, p).view.cursor
    ensures Batch(r, p) != [] && r.view.cursor < Batch(r, p)[0].seqNo ==> Check(r, p).view.cursor < Batch(r, p)[0].seqNo
    ensures !p.readOk ==> Batch(r, p) == []
  {
    hide Batch;
    assert !p.readOk ==> Batch(r, p) == [] by { UnreadIsEmpty(r, p); }
  }

  lemma UnreadIsEmpty(r: Reader, p: Poll)
    ensures !p.readOk ==> Batch(r, p) == []
  {
  }

  lemma StepMovesForward(r: Reader, p: Poll, before: Log)
    requires Sound(r.view, before) && p.Follows(before)
    ensures r.view.cursor <= Step(r, p).view.cursor
  {
    hide Check, Batch, Sound, RoomAfterCheck;
    CheckMovesForward(r, p);
    if r.open && p.readOk && Check(r, p).open {
      var k := BatchBegins(r, p, before);
      DeliverMovesForward(Check(r, p), p.atRead, k, |Batch(r, p)|, RoomAfterCheck(r, p));
    }
  }

  lemma {:induction false} DeliverMovesForward(r: Reader, l: Log, k: nat, n: nat, room: nat)
    requires l.Valid() && k + n <= |l.events|
    requires n > 0 ==> r.view.cursor < l.events[k].seqNo
    ensures r.view.cursor <= Deliver(r, l.events[k..k + n], room).view.cursor
    decreases n
  {
    var evs := l.events[k..k + n];
    if Moves(r.view, evs, room) {
      assert evs[1..] == l.events[k + 1..k + n];
      assert n > 1 ==> l.events[k].seqNo < l.events[k + 1].seqNo;
      DeliverMovesForward(r.(view := WithEvent(r.view, evs[0])), l, k + 1, n - 1,
                          if Visible(evs[0], r.view.includeSelf) then room - 1 else room);
    }
  }

  // ----- catching up -----

  /** How many events of the log the cursor has still to pass. */
  function Remaining(evs: seq<Event>, cursor: int): nat {
    |DropThrough(evs, cursor)|
  }

  lemma RemainingIs(l: Log, cursor: int, j: nat)
    requires l.Valid() && j <= |l.events| && forall i :: 0 <= i < |l.events| ==> (l.events[i].seqNo <= cursor <==> i < j)
    ensures Remaining(l.events, cursor) == |l.events| - j
  {
    var k := DropThroughIsSuffix(l.events, cursor);
    if k < |l.events| { assert l.events[k].seqNo > cursor; }
    if j < |l.events| { assert l.events[j].seqNo > cursor; }
  }

  lemma RemainingAtLeast(l: Log, cursor: int, j: nat)
    requires l.Valid() && j <= |l.events| && (j < |l.events| ==> l.events[j].seqNo > cursor)
    ensures Remaining(l.events, cursor) >= |l.events| - j
  {
    var k := DropThroughIsSuffix(l.events, cursor);
  }

  lemma {:induction false} FewLines(evs: seq<Event>, includeSelf: bool)
    ensures |Lines(evs, includeSelf)| <= |evs|
  {
    if evs != [] { FewLines(evs[1..], includeSelf); }
  }

  /** All reads land and the pipe has room for a gap and a full batch. */
  predicate Healthy(p: Poll) {
    p.readOk && p.headOk && p.floorOk && p.room > STREAM_BATCH
  }

  /** Nothing is appended around the turn; the log may still be pruned. */
  predicate NoAppend(p: Poll, l: Log) {
    && p.atRead.events == p.atHead.events == p.atFloor.events == l.events
    && p.atRead.head == p.atHead.head == p.atFloor.head == l.head
  }

  function Less(n: nat, m: nat): nat {
    if n <= m then 0 else n - m
  }

  /** A healthy turn passes a full batch, or everything that is left. */
  lemma TurnCatchesUp(r: Reader, p: Poll, before: Log)
    requires Sound(r.view, before) && p.Follows(before) && r.open && Healthy(p) && NoAppend(p, before)
    requires r.settled ==> Remaining(before.events, r.view.cursor) == 0
    ensures var u := Step(r, p);
            && u.open && Remaining(before.events, u.view.cursor) <= Less(Remaining(before.events, r.view.cursor), STREAM_BATCH)
            && (u.settled ==> Remaining(before.events, u.view.cursor) == 0)
  {
    hide Step, Check, Sound, Remaining, Lines, Batch;
    var k := BatchBegins(r, p, before);
    if Batch(r, p) != [] {
      BatchCatchesUp(r, p, before, k);
      BatchUnsettles(r, p);
    } else {
      EmptyTurnIsCaughtUp(r, p, before, k);
      var _ := HealthyTurn(r, p);
    }
  }

  lemma HealthyTurn(r: Reader, p: Poll) returns (gaps: seq<Line>)
    requires r.open && Healthy(p) && |Batch(r, p)| <= STREAM_BATCH
    ensures Step(r, p).open && (Batch(r, p) != [] ==> Step(r, p).view.cursor == Batch(r, p)[|Batch(r, p)| - 1].seqNo)
  {
    hide Step, Lines, Log.Since;
    FewLines(Batch(r, p), r.view.includeSelf);
    gaps := TurnDelivers(r, p);
  }

  lemma BatchCatchesUp(r: Reader, p: Poll, before: Log, k: nat)
    requires before.Valid() && r.open && Healthy(p) && NoAppend(p, before) && p.atRead.Valid()
    requires Batch(r, p) != [] && p.atRead.pruned <= k <= k + |Batch(r, p)| <= |p.atRead.events|
    requires Batch(r, p) == p.atRead.events[k..k + |Batch(r, p)|] && p.atRead.events[k].seqNo > r.view.cursor
    requires |Batch(r, p)| <= STREAM_BATCH && (|Batch(r, p)| < STREAM_BATCH ==> k + |Batch(r, p)| == |p.atRead.events|)
    ensures Step(r, p).open
    ensures Remaining(before.events, Step(r, p).view.cursor) <= Less(Remaining(before.events, r.view.cursor), STREAM_BATCH)
  {
    hide Step, Remaining, Lines, Batch;
    var evs, u := Batch(r, p), Step(r, p);
    var _ := HealthyTurn(r, p);
    var last := k + |evs| - 1;
    assert evs[|evs| - 1] == before.events[last];
    RemainingIs(before, u.view.cursor, last + 1);
    RemainingAtLeast(before, r.view.cursor, k);
  }

  lemma BatchUnsettles(r: Reader, p: Poll)
    requires r.open && p.readOk && Batch(r, p) != []
    ensures !Step(r, p).settled || !Step(r, p).open
  {
    hide Batch, PrunedUnder, Deliver;
    DeliverKeepsSettled(Check(r, p), Batch(r, p), RoomAfterCheck(r, p));
  }

  /** With nothing left to read, nothing the cursor has not passed was ever there. */
  lemma EmptyTurnIsCaughtUp(r: Reader, p: Poll, before: Log, k: nat)
    requires Sound(r.view, before) && p.Follows(before) && r.open && Healthy(p) && NoAppend(p, before)
    requires r.settled ==> Remaining(before.events, r.view.cursor) == 0
    requires Batch(r, p) == [] && p.atRead.pruned <= k == |p.atRead.events|
    requires forall i :: p.atRead.pruned <= i < |p.atRead.events| ==> (p.atRead.events[i].seqNo <= r.view.cursor <==> i < k)
    ensures Remaining(before.events, Step(r, p).view.cursor) == 0
  {
    hide Sound, Remaining;
    if Checks(r, p) {
      BoundIsEnough(r, p, before, k);
      CheckedCursor(r, p);
      RemainingIs(before, Step(r, p).view.cursor, |before.events|);
    }
  }

  lemma CheckedCursor(r: Reader, p: Poll)
    requires r.open && Healthy(p) && Checks(r, p) && Batch(r, p) == []
    ensures Step(r, p).view.cursor == Passed(r, p)
  {
    hide Batch, PrunedUnder;
  }

  lemma {:induction false} RunCatchesUp(r: Reader, before: Log, polls: seq<Poll>)
    requires Sound(r.view, before) && r.open && !r.settled && Interleaving(before, polls)
    requires forall k :: 0 <= k < |polls| ==> Healthy(polls[k]) && NoAppend(polls[k], before)
    ensures var u := Run(r, polls);
            && u.open && Remaining(before.events, u.view.cursor) <= Less(Remaining(before.events, r.view.cursor), STREAM_BATCH * |polls|)
            && (u.settled ==> Remaining(before.events, u.view.cursor) == 0)
  {
    hide Step, Sound, Remaining, Healthy;
    if polls != [] {
      var n := |polls| - 1;
      RunCatchesUp(r, before, polls[..n]);
      RunKeeps(r, before, polls[..n]);
      var mid := LogAfter(before, polls[..n]);
      assert mid.events == before.events && mid.head == before.head;
      TurnCatchesUp(Run(r, polls[..n]), polls[n], mid);
    }
  }

  /**
   Once nothing is appended any more and the reads land, a stream gets to the end: after as many turns as
   there are batches left, no event is ahead of its cursor, and the cursor stands at the head if that is
   the last event's number.
   */
  lemma StreamReachesTheHead(r: Reader, before: Log, polls: seq<Poll>)
    requires Sound(r.view, before) && r.open && !r.settled && Interleaving(before, polls)
    requires forall k :: 0 <= k < |polls| ==> Healthy(polls[k]) && NoAppend(polls[k], before)
    requires STREAM_BATCH * |polls| >= Remaining(before.events, r.view.cursor)
    ensures forall i :: 0 <= i < |before.events| ==> before.events[i].seqNo <= Run(r, polls).view.cursor
    ensures before.events != [] && before.events[|before.events| - 1].seqNo == before.head ==> Run(r, polls).view.cursor == before.head
  {
    RunCatchesUp(r, before, polls);
    RunKeeps(r, before, polls);
    assert LogAfter(before, polls).head == before.head;
    var k := DropThroughIsSuffix(before.events, Run(r, polls).view.cursor);
  }

  /** A turn that may skip the gap check had, at some earlier read, nothing issued above its cursor. */
  ghost predicate CaughtUpAt(v: View, polls: seq<Poll>, k: nat)
    requires k < |polls|
  {
    polls[k].readOk && forall i :: 0 <= i < |polls[k].atRead.events| ==> polls[k].atRead.events[i].seqNo <= v.cursor
  }

  lemma {:induction false} SettledIsCaughtUp(r: Reader, before: Log, polls: seq<Poll>)
    requires Sound(r.view, before) && Interleaving(before, polls) && !r.settled
    requires Run(r, polls).settled && Run(r, polls).open
    ensures exists k :: 0 <= k < |polls| && CaughtUpAt(Run(r, polls).view, polls, k)
  {
    if polls != [] {
      var n := |polls| - 1;
      var init := polls[..n];
      var mid := Run(r, init);
      RunKeeps(r, before, init);
      StepMovesForward(mid, polls[n], LogAfter(before, init));
      if Checks(mid, polls[n]) {
        if mid.open { SettledStep(mid, polls[n], LogAfter(before, init)); }
        assert CaughtUpAt(Run(r, polls).view, polls, n);
      } else {
        DeliverKeepsSettled(Check(mid, polls[n]), Batch(mid, polls[n]), RoomAfterCheck(mid, polls[n]));
        SettledIsCaughtUp(r, before, init);
        var k :| 0 <= k < |init| && CaughtUpAt(mid.view, init, k);
        assert CaughtUpAt(Run(r, polls).view, polls, k);
      }
    }
  }

  // ----- resuming -----

  /** The events a reader would print, in order, if none were ever pruned. */
  function Wanted(evs: seq<Event>, above: int, through: int, includeSelf: bool): seq<Event> {
    if evs == [] then []
    else
      var ev := evs[|evs| - 1];
      Wanted(evs[..|evs| - 1], above, through, includeSelf)
      + (if above < ev.seqNo <= through && Visible(ev, includeSelf) then [ev] else [])
  }

  function ShownEvents(out: seq<Line>): seq<Event> {
    if out == [] then []
    else
      ShownEvents(out[..|out| - 1]) + (if out[|out| - 1].Shown? then [out[|out| - 1].event] else [])
  }

  ghost predicate StrictlyUp(evs: seq<Event>) {
    forall i, j :: 0 <= i < j < |evs| ==> evs[i].seqNo < evs[j].seqNo
  }

  lemma {:induction false} WantedMembers(evs: seq<Event>, above: int, through: int, includeSelf: bool)
    requires StrictlyUp(evs)
    ensures StrictlyUp(Wanted(evs, above, through, includeSelf))
    ensures forall ev :: ev in Wanted(evs, above, through, includeSelf)
              <==> ev in evs && above < ev.seqNo <= through && Visible(ev, includeSelf)
  {
    if evs != [] {
      var init, ev := evs[..|evs| - 1], evs[|evs| - 1];
      WantedMembers(init, above, through, includeSelf);
      assert evs == init + [ev];
    }
  }

  lemma {:induction false} ShownMembers(out: seq<Line>)
    requires Ascending(out)
    ensures StrictlyUp(ShownEvents(out))
    ensures forall ev :: ev in ShownEvents(out) <==> Printed(out, ev)
  {
    if out != [] {
      var init, line := out[..|out| - 1], out[|out| - 1];
      ShownMembers(init);
      assert out == init + [line];
      forall ev | ev in ShownEvents(init) && line.Shown? ensures ev.seqNo < line.event.seqNo {
        var i :| 0 <= i < |init| && init[i] == Shown(ev);
        assert Hi(out[i]) < Lo(out[|out| - 1]);
      }
    }
  }

  lemma SameMembersBothEmpty(a: seq<Event>, b: seq<Event>)
    requires forall ev :: ev in a <==> ev in b
    ensures a == [] <==> b == []
  {
    if a != [] { assert a[0] in b; }
    if b != [] { assert b[0] in a; }
  }

  lemma {:induction false} SameMembersSameSeq(a: seq<Event>, b: seq<Event>)
    requires StrictlyUp(a) && StrictlyUp(b) && forall ev :: ev in a <==> ev in b
    ensures a == b
    decreases |a|
  {
    SameMembersBothEmpty(a, b);
    if a != [] {
      var x := a[|a| - 1];
      assert x in b;
      var y := b[|b| - 1];
      assert y in a;
      assert x == y;
      var a', b' := a[..|a| - 1], b[..|b| - 1];
      assert a == a' + [x] && b == b' + [y];
      forall ev ensures ev in a' <==> ev in b' {
        assert x !in a' && y !in b';
        assert ev in a <==> ev in a' || ev == x;
        assert ev in b <==> ev in b' || ev == y;
      }
      SameMembersSameSeq(a', b');
    }
  }

  lemma UnprunedView(v: View, l: Log)
    requires Sound(v, l) && Complete(v, l) && l.pruned == 0
    ensures ShownEvents(v.out) == Wanted(l.events, v.start, v.cursor, v.includeSelf)
  {
    ShownMembers(v.out);
    WantedMembers(l.events, v.start, v.cursor, v.includeSelf);
    var wanted := Wanted(l.events, v.start, v.cursor, v.includeSelf);
    forall ev ensures ev in ShownEvents(v.out) <==> ev in wanted {
      if Printed(v.out, ev) {
        var i :| 0 <= i < |v.out| && v.out[i] == Shown(ev);
        assert Positional(v.out[i]);
      }
      if ev in wanted {
        var k :| 0 <= k < |l.events| && l.events[k] == ev;
        assert !Missed(v, l.events[k]) && !InGap(v.out, l.events[k].seqNo);
      }
    }
    SameMembersSameSeq(ShownEvents(v.out), wanted);
  }

  lemma {:induction false} WantedSplits(evs: seq<Event>, a: int, b: int, c: int, includeSelf: bool)
    requires StrictlyUp(evs) && a <= b <= c
    ensures Wanted(evs, a, b, includeSelf) + Wanted(evs, b, c, includeSelf) == Wanted(evs, a, c, includeSelf)
  {
    if evs != [] {
      var init, ev := evs[..|evs| - 1], evs[|evs| - 1];
      WantedSplits(init, a, b, c, includeSelf);
      assert StrictlyUp(init);
      if ev.seqNo <= b { WantedAboveAll(init, b, c, includeSelf, ev.seqNo); }
    }
  }

  lemma {:induction false} WantedAboveAll(evs: seq<Event>, above: int, through: int, includeSelf: bool, top: int)
    requires forall i :: 0 <= i < |evs| ==> evs[i].seqNo < top
    requires top <= above
    ensures Wanted(evs, above, through, includeSelf) == []
  {
    if evs != [] { WantedAboveAll(evs[..|evs| - 1], above, through, includeSelf, top); }
  }

  /** The highest number a stream has printed, or where it started when it has printed none. */
  function LastPrinted(v: View): int {
    var shown := ShownEvents(v.out);
    if shown == [] then v.start else shown[|shown| - 1].seqNo
  }

  /** What lies between the last printed number and the cursor was suppressed. */
  lemma TailIsSuppressed(v: View, l: Log, m: int)
    requires Sound(v, l) && Complete(v, l) && l.pruned == 0 && v.start <= m <= v.cursor && LastPrinted(v) <= m
    ensures ShownEvents(v.out) == Wanted(l.events, v.start, m, v.includeSelf)
  {
    var shown, tail := ShownEvents(v.out), Wanted(l.events, m, v.cursor, v.includeSelf);
    UnprunedView(v, l);
    WantedMembers(l.events, v.start, v.cursor, v.includeSelf);
    WantedMembers(l.events, m, v.cursor, v.includeSelf);
    WantedSplits(l.events, v.start, m, v.cursor, v.includeSelf);
    forall i | 0 <= i < |shown| ensures shown[i].seqNo <= m {
      assert i < |shown| - 1 ==> shown[i].seqNo < shown[|shown| - 1].seqNo;
    }
    assert forall ev :: ev in tail ==> ev in shown;
    assert forall ev :: ev !in tail;
    assert tail == [] by { SameMembersBothEmpty(tail, []); }
  }

  lemma ViewsJoin(first: View, second: View, whole: View, l: Log)
    requires Sound(first, l) && Complete(first, l) && Sound(second, l) && Complete(second, l)
    requires Sound(whole, l) && Complete(whole, l) && l.pruned == 0
    requires first.start == whole.start && second.cursor == whole.cursor
    requires LastPrinted(first) <= second.start && first.start <= second.start <= first.cursor
    requires first.includeSelf == second.includeSelf == whole.includeSelf
    ensures ShownEvents(first.out) + ShownEvents(second.out) == ShownEvents(whole.out)
  {
    TailIsSuppressed(first, l, second.start);
    UnprunedView(second, l);
    UnprunedView(whole, l);
    WantedSplits(l.events, whole.start, second.start, whole.cursor, whole.includeSelf);
  }

  // ----- runs over a log that is only appended to -----

  /** A stream opened at a number, and the turns it then takes. */
  datatype Session = Session(resume: nat, includeSelf: bool, atHead: Log, atFloor: Log, polls: seq<Poll>) {
    ghost predicate Live() {
      atHead.Evolves(atFloor) && Interleaving(atFloor, polls)
    }

    function Begin(): Reader {
      Open(Some(resume), includeSelf, true, atHead, true, atFloor).value
    }

    function End(): View {
      Run(Begin(), polls).view
    }

    function Last(): Log {
      LogAfter(atFloor, polls)
    }
  }

  lemma {:induction false} LogsEvolve(before: Log, polls: seq<Poll>)
    requires before.Valid() && Interleaving(before, polls)
    ensures before.Evolves(LogAfter(before, polls))
  {
    if polls != [] {
      var n := |polls| - 1;
      var mid, p := LogAfter(before, polls[..n]), polls[n];
      LogsEvolve(before, polls[..n]);
      EvolvesTransitive(before, mid, p.atRead);
      EvolvesTransitive(before, p.atRead, p.atHead);
      EvolvesTransitive(before, p.atHead, p.atFloor);
    }
  }

  /** What a read passes over was pruned, so without a prune no turn can lose anything. */
  lemma UnprunedTurnLosesNothing(r: Reader, p: Poll, before: Log)
    requires p.Follows(before) && p.atRead.pruned == 0
    ensures !Loses(r, p)
  {
    if p.readOk && Batch(r, p) != [] {
      var k := BatchBegins(r, p, before);
      forall ev | ev in p.atRead.events ensures ev.seqNo <= r.view.cursor || Batch(r, p)[0].seqNo <= ev.seqNo {
        var i: nat :| i < |p.atRead.events| && p.atRead.events[i] == ev;
        assert i > k ==> p.atRead.events[k].seqNo < ev.seqNo;
      }
    }
  }

  lemma {:induction false} UnprunedRunLosesNothing(r: Reader, before: Log, polls: seq<Poll>)
    requires before.Valid() && Interleaving(before, polls) && LogAfter(before, polls).pruned == 0
    ensures NoLoss(r, polls)
  {
    hide Loses, Run;
    if polls != [] {
      var n := |polls| - 1;
      LogsEvolve(before, polls[..n]);
      UnprunedRunLosesNothing(r, before, polls[..n]);
      UnprunedTurnLosesNothing(Run(r, polls[..n]), polls[n], LogAfter(before, polls[..n]));
    }
  }

  lemma {:induction false} DeliverKeepsTerms(r: Reader, evs: seq<Event>, room: nat)
    ensures Deliver(r, evs, room).view.start == r.view.start && Deliver(r, evs, room).view.includeSelf == r.view.includeSelf
    decreases |evs|
  {
    if Moves(r.view, evs, room) {
      DeliverKeepsTerms(r.(view := WithEvent(r.view, evs[0])), evs[1..], if Visible(evs[0], r.view.includeSelf) then room - 1 else room);
    }
  }

  lemma {:induction false} RunKeepsTerms(r: Reader, polls: seq<Poll>)
    ensures Run(r, polls).view.start == r.view.start && Run(r, polls).view.includeSelf == r.view.includeSelf
  {
    if polls != [] {
      var q, p := Run(r, polls[..|polls| - 1]), polls[|polls| - 1];
      RunKeepsTerms(r, polls[..|polls| - 1]);
      DeliverKeepsTerms(Check(q, p), Batch(q, p), RoomAfterCheck(q, p));
    }
  }

  /** A session starts at the number it was given, or at the head when that number was never issued. */
  lemma SessionStarts(s: Session)
    ensures s.End().includeSelf == s.includeSelf && s.End().start == if s.resume <= s.atHead.head then s.resume else s.atHead.head
  {
    RunKeepsTerms(s.Begin(), s.polls);
  }

  lemma SessionKeeps(s: Session)
    requires s.Live() && s.Last().pruned == 0
    ensures Sound(s.End(), s.Last()) && Complete(s.End(), s.Last())
  {
    OpenKeeps(Some(s.resume), s.includeSelf, true, s.atHead, true, s.atFloor);
    UnprunedRunLosesNothing(s.Begin(), s.atFloor, s.polls);
    RunKeeps(s.Begin(), s.atFloor, s.polls);
  }

  /**
   Whatever reads and checks fail and wherever the pipe closes, a stream over a log that is only appended
   to has printed every visible event from its start to its cursor, in order and once, and no other.
   */
  lemma UnprunedOutput(s: Session)
    requires s.Live() && s.Last().pruned == 0
    ensures var v := s.End();
            ShownEvents(v.out) == Wanted(s.Last().events, v.start, v.cursor, s.includeSelf)
            && v.start == if s.resume <= s.atHead.head then s.resume else s.atHead.head
  {
    SessionKeeps(s);
    SessionStarts(s);
    UnprunedView(s.End(), s.Last());
  }

  /** A complete session seen from a later log. */
  lemma SessionLater(s: Session, l: Log)
    requires s.Live() && s.Last().Evolves(l) && l.pruned == 0
    ensures Sound(s.End(), l) && Complete(s.End(), l)
  {
    SessionKeeps(s);
    Later(s.End(), s.Last(), l);
  }

  /**
   Reading for a while and resuming at the last number printed, or at any number from there to the cursor,
   prints, together, what one uninterrupted stream prints to the same point, however the turns of the three
   streams fall and whichever of their reads fail.
   */
  lemma ResumeIsSeamless(first: Session, second: Session, whole: Session, l: Log)
    requires first.Live() && second.Live() && whole.Live()
    requires first.Last().Evolves(second.atHead) && second.Last().Evolves(l) && whole.Last().Evolves(l) && l.pruned == 0
    requires first.resume == whole.resume <= first.atHead.head && whole.resume <= whole.atHead.head
    requires LastPrinted(first.End()) <= second.resume <= first.End().cursor && first.resume <= second.resume && second.End().cursor == whole.End().cursor
    requires first.includeSelf == second.includeSelf == whole.includeSelf
    ensures ShownEvents(first.End().out) + ShownEvents(second.End().out) == ShownEvents(whole.End().out)
  {
    hide Sound, Complete, ShownEvents, LastPrinted, Interleaving, Run, Open;
    LogsEvolve(second.atFloor, second.polls);
    EvolvesTransitive(second.atHead, second.atFloor, second.Last());
    EvolvesTransitive(first.Last(), second.atHead, second.Last());
    EvolvesTransitive(first.Last(), second.Last(), l);
    SessionLater(first, l);
    SessionLater(second, l);
    SessionLater(whole, l);
    CursorIsIssued(first);
    SessionStarts(first);
    SessionStarts(second);
    SessionStarts(whole);
    ViewsJoin(first.End(), second.End(), whole.End(), l);
  }

  lemma CursorIsIssued(s: Session)
    requires s.Live() && s.Last().pruned == 0
    ensures s.End().cursor <= s.Last().head
  {
    SessionKeeps(s);
  }
}
