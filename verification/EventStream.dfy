/**
 The reader behind `hap stream orchestrator`: a cursor over a log that other processes append to and
 prune while it reads. A `Poll` fixes what the rest of the machine did between the reader's own
 statements, so a sequence of polls is one interleaving and "for all polls" is every interleaving.
 */
module EventStream {
  import opened EventLog
  import opened Wrappers

  const ORCHESTRATOR_AUTHOR := "orchestrator"
  const STREAM_BATCH: nat := 500

  datatype Line =
    | Header(head: nat, floor: int)
    | Reset(resume: int, head: nat)
    | Gap(first: int, last: int)
    | Shown(event: Event)

  /** What a stream has told its reader: the output so far and the range of numbers it answers for. */
  datatype View = View(start: int, cursor: int, out: seq<Line>, includeSelf: bool)

  /** `settled` says the last gap check found the cursor at the head; `open` that the pipe still accepts. */
  datatype Reader = Reader(view: View, settled: bool, open: bool)

  /**
   One turn of the endless loop. `atRead`, `atHead` and `atFloor` are the log when `Since`, `Head` and
   `Floor` ran; the flags say which reads succeeded; `due` that the re-check period had passed; `room`
   how many writes the pipe still accepts.
   */
  datatype Poll = Poll(
    atRead: Log, readOk: bool, atHead: Log, headOk: bool, atFloor: Log, floorOk: bool, due: bool, room: nat)
  {
    ghost predicate Follows(before: Log) {
      before.Evolves(atRead) && atRead.Evolves(atHead) && atHead.Evolves(atFloor)
    }
  }

  predicate Visible(ev: Event, includeSelf: bool) {
    includeSelf || ev.author != ORCHESTRATOR_AUTHOR
  }

  // ----- opening the stream -----

  /** The header and the cursor a stream starts from; None when a read fails or the flag is refused. */
  function Open(resume: Option<int>, includeSelf: bool, headOk: bool, atHead: Log, floorOk: bool, atFloor: Log): Option<Reader> {
    if (resume.Some? && resume.value < 0) || !headOk || !floorOk then None else
    var head := atHead.head;
    var floor := atFloor.Floor();
    var header := [Header(head, floor)];
    match resume
    case None => Some(Reader(View(head, head, header, includeSelf), false, true))
    case Some(n) =>
      var oldest := if floor == 0 then head + 1 else floor;
      if n > head then
        Some(Reader(View(head, head, header + [Reset(n, head)], includeSelf), false, true))
      else if n + 1 < oldest then
        Some(Reader(View(n, oldest - 1, header + [Gap(n + 1, oldest - 1)], includeSelf), false, true))
      else
        Some(Reader(View(n, n, header, includeSelf), false, true))
  }

  // ----- one turn of the loop -----

  /** The last number known lost beneath the batch, read as head first and floor second. */
  function PrunedUnder(head: nat, floor: int, batch: seq<Event>): int {
    var last := (if floor == 0 then head + 1 else floor) - 1;
    if batch != [] && batch[0].seqNo - 1 < last then batch[0].seqNo - 1 else last
  }

  function Batch(r: Reader, p: Poll): seq<Event> {
    if p.readOk then p.atRead.Since(r.view.cursor, STREAM_BATCH) else []
  }

  predicate Checks(r: Reader, p: Poll) {
    p.readOk && (!r.settled || Batch(r, p) != [] || p.due)
  }

  function Check(r: Reader, p: Poll): Reader {
    if !p.readOk then r.(settled := false)
    else if !Checks(r, p) then r
    else if !p.headOk || !p.floorOk then r.(settled := false)
    else
      var last := PrunedUnder(p.atHead.head, p.atFloor.Floor(), Batch(r, p));
      if last <= r.view.cursor then r.(settled := Batch(r, p) == [])
      else if p.room == 0 then r.(open := false)
      else Reader(WithGap(r.view, last), false, true)
  }

  function WithGap(v: View, last: int): View {
    v.(cursor := last, out := v.out + [Gap(v.cursor + 1, last)])
  }

  /** The cursor steps over a suppressed event exactly as over a printed one. */
  function WithEvent(v: View, ev: Event): View {
    v.(cursor := ev.seqNo, out := if Visible(ev, v.includeSelf) then v.out + [Shown(ev)] else v.out)
  }

  /** Prints a batch until the pipe closes. */
  function Deliver(r: Reader, evs: seq<Event>, room: nat): Reader
    decreases |evs|
  {
    if evs == [] then r
    else if !Visible(evs[0], r.view.includeSelf) then Deliver(r.(view := WithEvent(r.view, evs[0])), evs[1..], room)
    else if room == 0 then r.(open := false)
    else Deliver(r.(view := WithEvent(r.view, evs[0])), evs[1..], room - 1)
  }

  function RoomAfterCheck(r: Reader, p: Poll): nat {
    if Check(r, p).view == r.view || p.room == 0 then p.room else p.room - 1
  }

  function Step(r: Reader, p: Poll): Reader {
    if !r.open then r else
    var c := Check(r, p);
    if !c.open then c else Deliver(c, Batch(r, p), RoomAfterCheck(r, p))
  }

  function Run(r: Reader, polls: seq<Poll>): Reader {
    if polls == [] then r else Step(Run(r, polls[..|polls| - 1]), polls[|polls| - 1])
  }

  // ----- the loop as it runs -----

  class StreamReader {
    const start: int
    const includeSelf: bool
    var cursor: int
    var settled: bool
    var out: seq<Line>
    var open: bool

    ghost function State(): Reader
      reads this
    {
      Reader(View(start, cursor, out, includeSelf), settled, open)
    }

    constructor (r: Reader)
      ensures State() == r
    {
      start, cursor, out, includeSelf := r.view.start, r.view.cursor, r.view.out, r.view.includeSelf;
      settled, open := r.settled, r.open;
    }

    method Write(line: Line, room: nat) returns (ok: bool, left: nat)
      modifies this`out
      ensures ok == (room > 0)
      ensures out == if ok then old(out) + [line] else old(out)
      ensures left == if ok then room - 1 else 0
    {
      ok := room > 0;
      left := if ok then room - 1 else 0;
      if ok { out := out + [line]; }
    }

    /** The gap check that follows a read; returns the writes the pipe still accepts. */
    method CheckGap(p: Poll, evs: seq<Event>) returns (room: nat)
      requires open && evs == Batch(State(), p)
      modifies `cursor, `settled, `out, `open
      ensures State() == Check(old(State()), p)
      ensures open ==> room == RoomAfterCheck(old(State()), p)
    {
      room := p.room;
      if p.readOk && (!settled || evs != [] || p.due) {
        var checked, gap, last := p.headOk && p.floorOk, false, 0;
        if checked {
          last := PrunedUnder(p.atHead.head, p.atFloor.Floor(), evs);
          gap := last > cursor;
        }
        if gap {
          var ok;
          ok, room := Write(Gap(cursor + 1, last), room);
          if !ok {
            open := false;
            return;
          }
          cursor := last;
        }
        settled := checked && !gap && evs == [];
      }
      if !p.readOk {
        settled := false;
      }
    }

    /** Prints the batch event by event. */
    method PrintBatch(evs: seq<Event>, writes: nat)
      requires open
      modifies `cursor, `out, `open
      ensures State() == Deliver(old(State()), evs, writes)
    {
      var room := writes;
      for i := 0 to |evs|
        invariant open
        invariant Deliver(State(), evs[i..], room) == Deliver(old(State()), evs, writes)
      {
        assert evs[i..][0] == evs[i] && evs[i..][1..] == evs[i + 1..];
        if includeSelf || evs[i].author != ORCHESTRATOR_AUTHOR {
          var ok;
          ok, room := Write(Shown(evs[i]), room);
          if !ok {
            open := false;
            return;
          }
        }
        cursor := evs[i].seqNo;
      }
    }

    /** One turn of the loop: the read, the gap check after it, then the batch. */
    method Turn(p: Poll)
      requires open
      modifies `cursor, `settled, `out, `open
      ensures State() == Step(old(State()), p)
    {
      var evs := if p.readOk then p.atRead.Since(cursor, STREAM_BATCH) else [];
      var room := CheckGap(p, evs);
      if open {
        PrintBatch(evs, room);
      }
    }

    /** The loop over any number of turns; a reader that went away takes no more of them. */
    method Follow(polls: seq<Poll>)
      modifies `cursor, `settled, `out, `open
      ensures State() == Run(old(State()), polls)
    {
      for k := 0 to |polls|
        invariant State() == Run(old(State()), polls[..k])
      {
        assert polls[..k + 1][..k] == polls[..k];
        if open {
          Turn(polls[k]);
        }
      }
      assert polls[..|polls|] == polls;
    }
  }
}
