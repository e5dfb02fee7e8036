/** The machine-local event log: append-only, numbered, pruned from the bottom by other processes. */
module EventLog {

  datatype Event = Event(seqNo: int, author: string)

  /**
   The log at one instant. `events` is everything ever appended, in order; the first `pruned` of them
   are no longer retained. `head` is the high-water mark of the numbering, which a prune never lowers.
   */
  datatype Log = Log(events: seq<Event>, pruned: nat, head: nat) {

    ghost predicate Valid() {
      && pruned <= |events|
      && (forall i :: 0 <= i < |events| ==> 0 < events[i].seqNo <= head)
      && (forall i, j :: 0 <= i < j < |events| ==> events[i].seqNo < events[j].seqNo)
    }

    /** Any number of appends and prefix prunes lead from this log to `later`. */
    ghost predicate Evolves(later: Log) {
      && Valid() && later.Valid()
      && events <= later.events
      && pruned <= later.pruned
      && head <= later.head
      && (forall i :: |events| <= i < |later.events| ==> later.events[i].seqNo > head)
    }

    function Retained(): seq<Event> {
      if pruned <= |events| then events[pruned..] else []
    }

    /** Where the retained events begin; 0 stands for an empty log. */
    function Floor(): int {
      if Retained() == [] then 0 else Retained()[0].seqNo
    }

    /** Up to `limit` retained events numbered above `after`, oldest first. */
    function Since(after: int, limit: nat): seq<Event> {
      var above := DropThrough(Retained(), after);
      if |above| <= limit then above else above[..limit]
    }
  }

  function DropThrough(evs: seq<Event>, after: int): seq<Event> {
    if evs == [] || evs[0].seqNo > after then evs else DropThrough(evs[1..], after)
  }

  lemma {:induction false} DropThroughIsSuffix(evs: seq<Event>, after: int) returns (k: nat)
    requires forall i, j :: 0 <= i < j < |evs| ==> evs[i].seqNo < evs[j].seqNo
    ensures k <= |evs| && DropThrough(evs, after) == evs[k..]
    ensures forall i :: 0 <= i < |evs| ==> (evs[i].seqNo <= after <==> i < k)
  {
    if evs == [] || evs[0].seqNo > after {
      k := 0;
    } else {
      var k' := DropThroughIsSuffix(evs[1..], after);
      k := k' + 1;
      forall i | 0 <= i < |evs| ensures evs[i].seqNo <= after <==> i < k {
        if i > 0 { assert evs[i] == evs[1..][i - 1]; }
      }
    }
  }

  lemma AboveIsASuffix(l: Log, after: int) returns (k: nat)
    requires l.Valid()
    ensures l.pruned <= k <= |l.events| && DropThrough(l.Retained(), after) == l.events[k..]
    ensures forall i :: l.pruned <= i < |l.events| ==> (l.events[i].seqNo <= after <==> i < k)
  {
    hide DropThrough;
    var kept := l.events[l.pruned..];
    forall i, j | 0 <= i < j < |kept| ensures kept[i].seqNo < kept[j].seqNo {
      assert kept[i] == l.events[l.pruned + i] && kept[j] == l.events[l.pruned + j];
    }
    var m := DropThroughIsSuffix(kept, after);
    k := l.pruned + m;
    forall i | l.pruned <= i < |l.events| ensures l.events[i].seqNo <= after <==> i < k {
      assert l.events[i] == kept[i - l.pruned];
    }
    assert kept[m..] == l.events[k..];
  }

  /**
   A read returns one contiguous run of the log: what it passes over between `after` and its own
   first event has been pruned, and nothing numbered inside the batch is missing from it.
   */
  lemma SinceIsARun(l: Log, after: int, limit: nat) returns (k: nat)
    requires l.Valid()
    ensures l.pruned <= k <= k + |l.Since(after, limit)| <= |l.events|
    ensures l.Since(after, limit) == l.events[k..k + |l.Since(after, limit)|]
    ensures forall i :: l.pruned <= i < |l.events| ==> (l.events[i].seqNo <= after <==> i < k)
    ensures |l.Since(after, limit)| <= limit && (|l.Since(after, limit)| < limit ==> k + |l.Since(after, limit)| == |l.events|)
  {
    hide DropThrough, Log.Retained, Log.Valid;
    k := AboveIsASuffix(l, after);
  }

  lemma EvolvesTransitive(a: Log, b: Log, c: Log)
    requires a.Evolves(b) && b.Evolves(c)
    ensures a.Evolves(c)
  {
    forall i | |a.events| <= i < |c.events| ensures c.events[i].seqNo > a.head {
      if i < |b.events| { assert c.events[i] == b.events[i]; }
    }
  }

  /** Steps other processes take on the log. */
  function Append(l: Log, author: string): Log {
    Log(l.events + [Event(l.head + 1, author)], l.pruned, l.head + 1)
  }

  function Prune(l: Log, through: nat): Log
    requires l.pruned <= through <= |l.events|
  {
    l.(pruned := through)
  }

  lemma AppendAndPruneEvolve(l: Log, author: string, through: nat)
    requires l.Valid() && l.pruned <= through <= |l.events|
    ensures l.Evolves(Append(l, author)) && l.Evolves(Prune(l, through))
  {
    var a := Append(l, author);
    forall i, j | 0 <= i < j < |a.events| ensures a.events[i].seqNo < a.events[j].seqNo {
      if j < |l.events| { assert a.events[i] == l.events[i] && a.events[j] == l.events[j]; }
    }
  }
}
