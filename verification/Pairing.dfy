/**
 The pairing half of a sweep: which parked agents each task source may drive, how they are grouped by
 the list they resolve to, and which open task each of them is promised.
 */
module Pairing {
  import opened Wrappers
  import opened IdleClock
  import TaskFile

  /** `path` is the canonical key of the list; several spellings may share it. */
  datatype Locator = Locator(spelling: string, path: string)

  /** A source naming a file resolves once for everyone; another resolves a list per agent. */
  datatype Resolution = Whole(file: Option<Locator>) | PerAgent(files: map<AgentId, Locator>)

  /**
   One source of a sweep. `allows` holds the agents let through by the gates outside this model: chosen
   by the source, enabled, not snoozed, not waiting, not paused, no capture under way. `seen` holds the
   lists as they were read.
   */
  datatype Source = Source(resolution: Resolution, allows: set<AgentId>, seen: map<string, seq<TaskFile.Task>>)

  // ----- eligible agents, longest idle first -----

  predicate Eligible(c: Clock, a: Agent, allows: set<AgentId>, barred: set<AgentId>, now: int) {
    a.id !in barred && Ready(c, a, now) && a.id in allows
  }

  predicate Before(c: Clock, a: Agent, b: Agent)
    requires a.id in c.idleSince && b.id in c.idleSince
  {
    c.idleSince[a.id].at < c.idleSince[b.id].at || (c.idleSince[a.id].at == c.idleSince[b.id].at && a.id < b.id)
  }

  predicate Clocked(c: Clock, agents: seq<Agent>) {
    forall a :: a in agents ==> a.id in c.idleSince
  }

  function InsertIdle(c: Clock, sorted: seq<Agent>, a: Agent): (r: seq<Agent>)
    requires Clocked(c, sorted) && a.id in c.idleSince
    ensures Clocked(c, r)
    ensures multiset(r) == multiset(sorted) + multiset{a}
  {
    if sorted == [] || !Before(c, a, sorted[|sorted| - 1]) then sorted + [a]
    else
      var r := InsertIdle(c, sorted[..|sorted| - 1], a) + [sorted[|sorted| - 1]];
      assert sorted == sorted[..|sorted| - 1] + [sorted[|sorted| - 1]];
      r
  }

  function EligibleAgents(c: Clock, agents: seq<Agent>, allows: set<AgentId>, barred: set<AgentId>, now: int): (r: seq<Agent>)
    ensures Clocked(c, r)
  {
    if agents == [] then []
    else
      var a, rest := agents[|agents| - 1], EligibleAgents(c, agents[..|agents| - 1], allows, barred, now);
      if Eligible(c, a, allows, barred, now) then InsertIdle(c, rest, a) else rest
  }

  ghost predicate InOrder(c: Clock, agents: seq<Agent>)
    requires Clocked(c, agents)
  {
    forall i, j :: 0 <= i < j < |agents| ==> Before(c, agents[i], agents[j])
  }

  lemma InsertedOrThere(c: Clock, sorted: seq<Agent>, a: Agent, b: Agent)
    requires Clocked(c, sorted) && a.id in c.idleSince && b in InsertIdle(c, sorted, a)
    ensures b == a || b in sorted
  {
    assert b in multiset(InsertIdle(c, sorted, a));
    assert b in multiset(sorted) + multiset{a};
  }

  lemma {:induction false} InsertKeepsOrder(c: Clock, sorted: seq<Agent>, a: Agent)
    requires Clocked(c, sorted) && a.id in c.idleSince && InOrder(c, sorted)
    requires forall b :: b in sorted ==> b.id != a.id
    ensures InOrder(c, InsertIdle(c, sorted, a))
  {
    var n := |sorted| - 1;
    if sorted != [] && Before(c, a, sorted[n]) {
      assert forall b :: b in sorted[..n] ==> b in sorted;
      InsertKeepsOrder(c, sorted[..n], a);
      var r := InsertIdle(c, sorted[..n], a);
      forall i | 0 <= i < |r| ensures Before(c, r[i], sorted[n]) {
        InsertedOrThere(c, sorted[..n], a, r[i]);
        if r[i] != a {
          var k :| 0 <= k < n && sorted[..n][k] == r[i];
          assert sorted[k] == r[i];
        }
      }
      assert InsertIdle(c, sorted, a) == r + [sorted[n]];
    } else if sorted != [] {
      forall i | 0 <= i < |sorted| ensures Before(c, sorted[i], a) {}
    }
  }

  lemma EligibleIsClocked(c: Clock, a: Agent, allows: set<AgentId>, barred: set<AgentId>, now: int)
    requires Eligible(c, a, allows, barred, now)
    ensures a.id in c.idleSince && Ready(c, a, now) && a.id !in barred
  {
  }

  /** Exactly the agents no gate holds back, each once, longest idle first and ties by id. */
  lemma {:induction false} EligibleInOrder(c: Clock, agents: seq<Agent>, allows: set<AgentId>, barred: set<AgentId>, now: int)
    requires Unique(agents)
    ensures var r := EligibleAgents(c, agents, allows, barred, now);
            && (forall a :: a in r <==> a in agents && Eligible(c, a, allows, barred, now))
            && Unique(r) && InOrder(c, r)
  {
    hide Eligible;
    if agents != [] {
      var n := |agents| - 1;
      var a := agents[n];
      var rest := EligibleAgents(c, agents[..n], allows, barred, now);
      EligibleInOrder(c, agents[..n], allows, barred, now);
      assert agents == agents[..n] + [a];
      if Eligible(c, a, allows, barred, now) {
        EligibleIsClocked(c, a, allows, barred, now);
        InsertKeepsOrder(c, rest, a);
        var r := InsertIdle(c, rest, a);
        forall b ensures b in r <==> b in rest || b == a {
          assert b in r <==> b in multiset(r);
          assert b in rest <==> b in multiset(rest);
        }
      }
    }
  }

  // ----- groups sharing one list -----

  datatype Group = Group(locator: Locator, agents: seq<Agent>)

  function AddTo(groups: seq<Group>, file: Locator, a: Agent): seq<Group> {
    if groups == [] then [Group(file, [a])]
    else if groups[0].locator.spelling == file.spelling then [Group(groups[0].locator, groups[0].agents + [a])] + groups[1..]
    else [groups[0]] + AddTo(groups[1..], file, a)
  }

  function GroupsOf(files: map<AgentId, Locator>, agents: seq<Agent>): seq<Group> {
    if agents == [] then []
    else
      var a, rest := agents[|agents| - 1], GroupsOf(files, agents[..|agents| - 1]);
      if a.id in files then AddTo(rest, files[a.id], a) else rest
  }

  function Groups(r: Resolution, agents: seq<Agent>): seq<Group> {
    match r
    case Whole(None) => []
    case Whole(Some(file)) => [Group(file, agents)]
    case PerAgent(files) => GroupsOf(files, agents)
  }

  function GroupIds(groups: seq<Group>): set<AgentId> {
    if groups == [] then {} else Ids(groups[0].agents) + GroupIds(groups[1..])
  }

  /** No agent stands in two groups or twice in one. */
  predicate Apart(groups: seq<Group>) {
    groups == [] ||
    (Unique(groups[0].agents) && Ids(groups[0].agents) !! GroupIds(groups[1..]) && Apart(groups[1..]))
  }

  ghost predicate Within(groups: seq<Group>, agents: seq<Agent>) {
    forall g, a :: g in groups && a in g.agents ==> a in agents
  }

  lemma {:induction false} AddToIsApart(groups: seq<Group>, file: Locator, a: Agent)
    requires Apart(groups) && a.id !in GroupIds(groups)
    ensures Apart(AddTo(groups, file, a))
    ensures GroupIds(AddTo(groups, file, a)) == GroupIds(groups) + {a.id}
  {
    if groups != [] {
      var r := AddTo(groups, file, a);
      assert r[1..] == if groups[0].locator.spelling == file.spelling then groups[1..] else AddTo(groups[1..], file, a);
      if groups[0].locator.spelling == file.spelling {
        assert Ids(r[0].agents) == Ids(groups[0].agents) + {a.id};
        forall i | 0 <= i < |groups[0].agents| ensures groups[0].agents[i].id in Ids(groups[0].agents) {}
      } else {
        AddToIsApart(groups[1..], file, a);
      }
    }
  }

  lemma {:induction false} AddToIsWithin(groups: seq<Group>, file: Locator, a: Agent, agents: seq<Agent>)
    requires Within(groups, agents) && a in agents
    ensures Within(AddTo(groups, file, a), agents)
  {
    if groups != [] {
      assert groups[0] in groups && forall g :: g in groups[1..] ==> g in groups;
      if groups[0].locator.spelling != file.spelling { AddToIsWithin(groups[1..], file, a, agents); }
    }
  }

  /** Grouping neither invents an agent nor lists one twice, in one group or in two. */
  lemma {:induction false} GroupsAreApart(files: map<AgentId, Locator>, agents: seq<Agent>)
    requires Unique(agents)
    ensures Apart(GroupsOf(files, agents)) && Within(GroupsOf(files, agents), agents)
    ensures GroupIds(GroupsOf(files, agents)) <= Ids(agents)
  {
    hide Apart;
    if agents == [] {
      NoGroups();
    } else {
      var n := |agents| - 1;
      GroupsAreApart(files, agents[..n]);
      assert agents == agents[..n] + [agents[n]];
      assert Ids(agents) == Ids(agents[..n]) + {agents[n].id};
      if agents[n].id in files {
        AddToIsApart(GroupsOf(files, agents[..n]), files[agents[n].id], agents[n]);
        AddToIsWithin(GroupsOf(files, agents[..n]), files[agents[n].id], agents[n], agents);
      }
    }
  }

  // ----- an agent stands in the group of its own list -----

  function Add(lists: seq<string>, spelling: string): seq<string> {
    if spelling in lists then lists else lists + [spelling]
  }

  /** The lists the agents resolve to, each once, in the order they are first met. */
  function Lists(files: map<AgentId, Locator>, agents: seq<Agent>): seq<string> {
    if agents == [] then []
    else
      var a, rest := agents[|agents| - 1], Lists(files, agents[..|agents| - 1]);
      if a.id in files then Add(rest, files[a.id].spelling) else rest
  }

  predicate Uses(files: map<AgentId, Locator>, a: Agent, spelling: string) {
    a.id in files && files[a.id].spelling == spelling
  }

  /** The agents that resolve to one list, in the order given. */
  function Users(files: map<AgentId, Locator>, agents: seq<Agent>, spelling: string): seq<Agent> {
    if agents == [] then []
    else
      var a, rest := agents[|agents| - 1], Users(files, agents[..|agents| - 1], spelling);
      if Uses(files, a, spelling) then rest + [a] else rest
  }

  lemma {:induction false} UsersAre(files: map<AgentId, Locator>, agents: seq<Agent>, spelling: string)
    ensures forall a :: a in Users(files, agents, spelling) <==> a in agents && Uses(files, a, spelling)
  {
    if agents != [] {
      UsersAre(files, agents[..|agents| - 1], spelling);
      assert agents == agents[..|agents| - 1] + [agents[|agents| - 1]];
    }
  }

  lemma {:induction false} ListsAre(files: map<AgentId, Locator>, agents: seq<Agent>)
    ensures Distinct(Lists(files, agents))
    ensures forall l :: l in Lists(files, agents) <==> exists a :: a in agents && Uses(files, a, l)
  {
    if agents != [] {
      var n := |agents| - 1;
      ListsAre(files, agents[..n]);
      assert agents == agents[..n] + [agents[n]];
      forall l ensures l in Lists(files, agents) <==> l in Lists(files, agents[..n]) || Uses(files, agents[n], l) {}
    }
  }

  /** The groups of the given lists. */
  ghost predicate AreGroups(groups: seq<Group>, files: map<AgentId, Locator>, agents: seq<Agent>, lists: seq<string>) {
    && |groups| == |lists|
    && forall i :: 0 <= i < |groups| ==> groups[i].locator.spelling == lists[i] && groups[i].agents == Users(files, agents, lists[i])
  }

  /** One more agent went to the end of the group of its list, or into a new last group. */
  ghost predicate Joined(groups: seq<Group>, r: seq<Group>, file: Locator, a: Agent) {
    && |groups| <= |r| <= |groups| + 1
    && (|r| == |groups| <==> exists i :: 0 <= i < |groups| && groups[i].locator.spelling == file.spelling)
    && (|r| > |groups| ==> r[|groups|] == Group(file, [a]))
    && (forall i :: 0 <= i < |groups| ==> r[i] == Grown(groups[i], file, a))
  }

  function Grown(g: Group, file: Locator, a: Agent): Group {
    if g.locator.spelling == file.spelling then Group(g.locator, g.agents + [a]) else g
  }

  lemma {:induction false} AddToJoins(groups: seq<Group>, file: Locator, a: Agent)
    requires forall i, j :: 0 <= i < j < |groups| ==> groups[i].locator.spelling != groups[j].locator.spelling
    ensures Joined(groups, AddTo(groups, file, a), file, a)
  {
    if groups != [] && groups[0].locator.spelling != file.spelling {
      var rest, r := groups[1..], AddTo(groups, file, a);
      AddToJoins(rest, file, a);
      assert r == [groups[0]] + AddTo(rest, file, a);
      forall i | 0 <= i < |groups| ensures r[i] == Grown(groups[i], file, a) {
        if i > 0 { assert groups[i] == rest[i - 1] && r[i] == AddTo(rest, file, a)[i - 1]; }
      }
      forall i | 0 <= i < |rest| ensures rest[i] == groups[i + 1] {}
    }
  }

  /**
   An agent stands in a group if and only if the group is of the list it resolves to: there is one group
   to a list, in the order the lists are first met, and its agents keep the order they were given in.
   */
  lemma {:induction false} GroupsAreLists(files: map<AgentId, Locator>, agents: seq<Agent>)
    ensures AreGroups(GroupsOf(files, agents), files, agents, Lists(files, agents))
  {
    hide AddTo, Uses;
    if agents != [] {
      var n := |agents| - 1;
      var a, rest, lists := agents[n], GroupsOf(files, agents[..n]), Lists(files, agents[..n]);
      GroupsAreLists(files, agents[..n]);
      ListsAre(files, agents[..n]);
      if a.id in files {
        AddToJoins(rest, files[a.id], a);
        UsesItsOwn(files, a);
        if files[a.id].spelling !in lists { NobodyUses(files, agents[..n], files[a.id].spelling); }
      } else {
        UsesNone(files, a);
      }
    }
  }

  lemma UsesItsOwn(files: map<AgentId, Locator>, a: Agent)
    requires a.id in files
    ensures forall l :: Uses(files, a, l) <==> l == files[a.id].spelling
  {
  }

  lemma UsesNone(files: map<AgentId, Locator>, a: Agent)
    requires a.id !in files
    ensures forall l :: !Uses(files, a, l)
  {
  }

  lemma {:induction false} NobodyUses(files: map<AgentId, Locator>, agents: seq<Agent>, spelling: string)
    requires spelling !in Lists(files, agents)
    ensures Users(files, agents, spelling) == []
  {
    if agents != [] { NobodyUses(files, agents[..|agents| - 1], spelling); }
  }

  lemma {:induction false} LocatorIsSomeones(files: map<AgentId, Locator>, agents: seq<Agent>)
    ensures forall g :: g in GroupsOf(files, agents) ==> exists id :: id in files && files[id] == g.locator
  {
    if agents != [] {
      var n := |agents| - 1;
      var a, rest := agents[n], GroupsOf(files, agents[..n]);
      LocatorIsSomeones(files, agents[..n]);
      GroupsAreLists(files, agents[..n]);
      ListsAre(files, agents[..n]);
      if a.id in files {
        AddToJoins(rest, files[a.id], a);
        var r := AddTo(rest, files[a.id], a);
        forall i | 0 <= i < |r| ensures exists id :: id in files && files[id] == r[i].locator {
          if i < |rest| { assert rest[i] in rest && r[i].locator == rest[i].locator; } else { assert files[a.id] == r[i].locator; }
        }
      }
    }
  }

  /** Group membership, spelled out. */
  lemma InGroupIff(files: map<AgentId, Locator>, agents: seq<Agent>, g: Group, a: Agent)
    requires g in GroupsOf(files, agents)
    ensures a in g.agents <==> a in agents && a.id in files && files[a.id].spelling == g.locator.spelling
  {
    GroupsAreLists(files, agents);
    var i :| 0 <= i < |GroupsOf(files, agents)| && GroupsOf(files, agents)[i] == g;
    UsersAre(files, agents, g.locator.spelling);
  }

  lemma NoGroups()
    ensures Apart([])
  {
  }

  lemma ResolvedGroupsAreApart(r: Resolution, agents: seq<Agent>)
    requires Unique(agents)
    ensures Apart(Groups(r, agents)) && Within(Groups(r, agents), agents)
  {
    if r.PerAgent? {
      GroupsAreApart(r.files, agents);
    } else if r.file.Some? {
      assert Groups(r, agents)[1..] == [];
    }
  }

  // ----- promising tasks -----

  predicate Promised(c: Clock, path: string, text: string) {
    exists id :: id in c.claims && c.claims[id].path == path && c.claims[id].text == text
  }

  /** The open tasks of a list that no standing claim promises. */
  function Unpromised(c: Clock, path: string, texts: seq<string>): seq<string> {
    if texts == [] then []
    else
      var rest, last := Unpromised(c, path, texts[..|texts| - 1]), texts[|texts| - 1];
      if Promised(c, path, last) then rest else rest + [last]
  }

  function Min(a: nat, b: nat): nat {
    if a < b then a else b
  }

  /** The drives a group gets out of one reading of its list. */
  function DrivesOf(c: Clock, g: Group, seen: map<string, seq<TaskFile.Task>>, now: int): seq<Tick> {
    if g.locator.spelling !in seen then []
    else
      var free := Unpromised(c, g.locator.path, TaskFile.Pending(seen[g.locator.spelling]));
      seq(Min(|g.agents|, |free|), i requires 0 <= i < Min(|g.agents|, |free|) =>
        Drove(g.agents[i], Claim(g.locator.path, free[i], now), now))
  }

  function PairGroups(c: Clock, groups: seq<Group>, seen: map<string, seq<TaskFile.Task>>, now: int): seq<Tick>
    decreases |groups|
  {
    if groups == [] then []
    else
      var first := DrivesOf(c, groups[0], seen, now);
      first + PairGroups(Apply(c, first), groups[1..], seen, now)
  }

  function Driven(ticks: seq<Tick>): set<AgentId> {
    set t | t in ticks && t.Drove? :: t.agent.id
  }

  /** The drives of a whole sweep, source by source; `awaiting` agents and those already driven are barred. */
  function PairSources(c: Clock, sources: seq<Source>, agents: seq<Agent>, awaiting: set<AgentId>, now: int): seq<Tick> {
    if sources == [] then []
    else
      var before := PairSources(c, sources[..|sources| - 1], agents, awaiting, now);
      var s, at := sources[|sources| - 1], Apply(c, before);
      before + PairGroups(at, Groups(s.resolution, EligibleAgents(at, agents, s.allows, awaiting + Driven(before), now)), s.seen, now)
  }

  // ----- one task, one agent -----

  /** No two agents are promised one task. */
  predicate OneEach(c: Clock) {
    forall a, b :: a in c.claims && b in c.claims && a != b
                   ==> c.claims[a].path != c.claims[b].path || c.claims[a].text != c.claims[b].text
  }

  predicate Distinct(texts: seq<string>) {
    forall i, j :: 0 <= i < j < |texts| ==> texts[i] != texts[j]
  }

  lemma {:induction false} UnpromisedIsFree(c: Clock, path: string, texts: seq<string>)
    ensures forall t :: t in Unpromised(c, path, texts) <==> t in texts && !Promised(c, path, t)
    ensures Distinct(texts) ==> Distinct(Unpromised(c, path, texts))
  {
    if texts != [] {
      UnpromisedIsFree(c, path, texts[..|texts| - 1]);
      assert texts == texts[..|texts| - 1] + [texts[|texts| - 1]];
      assert Distinct(texts) ==> Distinct(texts[..|texts| - 1]) && texts[|texts| - 1] !in texts[..|texts| - 1];
    }
  }

  /** A sequence of drives of distinct ready agents, each promised a free text of one list. */
  ghost predicate Fair(c: Clock, ticks: seq<Tick>, path: string, now: int) {
    && (forall k :: 0 <= k < |ticks| ==>
          (ticks[k].Drove? && ticks[k].now == now && ticks[k].claim.path == path
           && Ready(c, ticks[k].agent, now) && !Promised(c, path, ticks[k].claim.text)))
    && (forall i, j :: 0 <= i < j < |ticks| ==> ticks[i].agent.id != ticks[j].agent.id)
  }

  predicate TextsDiffer(ticks: seq<Tick>) {
    forall i, j :: 0 <= i < j < |ticks| && ticks[i].Drove? && ticks[j].Drove? ==> ticks[i].claim.text != ticks[j].claim.text
  }

  /** What drives leave: the driven agents hold the claims just made, the others what they had. */
  lemma {:induction false} DrivesClaim(c: Clock, ticks: seq<Tick>, id: AgentId)
    requires forall k :: 0 <= k < |ticks| ==> ticks[k].Drove?
    ensures id !in Driven(ticks) ==> SameAt(Apply(c, ticks), c, id)
    ensures id in Driven(ticks) ==> exists k :: 0 <= k < |ticks| && ticks[k].agent.id == id
                                      && id in Apply(c, ticks).claims && Apply(c, ticks).claims[id] == ticks[k].claim
  {
    if ticks != [] {
      var n := |ticks| - 1;
      DrivesClaim(c, ticks[..n], id);
      assert ticks == ticks[..n] + [ticks[n]];
      assert Driven(ticks) == Driven(ticks[..n]) + {ticks[n].agent.id};
      if ticks[n].agent.id != id && id in Driven(ticks) {
        var k :| 0 <= k < n && ticks[..n][k].agent.id == id && id in Apply(c, ticks[..n]).claims
                 && Apply(c, ticks[..n]).claims[id] == ticks[..n][k].claim;
        assert ticks[k] == ticks[..n][k];
      }
    }
  }

  lemma FairIsLegal(c: Clock, ticks: seq<Tick>, path: string, now: int)
    requires Fair(c, ticks, path, now)
    ensures LegalFrom(c, ticks)
  {
    hide Apply;
    forall k | 0 <= k < |ticks| ensures ticks[k].Drove? && Ready(Apply(c, ticks[..k]), ticks[k].agent, ticks[k].now) {
      DrivesClaim(c, ticks[..k], ticks[k].agent.id);
      assert ticks[k].agent.id !in Driven(ticks[..k]);
    }
  }

  lemma FairKeepsOneEach(c: Clock, ticks: seq<Tick>, path: string, now: int)
    requires Fair(c, ticks, path, now) && TextsDiffer(ticks) && OneEach(c)
    ensures OneEach(Apply(c, ticks))
  {
    hide Apply, Ready;
    var v := Apply(c, ticks);
    forall a, b | a in v.claims && b in v.claims && a != b
      ensures v.claims[a].path != v.claims[b].path || v.claims[a].text != v.claims[b].text
    {
      DrivesClaim(c, ticks, a);
      DrivesClaim(c, ticks, b);
      if a in Driven(ticks) && b in Driven(ticks) {
        var i :| 0 <= i < |ticks| && ticks[i].agent.id == a && v.claims[a] == ticks[i].claim;
        var j :| 0 <= j < |ticks| && ticks[j].agent.id == b && v.claims[b] == ticks[j].claim;
        assert i < j || j < i;
      }
    }
  }

  predicate ReadDistinct(seen: map<string, seq<TaskFile.Task>>) {
    forall f :: f in seen ==> Distinct(TaskFile.Pending(seen[f]))
  }

  lemma GroupIsFair(c: Clock, g: Group, seen: map<string, seq<TaskFile.Task>>, now: int)
    requires GroupsReady(c, [g], now) && Unique(g.agents)
    ensures Fair(c, DrivesOf(c, g, seen, now), g.locator.path, now)
    ensures ReadDistinct(seen) ==> TextsDiffer(DrivesOf(c, g, seen, now))
    ensures forall t :: t in DrivesOf(c, g, seen, now) ==> t.Drove? && t.agent in g.agents
  {
    hide Ready;
    if g.locator.spelling in seen {
      UnpromisedIsFree(c, g.locator.path, TaskFile.Pending(seen[g.locator.spelling]));
    }
  }

  ghost predicate GroupsReady(c: Clock, groups: seq<Group>, now: int) {
    forall g, a :: g in groups && a in g.agents ==> Ready(c, a, now)
  }

  lemma {:induction false} GroupIdsHold(groups: seq<Group>, g: Group, a: Agent)
    requires g in groups && a in g.agents
    ensures a.id in GroupIds(groups)
  {
    if g != groups[0] { GroupIdsHold(groups[1..], g, a); }
  }

  lemma RestStaysReady(c: Clock, groups: seq<Group>, first: seq<Tick>, now: int)
    requires groups != [] && Apart(groups) && GroupsReady(c, groups, now)
    requires forall t :: t in first ==> t.Drove? && t.agent in groups[0].agents
    ensures GroupsReady(Apply(c, first), groups[1..], now)
  {
    hide Ready, Apply;
    forall g, a | g in groups[1..] && a in g.agents ensures Ready(Apply(c, first), a, now) {
      GroupIdsHold(groups[1..], g, a);
      assert g in groups;
      DrivesClaim(c, first, a.id);
      assert a.id !in Driven(first);
      ReadyIsLocal(c, Apply(c, first), a, now);
    }
  }

  /** The drives of one source: legal, only of its eligible agents, and one task to one agent. */
  lemma {:induction false} PairGroupsIsSafe(c: Clock, groups: seq<Group>, agents: seq<Agent>, seen: map<string, seq<TaskFile.Task>>, now: int)
    requires Apart(groups) && Within(groups, agents) && GroupsReady(c, groups, now)
    ensures var ticks := PairGroups(c, groups, seen, now);
            && LegalFrom(c, ticks)
            && (forall t :: t in ticks ==> t.Drove? && t.agent in agents)
            && (OneEach(c) && ReadDistinct(seen) ==> OneEach(Apply(c, ticks)))
    decreases |groups|
  {
    hide Ready, Apply, DrivesOf, ReadDistinct, OneEach, LegalFrom, GroupIds, Unique;
    if groups == [] {
      NoTicks(c);
    } else {
      var first := DrivesOf(c, groups[0], seen, now);
      assert groups[0] in groups && forall g :: g in groups[1..] ==> g in groups;
      GroupIsFair(c, groups[0], seen, now);
      RestStaysReady(c, groups, first, now);
      FairIsLegal(c, first, groups[0].locator.path, now);
      if OneEach(c) && ReadDistinct(seen) { FairKeepsOneEach(c, first, groups[0].locator.path, now); }
      PairGroupsIsSafe(Apply(c, first), groups[1..], agents, seen, now);
      var more := PairGroups(Apply(c, first), groups[1..], seen, now);
      LegalFromConcat(c, first, more);
      ApplyConcat(c, first, more);
    }
  }

  lemma NoTicks(c: Clock)
    ensures Apply(c, []) == c && LegalFrom(c, [])
  {
  }

  lemma ReadyIsLocal(c: Clock, d: Clock, a: Agent, now: int)
    requires Ready(c, a, now) && SameAt(d, c, a.id)
    ensures Ready(d, a, now)
  {
  }

  /**
   A whole sweep drives only listed agents that every gate lets through and that hold no hand-out in
   doubt, and leaves no task promised to two agents when the texts it read were distinct, however many
   sources resolve to one list.
   */
  lemma {:induction false} SweepIsSafe(c: Clock, sources: seq<Source>, agents: seq<Agent>, awaiting: set<AgentId>, now: int)
    requires Unique(agents)
    ensures var ticks := PairSources(c, sources, agents, awaiting, now);
            && LegalFrom(c, ticks)
            && (forall t :: t in ticks ==> t.Drove? && t.agent in agents && t.agent.id !in awaiting)
            && (OneEach(c) && (forall s :: s in sources ==> ReadDistinct(s.seen)) ==> OneEach(Apply(c, ticks)))
  {
    hide Apply, LegalFrom, OneEach, ReadDistinct, Apart, Unique, Ready, Eligible;
    if sources == [] {
      NoTicks(c);
    } else {
      var n := |sources| - 1;
      var s := sources[n];
      SweepIsSafe(c, sources[..n], agents, awaiting, now);
      var before := PairSources(c, sources[..n], agents, awaiting, now);
      var at := Apply(c, before);
      var eligible := EligibleAgents(at, agents, s.allows, awaiting + Driven(before), now);
      EligibleInOrder(at, agents, s.allows, awaiting + Driven(before), now);
      var groups := Groups(s.resolution, eligible);
      ResolvedGroupsAreApart(s.resolution, eligible);
      forall a | a in eligible ensures Ready(at, a, now) && a.id !in awaiting {
        EligibleIsClocked(at, a, s.allows, awaiting + Driven(before), now);
      }
      PairGroupsIsSafe(at, groups, eligible, s.seen, now);
      var more := PairGroups(at, groups, s.seen, now);
      LegalFromConcat(c, before, more);
      ApplyConcat(c, before, more);
      assert sources == sources[..n] + [s];
    }
  }

  // ----- whose list a promised task comes from -----

  function ResolvesTo(r: Resolution, id: AgentId): Option<Locator> {
    match r
    case Whole(file) => file
    case PerAgent(files) => if id in files then Some(files[id]) else None
  }

  /** The canonical key belongs to the spelling. */
  predicate OnePath(r: Resolution) {
    r.PerAgent? ==> forall i, j :: i in r.files && j in r.files && r.files[i].spelling == r.files[j].spelling
                                   ==> r.files[i].path == r.files[j].path
  }

  /** The drive is of an agent the source allows, and promises a task open in that agent's own list as it was read. */
  ghost predicate OwnTask(s: Source, t: Tick, now: int) {
    && t.Drove? && t.now == now && t.claim.at == now && t.agent.id in s.allows
    && ResolvesTo(s.resolution, t.agent.id).Some?
    && var file := ResolvesTo(s.resolution, t.agent.id).value;
    && t.claim.path == file.path && file.spelling in s.seen
    && exists i :: 0 <= i < |s.seen[file.spelling]|
                   && s.seen[file.spelling][i].text == t.claim.text && s.seen[file.spelling][i].mark == TaskFile.OPEN
  }

  lemma GroupIsOwn(r: Resolution, agents: seq<Agent>, g: Group, a: Agent)
    requires OnePath(r) && g in Groups(r, agents) && a in g.agents
    ensures a in agents && ResolvesTo(r, a.id).Some?
    ensures ResolvesTo(r, a.id).value.spelling == g.locator.spelling && ResolvesTo(r, a.id).value.path == g.locator.path
  {
    if r.PerAgent? {
      InGroupIff(r.files, agents, g, a);
      LocatorIsSomeones(r.files, agents);
    }
  }

  lemma {:induction false} PendingIsOpen(tasks: seq<TaskFile.Task>, text: string)
    ensures text in TaskFile.Pending(tasks) <==> exists i :: 0 <= i < |tasks| && tasks[i].text == text && tasks[i].mark == TaskFile.OPEN
  {
    if tasks != [] {
      PendingIsOpen(tasks[1..], text);
      if i :| 0 <= i < |tasks[1..]| && tasks[1..][i].text == text && tasks[1..][i].mark == TaskFile.OPEN {
        assert tasks[i + 1].text == text;
      }
      if i :| 0 <= i < |tasks| && tasks[i].text == text && tasks[i].mark == TaskFile.OPEN {
        if i > 0 { assert tasks[1..][i - 1].text == text; }
      }
    }
  }

  lemma DrivesAreOwn(c: Clock, s: Source, agents: seq<Agent>, g: Group, now: int)
    requires OnePath(s.resolution) && g in Groups(s.resolution, agents) && forall a :: a in agents ==> a.id in s.allows
    ensures forall t :: t in DrivesOf(c, g, s.seen, now) ==> OwnTask(s, t, now)
  {
    hide Groups, OnePath, ResolvesTo, Unpromised, TaskFile.Pending;
    var ticks := DrivesOf(c, g, s.seen, now);
    forall k | 0 <= k < |ticks| ensures OwnTask(s, ticks[k], now) {
      var texts := TaskFile.Pending(s.seen[g.locator.spelling]);
      var free := Unpromised(c, g.locator.path, texts);
      UnpromisedIsFree(c, g.locator.path, texts);
      assert ticks[k].claim.text == free[k] && free[k] in free;
      PendingIsOpen(s.seen[g.locator.spelling], free[k]);
      GroupIsOwn(s.resolution, agents, g, g.agents[k]);
    }
  }

  lemma {:induction false} SourceDrivesAreOwn(c: Clock, s: Source, agents: seq<Agent>, groups: seq<Group>, now: int)
    requires OnePath(s.resolution) && (forall a :: a in agents ==> a.id in s.allows)
    requires forall g :: g in groups ==> g in Groups(s.resolution, agents)
    ensures forall t :: t in PairGroups(c, groups, s.seen, now) ==> OwnTask(s, t, now)
    decreases |groups|
  {
    hide OwnTask, DrivesOf, Groups, OnePath, Apply;
    if groups != [] {
      assert groups[0] in groups && forall g :: g in groups[1..] ==> g in groups;
      DrivesAreOwn(c, s, agents, groups[0], now);
      SourceDrivesAreOwn(Apply(c, DrivesOf(c, groups[0], s.seen, now)), s, agents, groups[1..], now);
    }
  }

  /** Over a whole sweep, every agent driven is promised a task of its own list under one of the sources. */
  lemma {:induction false} SweepDrivesOwnLists(c: Clock, sources: seq<Source>, agents: seq<Agent>, awaiting: set<AgentId>, now: int)
    requires Unique(agents) && forall s :: s in sources ==> OnePath(s.resolution)
    ensures forall t :: t in PairSources(c, sources, agents, awaiting, now) ==> exists s :: s in sources && OwnTask(s, t, now)
  {
    hide OwnTask, Groups, OnePath, Apply, Eligible, Unique, PairGroups;
    if sources != [] {
      var n := |sources| - 1;
      var s := sources[n];
      assert sources == sources[..n] + [s];
      SweepDrivesOwnLists(c, sources[..n], agents, awaiting, now);
      var before := PairSources(c, sources[..n], agents, awaiting, now);
      var at, barred := Apply(c, before), awaiting + Driven(before);
      var eligible := EligibleAgents(at, agents, s.allows, barred, now);
      EligibleInOrder(at, agents, s.allows, barred, now);
      forall a | a in eligible ensures a.id in s.allows { EligibleIsAllowed(at, a, s.allows, barred, now); }
      SourceDrivesAreOwn(at, s, eligible, Groups(s.resolution, eligible), now);
    }
  }

  lemma EligibleIsAllowed(c: Clock, a: Agent, allows: set<AgentId>, barred: set<AgentId>, now: int)
    requires Eligible(c, a, allows, barred, now)
    ensures a.id in allows
  {
  }

  // ----- nobody is left waiting beside an open task -----

  predicate AllPromised(c: Clock, path: string, tasks: seq<TaskFile.Task>) {
    forall i :: 0 <= i < |tasks| && tasks[i].mark == TaskFile.OPEN ==> Promised(c, path, tasks[i].text)
  }

  /** A group gives each of its agents a task, or promises every open one. */
  lemma GroupServes(c: Clock, g: Group, seen: map<string, seq<TaskFile.Task>>, now: int, a: Agent)
    requires GroupsReady(c, [g], now) && Unique(g.agents) && a in g.agents && g.locator.spelling in seen
    ensures var ticks := DrivesOf(c, g, seen, now);
            a.id in Driven(ticks) || AllPromised(Apply(c, ticks), g.locator.path, seen[g.locator.spelling])
  {
    hide Apply, Unpromised, Promised, Ready, TaskFile.Pending;
    var tasks, ticks := seen[g.locator.spelling], DrivesOf(c, g, seen, now);
    var free := Unpromised(c, g.locator.path, TaskFile.Pending(tasks));
    if |free| < |g.agents| {
      UnpromisedIsFree(c, g.locator.path, TaskFile.Pending(tasks));
      GroupIsFair(c, g, seen, now);
      FairIsLegal(c, ticks, g.locator.path, now);
      forall i | 0 <= i < |tasks| && tasks[i].mark == TaskFile.OPEN ensures Promised(Apply(c, ticks), g.locator.path, tasks[i].text) {
        PendingIsOpen(tasks, tasks[i].text);
        if Promised(c, g.locator.path, tasks[i].text) {
          PromisesStand(c, ticks, g.locator.path, tasks[i].text);
        } else {
          var k :| 0 <= k < |free| && free[k] == tasks[i].text;
          FreeIsPromised(c, g, seen, now, k);
        }
      }
    } else {
      var k :| 0 <= k < |g.agents| && g.agents[k] == a;
      assert ticks[k] in ticks && ticks[k].agent == a;
    }
  }

  lemma FreeIsPromised(c: Clock, g: Group, seen: map<string, seq<TaskFile.Task>>, now: int, k: nat)
    requires Unique(g.agents) && k < |Offered(c, g, seen)|
    ensures Promised(Apply(c, DrivesOf(c, g, seen, now)), g.locator.path, Offered(c, g, seen)[k])
  {
    hide Apply, DrivesOf, Offered;
    OfferedIsClaimed(c, g, seen, now, k);
  }

  lemma PromisesStand(c: Clock, ticks: seq<Tick>, path: string, text: string)
    requires LegalFrom(c, ticks) && (forall t :: t in ticks ==> t.Drove?) && Promised(c, path, text)
    ensures Promised(Apply(c, ticks), path, text)
  {
    hide Apply, LegalFrom;
    var id :| id in c.claims && c.claims[id].path == path && c.claims[id].text == text;
    DrivesKeepClaims(c, ticks, id);
  }

  lemma AllPromisesStand(c: Clock, ticks: seq<Tick>, path: string, tasks: seq<TaskFile.Task>)
    requires LegalFrom(c, ticks) && (forall t :: t in ticks ==> t.Drove?) && AllPromised(c, path, tasks)
    ensures AllPromised(Apply(c, ticks), path, tasks)
  {
    hide Apply, LegalFrom, Promised;
    forall i | 0 <= i < |tasks| && tasks[i].mark == TaskFile.OPEN ensures Promised(Apply(c, ticks), path, tasks[i].text) {
      PromisesStand(c, ticks, path, tasks[i].text);
    }
  }

  ghost predicate Served(c: Clock, ticks: seq<Tick>, a: Agent, file: Locator, seen: map<string, seq<TaskFile.Task>>) {
    file.spelling in seen ==> a.id in Driven(ticks) || AllPromised(Apply(c, ticks), file.path, seen[file.spelling])
  }

  lemma ServedStays(c: Clock, ticks: seq<Tick>, more: seq<Tick>, a: Agent, file: Locator, seen: map<string, seq<TaskFile.Task>>)
    requires Served(c, ticks, a, file, seen) && LegalFrom(Apply(c, ticks), more) && forall t :: t in more ==> t.Drove?
    ensures Served(c, ticks + more, a, file, seen)
  {
    hide Apply, LegalFrom, AllPromised;
    ApplyConcat(c, ticks, more);
    if file.spelling in seen {
      if a.id in Driven(ticks) {
        var t :| t in ticks && t.Drove? && t.agent.id == a.id;
        assert t in ticks + more;
      } else {
        AllPromisesStand(Apply(c, ticks), more, file.path, seen[file.spelling]);
      }
    }
  }

  lemma {:induction false} GroupsServe(c: Clock, groups: seq<Group>, agents: seq<Agent>, seen: map<string, seq<TaskFile.Task>>, now: int, g: Group, a: Agent)
    requires Apart(groups) && Within(groups, agents) && GroupsReady(c, groups, now) && g in groups && a in g.agents
    ensures Served(c, PairGroups(c, groups, seen, now), a, g.locator, seen)
    decreases |groups|
  {
    hide Ready, Apply, DrivesOf, LegalFrom, GroupIds, Unique, Served;
    var first := DrivesOf(c, groups[0], seen, now);
    assert groups[0] in groups && forall x :: x in groups[1..] ==> x in groups;
    GroupIsFair(c, groups[0], seen, now);
    FairIsLegal(c, first, groups[0].locator.path, now);
    RestStaysReady(c, groups, first, now);
    var at := Apply(c, first);
    var more := PairGroups(at, groups[1..], seen, now);
    PairGroupsIsSafe(at, groups[1..], agents, seen, now);
    if g == groups[0] {
      FirstServes(c, g, seen, now, a);
      ServedStays(c, first, more, a, g.locator, seen);
    } else {
      GroupsServe(at, groups[1..], agents, seen, now, g, a);
      ServedLater(c, first, more, a, g.locator, seen);
    }
  }

  lemma FirstServes(c: Clock, g: Group, seen: map<string, seq<TaskFile.Task>>, now: int, a: Agent)
    requires GroupsReady(c, [g], now) && Unique(g.agents) && a in g.agents
    ensures Served(c, DrivesOf(c, g, seen, now), a, g.locator, seen)
  {
    hide DrivesOf, AllPromised, Apply;
    if g.locator.spelling in seen { GroupServes(c, g, seen, now, a); }
  }

  lemma ServedLater(c: Clock, ticks: seq<Tick>, more: seq<Tick>, a: Agent, file: Locator, seen: map<string, seq<TaskFile.Task>>)
    requires Served(Apply(c, ticks), more, a, file, seen)
    ensures Served(c, ticks + more, a, file, seen)
  {
    hide Apply, AllPromised;
    ApplyConcat(c, ticks, more);
    if a.id in Driven(more) {
      var t :| t in more && t.Drove? && t.agent.id == a.id;
      assert t in ticks + more;
    }
  }

  lemma GroupOfAgent(r: Resolution, agents: seq<Agent>, a: Agent) returns (g: Group)
    requires a in agents && OnePath(r) && ResolvesTo(r, a.id).Some?
    ensures g in Groups(r, agents) && a in g.agents
    ensures g.locator.spelling == ResolvesTo(r, a.id).value.spelling && g.locator.path == ResolvesTo(r, a.id).value.path
  {
    match r
    case Whole(file) => g := Group(file.value, agents);
    case PerAgent(files) =>
      GroupsAreLists(files, agents);
      ListsAre(files, agents);
      assert Uses(files, a, files[a.id].spelling) && files[a.id].spelling in Lists(files, agents);
      var i :| 0 <= i < |Lists(files, agents)| && Lists(files, agents)[i] == files[a.id].spelling;
      g := GroupsOf(files, agents)[i];
      UsersAre(files, agents, files[a.id].spelling);
      LocatorIsSomeones(files, agents);
  }

  /**
   The turn of one source: an agent that every gate lets through is given a task of its own list, or every
   task that list showed open is promised; an unreadable list gives nothing.
   */
  lemma SourceServes(c: Clock, s: Source, agents: seq<Agent>, barred: set<AgentId>, now: int, a: Agent)
    requires Unique(agents) && OnePath(s.resolution) && a in agents && Eligible(c, a, s.allows, barred, now)
    requires ResolvesTo(s.resolution, a.id).Some?
    ensures Served(c, PairGroups(c, Groups(s.resolution, EligibleAgents(c, agents, s.allows, barred, now)), s.seen, now),
                   a, ResolvesTo(s.resolution, a.id).value, s.seen)
  {
    hide Apply, Ready, Apart, Unique, Groups, Served, OnePath, ResolvesTo, Eligible, Within;
    var eligible := EligibleAgents(c, agents, s.allows, barred, now);
    EligibleInOrder(c, agents, s.allows, barred, now);
    var groups := Groups(s.resolution, eligible);
    ResolvedGroupsAreApart(s.resolution, eligible);
    forall b | b in eligible ensures Ready(c, b, now) { EligibleIsClocked(c, b, s.allows, barred, now); }
    WithinIsReady(c, groups, eligible, now);
    var g := GroupOfAgent(s.resolution, eligible, a);
    GroupsServe(c, groups, eligible, s.seen, now, g, a);
    SameFileServes(c, PairGroups(c, groups, s.seen, now), a, g.locator, ResolvesTo(s.resolution, a.id).value, s.seen);
  }

  lemma SameFileServes(c: Clock, ticks: seq<Tick>, a: Agent, file: Locator, other: Locator, seen: map<string, seq<TaskFile.Task>>)
    requires Served(c, ticks, a, file, seen) && file.spelling == other.spelling && file.path == other.path
    ensures Served(c, ticks, a, other, seen)
  {
  }

  lemma {:induction false} SweepContinues(c: Clock, sources: seq<Source>, agents: seq<Agent>, awaiting: set<AgentId>, now: int, k: nat)
    returns (more: seq<Tick>)
    requires k <= |sources|
    ensures PairSources(c, sources, agents, awaiting, now) == PairSources(c, sources[..k], agents, awaiting, now) + more
  {
    hide PairGroups, Apply, Groups, EligibleAgents;
    if k == |sources| {
      assert sources[..k] == sources;
      more := [];
    } else {
      var n := |sources| - 1;
      more := SweepContinues(c, sources[..n], agents, awaiting, now, k);
      assert sources[..n][..k] == sources[..k];
      var before := PairSources(c, sources[..n], agents, awaiting, now);
      more := more + PairSources(c, sources, agents, awaiting, now)[|before|..];
    }
  }

  /**
   Over a whole sweep: an agent that every gate lets through when a source's turn comes, and whose list
   under it was read, is driven, or every task that list showed open is promised by the sweep's end.
   */
  lemma SweepLeavesNobodyWaiting(c: Clock, sources: seq<Source>, agents: seq<Agent>, awaiting: set<AgentId>, now: int, k: nat, a: Agent)
    requires Unique(agents) && k < |sources| && OnePath(sources[k].resolution) && a in agents
    requires ResolvesTo(sources[k].resolution, a.id).Some? && ResolvesTo(sources[k].resolution, a.id).value.spelling in sources[k].seen
    requires var before := PairSources(c, sources[..k], agents, awaiting, now);
             Eligible(Apply(c, before), a, sources[k].allows, awaiting + Driven(before), now)
    ensures var ticks, file := PairSources(c, sources, agents, awaiting, now), ResolvesTo(sources[k].resolution, a.id).value;
            a.id in Driven(ticks) || AllPromised(Apply(c, ticks), file.path, sources[k].seen[file.spelling])
  {
    hide PairGroups, Apply, Groups, EligibleAgents, Eligible, OnePath, ResolvesTo, Unique, LegalFrom, AllPromised;
    var s, file := sources[k], ResolvesTo(sources[k].resolution, a.id).value;
    var before := PairSources(c, sources[..k], agents, awaiting, now);
    var at, barred := Apply(c, before), awaiting + Driven(before);
    SourceServes(at, s, agents, barred, now, a);
    var mine := PairGroups(at, Groups(s.resolution, EligibleAgents(at, agents, s.allows, barred, now)), s.seen, now);
    assert sources[..k + 1][..k] == sources[..k] && sources[..k + 1][k] == s;
    assert PairSources(c, sources[..k + 1], agents, awaiting, now) == before + mine;
    ServedLater(c, before, mine, a, file, s.seen);
    var more := SweepContinues(c, sources, agents, awaiting, now, k + 1);
    SweepIsSafe(c, sources, agents, awaiting, now);
    LegalFromSplit(c, before + mine, more);
    assert forall t :: t in more ==> t in before + mine + more;
    ServedStays(c, before + mine, more, a, file, s.seen);
  }

  // ----- exactly when one task stays with one agent -----

  /** The texts a group's drives take. */
  function Offered(c: Clock, g: Group, seen: map<string, seq<TaskFile.Task>>): seq<string> {
    if g.locator.spelling !in seen then []
    else
      var free := Unpromised(c, g.locator.path, TaskFile.Pending(seen[g.locator.spelling]));
      free[..Min(|g.agents|, |free|)]
  }

  lemma OfferedIsClaimed(c: Clock, g: Group, seen: map<string, seq<TaskFile.Task>>, now: int, i: nat)
    requires Unique(g.agents) && i < |Offered(c, g, seen)|
    ensures i < |g.agents| && g.agents[i].id in Apply(c, DrivesOf(c, g, seen, now)).claims
    ensures Apply(c, DrivesOf(c, g, seen, now)).claims[g.agents[i].id] == Claim(g.locator.path, Offered(c, g, seen)[i], now)
  {
    hide Apply, Unpromised;
    var ticks := DrivesOf(c, g, seen, now);
    assert ticks[i] in ticks && ticks[i].agent == g.agents[i];
    DrivesClaim(c, ticks, g.agents[i].id);
    var k :| 0 <= k < |ticks| && ticks[k].agent.id == g.agents[i].id && Apply(c, ticks).claims[g.agents[i].id] == ticks[k].claim;
    assert k == i;
  }

  /** A group keeps one task to one agent exactly when the open, unpromised texts it hands out are distinct. */
  lemma GroupOneEachIff(c: Clock, g: Group, seen: map<string, seq<TaskFile.Task>>, now: int)
    requires GroupsReady(c, [g], now) && Unique(g.agents) && OneEach(c)
    ensures OneEach(Apply(c, DrivesOf(c, g, seen, now))) <==> Distinct(Offered(c, g, seen))
  {
    hide Apply, Unpromised, Ready;
    var ticks := DrivesOf(c, g, seen, now);
    GroupIsFair(c, g, seen, now);
    if Distinct(Offered(c, g, seen)) {
      FairKeepsOneEach(c, ticks, g.locator.path, now);
    } else {
      var i, j :| 0 <= i < j < |Offered(c, g, seen)| && Offered(c, g, seen)[i] == Offered(c, g, seen)[j];
      OfferedIsClaimed(c, g, seen, now, i);
      OfferedIsClaimed(c, g, seen, now, j);
    }
  }

  /** Group by group, each from the claims the earlier ones left. */
  predicate OfferedApart(c: Clock, groups: seq<Group>, seen: map<string, seq<TaskFile.Task>>, now: int)
    decreases |groups|
  {
    groups == [] ||
    (Distinct(Offered(c, groups[0], seen)) && OfferedApart(Apply(c, DrivesOf(c, groups[0], seen, now)), groups[1..], seen, now))
  }

  /** A drive is never given to an agent that holds a claim, so a claim outlasts the drives that follow it. */
  lemma {:induction false} DrivesKeepClaims(c: Clock, ticks: seq<Tick>, id: AgentId)
    requires LegalFrom(c, ticks) && (forall t :: t in ticks ==> t.Drove?) && id in c.claims
    ensures id in Apply(c, ticks).claims && Apply(c, ticks).claims[id] == c.claims[id]
  {
    hide Delay, IdleLongEnough, Unique, Ready;
    if ticks != [] {
      var n := |ticks| - 1;
      var t := ticks[n];
      assert t in ticks && forall x :: x in ticks[..n] ==> x in ticks;
      forall k | 0 <= k < n ensures ticks[..n][..k] == ticks[..k] {}
      DrivesKeepClaims(c, ticks[..n], id);
      DriveKeepsOthers(Apply(c, ticks[..n]), t, id);
    }
  }

  lemma DriveKeepsOthers(c: Clock, t: Tick, id: AgentId)
    requires t.Drove? && Ready(c, t.agent, t.now) && id in c.claims
    ensures id in Next(c, t).claims && Next(c, t).claims[id] == c.claims[id]
  {
    hide Delay;
  }

  lemma BrokenStaysBroken(c: Clock, ticks: seq<Tick>)
    requires LegalFrom(c, ticks) && (forall t :: t in ticks ==> t.Drove?) && !OneEach(c)
    ensures !OneEach(Apply(c, ticks))
  {
    hide Apply, LegalFrom;
    var a, b :| a in c.claims && b in c.claims && a != b && c.claims[a].path == c.claims[b].path && c.claims[a].text == c.claims[b].text;
    DrivesKeepClaims(c, ticks, a);
    DrivesKeepClaims(c, ticks, b);
  }

  lemma {:induction false} PairGroupsOneEachIff(c: Clock, groups: seq<Group>, agents: seq<Agent>, seen: map<string, seq<TaskFile.Task>>, now: int)
    requires Apart(groups) && Within(groups, agents) && GroupsReady(c, groups, now) && OneEach(c)
    ensures OneEach(Apply(c, PairGroups(c, groups, seen, now))) <==> OfferedApart(c, groups, seen, now)
    decreases |groups|
  {
    hide Ready, Apply, DrivesOf, Offered, OneEach, LegalFrom, GroupIds, Unique, Distinct;
    if groups == [] {
      NoTicks(c);
    } else {
      var first := DrivesOf(c, groups[0], seen, now);
      assert groups[0] in groups && forall g :: g in groups[1..] ==> g in groups;
      GroupIsFair(c, groups[0], seen, now);
      GroupOneEachIff(c, groups[0], seen, now);
      RestStaysReady(c, groups, first, now);
      var at := Apply(c, first);
      var more := PairGroups(at, groups[1..], seen, now);
      ApplyConcat(c, first, more);
      if OneEach(at) {
        PairGroupsOneEachIff(at, groups[1..], agents, seen, now);
      } else {
        PairGroupsIsSafe(at, groups[1..], agents, seen, now);
        BrokenStaysBroken(at, more);
      }
    }
  }

  /** Source by source, over a whole sweep. */
  predicate SweepOffersApart(c: Clock, sources: seq<Source>, agents: seq<Agent>, awaiting: set<AgentId>, now: int) {
    sources == [] ||
    (var front := sources[..|sources| - 1];
     var before, s := PairSources(c, front, agents, awaiting, now), sources[|sources| - 1];
     var at := Apply(c, before);
     && SweepOffersApart(c, front, agents, awaiting, now)
     && OfferedApart(at, Groups(s.resolution, EligibleAgents(at, agents, s.allows, awaiting + Driven(before), now)), s.seen, now))
  }

  /**
   A sweep keeps every task with one agent exactly when each group is offered distinct texts, which the
   poll can tell from what it read before it makes a claim.
   */
  lemma {:induction false} SweepOneEachIff(c: Clock, sources: seq<Source>, agents: seq<Agent>, awaiting: set<AgentId>, now: int)
    requires Unique(agents) && OneEach(c)
    ensures OneEach(Apply(c, PairSources(c, sources, agents, awaiting, now))) <==> SweepOffersApart(c, sources, agents, awaiting, now)
  {
    hide Apply, LegalFrom, OneEach, Apart, Unique, Ready, Eligible, OfferedApart, Within;
    if sources == [] {
      NoTicks(c);
    } else {
      var n := |sources| - 1;
      var s := sources[n];
      SweepOneEachIff(c, sources[..n], agents, awaiting, now);
      SweepIsSafe(c, sources[..n], agents, awaiting, now);
      var before := PairSources(c, sources[..n], agents, awaiting, now);
      var at := Apply(c, before);
      var eligible := EligibleAgents(at, agents, s.allows, awaiting + Driven(before), now);
      EligibleInOrder(at, agents, s.allows, awaiting + Driven(before), now);
      var groups := Groups(s.resolution, eligible);
      ResolvedGroupsAreApart(s.resolution, eligible);
      forall a | a in eligible ensures Ready(at, a, now) {
        EligibleIsClocked(at, a, s.allows, awaiting + Driven(before), now);
      }
      assert GroupsReady(at, groups, now) by { WithinIsReady(at, groups, eligible, now); }
      var more := PairGroups(at, groups, s.seen, now);
      ApplyConcat(c, before, more);
      if OneEach(at) {
        PairGroupsOneEachIff(at, groups, eligible, s.seen, now);
      } else {
        PairGroupsIsSafe(at, groups, eligible, s.seen, now);
        BrokenStaysBroken(at, more);
      }
    }
  }

  lemma WithinIsReady(c: Clock, groups: seq<Group>, agents: seq<Agent>, now: int)
    requires Within(groups, agents) && forall a :: a in agents ==> Ready(c, a, now)
    ensures GroupsReady(c, groups, now)
  {
  }

  /** With a text repeated among the open tasks, one sweep can promise it twice. */
  lemma RepeatedTextIsPromisedTwice(c: Clock, agents: seq<Agent>, s: Source, now: int)
    requires agents == [Agent(1, "p", "", "idle"), Agent(2, "q", "", "idle")]
    requires c == Clock(map[1 := IdleMark("p", "", 0), 2 := IdleMark("q", "", 0)], map[], map[]) && now == 100
    requires s == Source(Whole(Some(Locator("t.md", "/t.md"))), {1, 2},
                         map["t.md" := [TaskFile.Task(1, "run", TaskFile.OPEN), TaskFile.Task(2, "run", TaskFile.OPEN)]])
    ensures OneEach(c) && !OneEach(Apply(c, PairSources(c, [s], agents, {}, now)))
  {
    hide Delay, EligibleAgents, DrivesOf, Apply;
    var g, claim := Group(Locator("t.md", "/t.md"), agents), Claim("/t.md", "run", now);
    var ticks := [Drove(agents[0], claim, now), Drove(agents[1], claim, now)];
    BothAreEligible(c, agents, now);
    BothAreDriven(c, g, s.seen, now);
    assert Apply(c, []) == c by { NoTicks(c); }
    assert Driven([]) == {} && {} + Driven([]) == {};
    assert [g][1..] == [] && PairGroups(c, [g], s.seen, now) == ticks;
    assert [s][..0] == [] && PairSources(c, [s], agents, {}, now) == ticks;
    DrivesClaim(c, ticks, 1);
    DrivesClaim(c, ticks, 2);
    assert 1 in Driven(ticks) && 2 in Driven(ticks) by {
      assert ticks[0] in ticks && ticks[1] in ticks;
    }
  }

  lemma BothAreEligible(c: Clock, agents: seq<Agent>, now: int)
    requires agents == [Agent(1, "p", "", "idle"), Agent(2, "q", "", "idle")]
    requires c == Clock(map[1 := IdleMark("p", "", 0), 2 := IdleMark("q", "", 0)], map[], map[]) && now == 100
    ensures EligibleAgents(c, agents, {1, 2}, {}, now) == agents
  {
    assert agents[..1][..0] == [] && agents[..1][0] == agents[0];
    assert EligibleAgents(c, agents[..1], {1, 2}, {}, now) == [agents[0]];
  }

  lemma BothAreDriven(c: Clock, g: Group, seen: map<string, seq<TaskFile.Task>>, now: int)
    requires c.claims == map[] && |g.agents| == 2 && g.locator == Locator("t.md", "/t.md")
    requires seen == map["t.md" := [TaskFile.Task(1, "run", TaskFile.OPEN), TaskFile.Task(2, "run", TaskFile.OPEN)]]
    ensures var claim := Claim("/t.md", "run", now); DrivesOf(c, g, seen, now) == [Drove(g.agents[0], claim, now), Drove(g.agents[1], claim, now)]
  {
    var tasks := seen["t.md"];
    assert TaskFile.Pending(tasks[1..]) == ["run"] by { assert tasks[1..][1..] == []; }
    assert TaskFile.Pending(tasks) == ["run", "run"];
    assert Unpromised(c, "/t.md", ["run"]) == ["run"] by { assert ["run"][..0] == []; }
    assert Unpromised(c, "/t.md", ["run", "run"]) == ["run", "run"] by { assert ["run", "run"][..1] == ["run"]; }
  }
}
