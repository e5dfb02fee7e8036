/**
 The gated first-match classifier. What the patterns and the structural detectors say of a screen is
 given; the order of the rules, the gates and the fall-through are what is modelled.
 */
module Classifier {
  import opened Wrappers

  datatype Agent = Claude | Codex | Agy | Other(name: string)

  datatype Situation = Idle | Approval | Choice | Error | Unclassifiable

  /** A pattern of a manifest, by number; one that does not compile costs its rule. */
  datatype Pattern = Pattern(id: nat, compiles: bool)

  /** A rule as the manifest writes it; `agent` none stands for any. */
  datatype Manifest = Manifest(agent: Option<Agent>, situation: Option<Situation>, regexes: seq<Pattern>, keywords: seq<nat>)

  datatype Rule = Rule(agent: Option<Agent>, situation: Situation, patterns: seq<nat>, keywords: seq<nat>)

  /** What every detector says of one screen, and which patterns and keywords occur in it. */
  datatype Screen = Screen(
    agent: Agent, status: string, hits: set<nat>,
    planApproval: bool, rateLimit: bool, remoteEnv: bool, folderTrust: bool,
    agyHeld: bool, agyApproval: bool, agyChoice: bool,
    mcq: bool, claudeError: bool, codexError: bool, agyError: bool, composer: bool)

  function Regexes(from: nat, n: nat): seq<Pattern> {
    seq(n, i requires i >= 0 => Pattern(from + i, true))
  }

  /** The built-in manifests, in their order; patterns numbered from 0. */
  const DEFAULTS := [
    Manifest(None, Some(Approval), Regexes(0, 7), []),
    Manifest(None, Some(Choice), Regexes(7, 2), []),
    Manifest(Some(Claude), Some(Error), [], []),
    Manifest(Some(Codex), Some(Error), [], []),
    Manifest(Some(Agy), Some(Error), [], []),
    Manifest(None, Some(Idle), Regexes(9, 3), [])]

  // ----- compiling -----

  predicate Usable(m: Manifest) {
    m.situation.Some? && !m.situation.value.Unclassifiable? && forall i :: 0 <= i < |m.regexes| ==> m.regexes[i].compiles
  }

  function RuleOf(m: Manifest): Rule
    requires m.situation.Some?
  {
    Rule(m.agent, m.situation.value, seq(|m.regexes|, i requires 0 <= i < |m.regexes| => m.regexes[i].id), m.keywords)
  }

  function Compile(ms: seq<Manifest>): seq<Rule> {
    if ms == [] then []
    else Compile(ms[..|ms| - 1]) + if Usable(ms[|ms| - 1]) then [RuleOf(ms[|ms| - 1])] else []
  }

  method NewClassifier(operator: seq<Manifest>) returns (rules: seq<Rule>)
    ensures rules == Compile(operator + DEFAULTS)
  {
    var all := operator + DEFAULTS;
    rules := [];
    for i := 0 to |all|
      invariant rules == Compile(all[..i])
    {
      assert all[..i + 1][..i] == all[..i];
      var m := all[i];
      if m.situation.None? || m.situation.value.Unclassifiable? { continue; }
      var valid, patterns := true, [];
      for j := 0 to |m.regexes|
        invariant valid ==> |patterns| == j && forall x :: 0 <= x < j ==> m.regexes[x].compiles && patterns[x] == m.regexes[x].id
        invariant !valid ==> !Usable(m)
      {
        if !m.regexes[j].compiles {
          valid := false;
          break;
        }
        patterns := patterns + [m.regexes[j].id];
      }
      if valid {
        assert patterns == RuleOf(m).patterns;
        rules := rules + [Rule(m.agent, m.situation.value, patterns, m.keywords)];
      }
    }
    assert all[..|all|] == all;
  }

  // ----- one rule -----

  predicate Applies(r: Rule, x: Screen) {
    r.agent.None? || r.agent.value == x.agent
  }

  predicate Content(r: Rule, x: Screen) {
    (exists i :: 0 <= i < |r.patterns| && r.patterns[i] in x.hits) || (exists i :: 0 <= i < |r.keywords| && r.keywords[i] in x.hits)
  }

  predicate Parked(x: Screen) {
    x.status == "idle" || x.status == "done"
  }

  /** A form that stands while herdr calls the agent parked. */
  predicate Standing(x: Screen, s: Situation) {
    match s
    case Approval =>
      (x.agent.Codex? && x.planApproval) || (x.agent.Claude? && (x.remoteEnv || x.folderTrust)) || (x.agent.Agy? && x.agyApproval)
    case Choice => x.agent.Agy? && x.agyChoice
    case _ => false
  }

  /** What a rule's situation recognises by structure, whatever its patterns. */
  predicate Structural(x: Screen, s: Situation) {
    match s
    case Approval => Standing(x, s)
    case Choice => Standing(x, s) || x.mcq
    case Error => (x.agent.Claude? && x.claudeError) || (x.agent.Codex? && x.codexError) || (x.agent.Agy? && x.agyError)
    case _ => false
  }

  predicate Matches(r: Rule, x: Screen) {
    (Content(r, x) && !(r.situation.Approval? && x.agent.Codex? && x.rateLimit)) || Structural(x, r.situation)
  }

  /** Approval and choice need a blocked agent, or a standing form on a parked one. */
  predicate Gate(s: Situation, x: Screen) {
    s.Approval? || s.Choice? ==> x.status == "blocked" || (Parked(x) && Standing(x, s))
  }

  predicate Passes(r: Rule, x: Screen) {
    Applies(r, x) && Matches(r, x) && Gate(r.situation, x)
  }

  // ----- the verdict -----

  function FirstPassing(rules: seq<Rule>, x: Screen): Option<Situation> {
    if rules == [] then None
    else if Passes(rules[0], x) then Some(rules[0].situation)
    else FirstPassing(rules[1..], x)
  }

  function Classify(rules: seq<Rule>, x: Screen): Situation {
    if x.agent.Agy? && x.agyHeld then Unclassifiable
    else if FirstPassing(rules, x).Some? then FirstPassing(rules, x).value
    else if Parked(x) && (x.agent.Agy? ==> x.composer) then Idle
    else Unclassifiable
  }

  method MatchRule(r: Rule, x: Screen) returns (matched: bool)
    ensures matched == Content(r, x)
  {
    for i := 0 to |r.patterns|
      invariant forall j :: 0 <= j < i ==> r.patterns[j] !in x.hits
    {
      if r.patterns[i] in x.hits { return true; }
    }
    for i := 0 to |r.keywords|
      invariant forall j :: 0 <= j < i ==> r.keywords[j] !in x.hits
    {
      if r.keywords[i] in x.hits { return true; }
    }
    return false;
  }

  /** Whether a rule recognises the screen: its own patterns, or the forms its position stands for. */
  method Recognises(r: Rule, x: Screen) returns (matched: bool)
    ensures matched == Matches(r, x)
  {
    hide Content;
    matched := MatchRule(r, x);
    match r.situation
    case Approval =>
      if x.agent == Codex && x.rateLimit { matched := false; }
      if !matched && x.agent == Codex && x.planApproval { matched := true; }
      if !matched && x.agent == Claude && x.remoteEnv { matched := true; }
      if !matched && x.agent == Claude && x.folderTrust { matched := true; }
      if !matched && x.agent == Agy && x.agyApproval { matched := true; }
    case Choice =>
      if !matched && x.agent == Agy && x.agyChoice { matched := true; }
      if !matched { matched := x.mcq; }
    case Error =>
      if !matched && x.agent == Claude { matched := x.claudeError; }
      if !matched && x.agent == Codex { matched := x.codexError; }
      if !matched && x.agent == Agy { matched := x.agyError; }
    case _ =>
  }

  /** One rule against one screen: its agent, what it recognises, and the gate of its situation. */
  method TryRule(r: Rule, x: Screen) returns (passed: bool)
    ensures passed == Passes(r, x)
  {
    hide Matches;
    if r.agent.Some? && r.agent.value != x.agent { return false; }
    var matched := Recognises(r, x);
    if !matched { return false; }
    var blocked, parked := x.status == "blocked", x.status == "idle" || x.status == "done";
    var planParked := r.situation == Approval && x.agent == Codex && x.planApproval && parked;
    var envParked := r.situation == Approval && x.agent == Claude && x.remoteEnv && parked;
    var trustParked := r.situation == Approval && x.agent == Claude && x.folderTrust && parked;
    var agyParked := x.agent == Agy && parked && ((r.situation == Approval && x.agyApproval) || (r.situation == Choice && x.agyChoice));
    passed := (r.situation != Approval && r.situation != Choice) || blocked || planParked || envParked || trustParked || agyParked;
  }

  method ClassifyScreen(rules: seq<Rule>, x: Screen) returns (s: Situation)
    ensures s == Classify(rules, x)
  {
    hide Passes;
    if x.agent == Agy && x.agyHeld { return Unclassifiable; }
    for i := 0 to |rules|
      invariant FirstPassing(rules, x) == FirstPassing(rules[i..], x)
    {
      assert rules[i..][0] == rules[i] && rules[i..][1..] == rules[i + 1..];
      var passed := TryRule(rules[i], x);
      if passed { return rules[i].situation; }
    }
    s := Unclassifiable;
    if x.status == "idle" || x.status == "done" {
      if x.agent != Agy || x.composer { s := Idle; }
    }
  }

  // ----- what the verdict means -----

  /** The verdict of a rule list is that of its first rule to pass, and there is one exactly when some rule passes. */
  lemma {:induction false} FirstPassingIsFirst(rules: seq<Rule>, x: Screen)
    ensures FirstPassing(rules, x).None? <==> forall i :: 0 <= i < |rules| ==> !Passes(rules[i], x)
    ensures FirstPassing(rules, x).Some? ==> exists i :: 0 <= i < |rules| && Passes(rules[i], x) && rules[i].situation == FirstPassing(rules, x).value
                                                        && forall j :: 0 <= j < i ==> !Passes(rules[j], x)
  {
    hide Passes;
    if rules != [] && !Passes(rules[0], x) {
      FirstPassingIsFirst(rules[1..], x);
      if FirstPassing(rules[1..], x).Some? {
        var i :| 0 <= i < |rules[1..]| && Passes(rules[1..][i], x) && rules[1..][i].situation == FirstPassing(rules[1..], x).value
                 && forall j :: 0 <= j < i ==> !Passes(rules[1..][j], x);
        assert rules[i + 1] == rules[1..][i];
        forall j | 0 <= j < i + 1 ensures !Passes(rules[j], x) {
          if j > 0 { assert rules[j] == rules[1..][j - 1]; }
        }
      } else {
        forall i | 0 <= i < |rules| ensures !Passes(rules[i], x) {
          if i > 0 { assert rules[i] == rules[1..][i - 1]; }
        }
      }
    }
  }

  lemma {:induction false} FirstPassingConcat(a: seq<Rule>, b: seq<Rule>, x: Screen)
    ensures FirstPassing(a + b, x) == if FirstPassing(a, x).Some? then FirstPassing(a, x) else FirstPassing(b, x)
  {
    hide Passes;
    if a == [] {
      assert a + b == b;
    } else {
      assert (a + b)[0] == a[0] && (a + b)[1..] == a[1..] + b;
      FirstPassingConcat(a[1..], b, x);
    }
  }

  lemma {:induction false} CompileConcat(a: seq<Manifest>, b: seq<Manifest>)
    ensures Compile(a + b) == Compile(a) + Compile(b)
  {
    hide Usable;
    if b == [] {
      assert a + b == a;
    } else {
      assert (a + b)[..|a + b| - 1] == a + b[..|b| - 1];
      CompileConcat(a, b[..|b| - 1]);
    }
  }

  /** Operator rules come first: the built-in ones speak only where none of them passes. */
  lemma OperatorRulesWin(operator: seq<Manifest>, x: Screen)
    ensures FirstPassing(Compile(operator + DEFAULTS), x) ==
            if FirstPassing(Compile(operator), x).Some? then FirstPassing(Compile(operator), x) else FirstPassing(Compile(DEFAULTS), x)
  {
    CompileConcat(operator, DEFAULTS);
    FirstPassingConcat(Compile(operator), Compile(DEFAULTS), x);
  }

  /** A rule that does not compile is as good as absent, wherever it stands. */
  lemma BadRuleIsAbsent(before: seq<Manifest>, bad: Manifest, after: seq<Manifest>, x: Screen)
    requires !Usable(bad)
    ensures Compile(before + [bad] + after) == Compile(before + after)
    ensures Classify(Compile(before + [bad] + after), x) == Classify(Compile(before + after), x)
  {
    CompileConcat(before + [bad], after);
    CompileConcat(before, [bad]);
    CompileConcat(before, after);
    assert [bad][..0] == [];
    assert Compile([bad]) == [];
  }

  /** Under any rules, approval or choice is read only off a blocked agent or a standing form on a parked one. */
  lemma PromptsAreReal(rules: seq<Rule>, x: Screen)
    ensures Classify(rules, x).Approval? || Classify(rules, x).Choice?
            ==> x.status == "blocked" || (Parked(x) && Standing(x, Classify(rules, x)))
  {
    FirstPassingIsFirst(rules, x);
  }

  predicate IdleRulePasses(rules: seq<Rule>, x: Screen) {
    FirstPassing(rules, x) == Some(Idle)
  }

  /** An agy screen reads as idle by an idle rule, or, no rule passing, exactly when its composer shows on a parked pane. */
  lemma AgyIdleIff(rules: seq<Rule>, x: Screen)
    requires x.agent.Agy? && !x.agyHeld
    ensures Classify(rules, x).Idle? <==>
              IdleRulePasses(rules, x) || (Parked(x) && x.composer && forall i :: 0 <= i < |rules| ==> !Passes(rules[i], x))
  {
    FirstPassingIsFirst(rules, x);
  }

  /** The rule an idle content match bypasses the composer with. */
  lemma IdleRuleBypassesComposer(rules: seq<Rule>, x: Screen)
    requires rules == [Rule(None, Idle, [9], [])]
    requires x == Screen(Agy, "idle", {9}, false, false, false, false, false, false, false, false, false, false, false, false)
    ensures Classify(rules, x).Idle? && !x.composer
  {
    assert rules[0].patterns[0] in x.hits;
  }

  /** Codex's rate-limit modal is never an approval, whatever rules match its text. */
  lemma RateLimitIsNoApproval(rules: seq<Rule>, x: Screen)
    requires x.agent.Codex? && x.rateLimit && !x.planApproval
    ensures !Classify(rules, x).Approval?
  {
    FirstPassingIsFirst(rules, x);
  }

  lemma DefaultsStartWithApproval()
    ensures |Compile(DEFAULTS)| > 0 && Compile(DEFAULTS)[0].agent.None? && Compile(DEFAULTS)[0].situation.Approval?
  {
    var first := [DEFAULTS[0]];
    assert DEFAULTS == first + DEFAULTS[1..];
    CompileConcat(first, DEFAULTS[1..]);
    assert first[..0] == [];
    assert Compile(first) == [RuleOf(DEFAULTS[0])];
  }

  /**
   A standing approval on a parked agent is an approval unless an operator's own rule passes first, so
   the built-in rules never call such a pane idle.
   */
  lemma StandingApprovalIsSeen(operator: seq<Manifest>, x: Screen)
    requires Parked(x) && Standing(x, Approval) && !(x.agent.Agy? && x.agyHeld)
    ensures Classify(Compile(operator + DEFAULTS), x) ==
            if FirstPassing(Compile(operator), x).Some? then FirstPassing(Compile(operator), x).value else Approval
  {
    OperatorRulesWin(operator, x);
    DefaultsStartWithApproval();
    assert Passes(Compile(DEFAULTS)[0], x);
  }

  // ----- what the built-in rules read -----

  predicate AnyHit(x: Screen, from: nat, n: nat) {
    exists p :: from <= p < from + n && p in x.hits
  }

  predicate ReadsAsApproval(x: Screen) {
    || (x.status == "blocked" && AnyHit(x, 0, 7) && !(x.agent.Codex? && x.rateLimit))
    || ((x.status == "blocked" || Parked(x))
        && ((x.agent.Codex? && x.planApproval) || (x.agent.Claude? && (x.remoteEnv || x.folderTrust)) || (x.agent.Agy? && x.agyApproval)))
  }

  predicate ReadsAsChoice(x: Screen) {
    (x.status == "blocked" && (AnyHit(x, 7, 2) || x.mcq)) || ((x.status == "blocked" || Parked(x)) && x.agent.Agy? && x.agyChoice)
  }

  predicate ReadsAsError(x: Screen) {
    (x.agent.Claude? && x.claudeError) || (x.agent.Codex? && x.codexError) || (x.agent.Agy? && x.agyError)
  }

  /** The verdict of the built-in rules, off the screen alone. */
  function BuiltIn(x: Screen): Situation {
    if ReadsAsApproval(x) then Approval
    else if ReadsAsChoice(x) then Choice
    else if ReadsAsError(x) then Error
    else if AnyHit(x, 9, 3) || (Parked(x) && (x.agent.Agy? ==> x.composer)) then Idle
    else Unclassifiable
  }

  lemma RegexesHit(from: nat, n: nat, r: Rule, x: Screen)
    requires |r.patterns| == n && (forall i :: 0 <= i < n ==> r.patterns[i] == from + i) && r.keywords == []
    ensures Content(r, x) <==> AnyHit(x, from, n)
  {
    if p :| from <= p < from + n && p in x.hits { assert r.patterns[p - from] in x.hits; }
  }

  lemma DefaultsCompiled()
    ensures var rules := Compile(DEFAULTS);
            && |rules| == 6 && forall i :: 0 <= i < 6 ==> rules[i] == RuleOf(DEFAULTS[i])
  {
    hide RuleOf;
    forall i | 0 <= i < 6 ensures Usable(DEFAULTS[i]) {}
    CompileAllUsable(DEFAULTS);
  }

  lemma {:induction false} CompileAllUsable(ms: seq<Manifest>)
    requires forall i :: 0 <= i < |ms| ==> Usable(ms[i]) && ms[i].situation.Some?
    ensures |Compile(ms)| == |ms| && forall i :: 0 <= i < |ms| ==> Compile(ms)[i] == RuleOf(ms[i])
  {
    hide Usable, RuleOf;
    if ms != [] { CompileAllUsable(ms[..|ms| - 1]); }
  }

  /** Which of the built-in rules pass. */
  lemma DefaultsPass(rules: seq<Rule>, x: Screen)
    requires |rules| == 6 && forall i :: 0 <= i < 6 ==> rules[i] == RuleOf(DEFAULTS[i])
    ensures Passes(rules[0], x) <==> ReadsAsApproval(x)
    ensures Passes(rules[1], x) <==> ReadsAsChoice(x)
    ensures Passes(rules[2], x) || Passes(rules[3], x) || Passes(rules[4], x) <==> ReadsAsError(x)
    ensures Passes(rules[5], x) <==> AnyHit(x, 9, 3)
  {
    hide Content, AnyHit;
    RegexesHit(0, 7, rules[0], x);
    RegexesHit(7, 2, rules[1], x);
    RegexesHit(9, 3, rules[5], x);
    forall i | 2 <= i < 5 ensures !Content(rules[i], x) { NoContent(rules[i], x); }
  }

  lemma NoContent(r: Rule, x: Screen)
    requires r.patterns == [] && r.keywords == []
    ensures !Content(r, x)
  {
  }

  lemma SixRules(rules: seq<Rule>, x: Screen)
    requires |rules| == 6
    ensures FirstPassing(rules, x) ==
            if Passes(rules[0], x) then Some(rules[0].situation) else if Passes(rules[1], x) then Some(rules[1].situation)
            else if Passes(rules[2], x) then Some(rules[2].situation) else if Passes(rules[3], x) then Some(rules[3].situation)
            else if Passes(rules[4], x) then Some(rules[4].situation) else if Passes(rules[5], x) then Some(rules[5].situation) else None
  {
    hide Passes, FirstPassing;
    assert rules[0..] == rules && rules[6..] == [];
    Peel(rules, 0, x);
    Peel(rules, 1, x);
    Peel(rules, 2, x);
    Peel(rules, 3, x);
    Peel(rules, 4, x);
    Peel(rules, 5, x);
    assert FirstPassing([], x) == None by { NoRules(x); }
  }

  predicate OneByOne(rules: seq<Rule>, k: nat, x: Screen)
    requires k < |rules|
  {
    FirstPassing(rules[k..], x) == if Passes(rules[k], x) then Some(rules[k].situation) else FirstPassing(rules[k + 1..], x)
  }

  lemma Peel(rules: seq<Rule>, k: nat, x: Screen)
    requires k < |rules|
    ensures OneByOne(rules, k, x)
  {
    hide Passes;
    assert rules[k..][1..] == rules[k + 1..];
  }

  lemma NoRules(x: Screen)
    ensures FirstPassing([], x) == None
  {
  }

  /** Where no operator rule passes, a screen not held is read exactly as the table of forms and texts says. */
  lemma BuiltInVerdict(operator: seq<Manifest>, x: Screen)
    requires !(x.agent.Agy? && x.agyHeld) && FirstPassing(Compile(operator), x).None?
    ensures Classify(Compile(operator + DEFAULTS), x) == BuiltIn(x)
  {
    hide Passes, ReadsAsApproval, ReadsAsChoice, ReadsAsError, AnyHit, Compile;
    var rules := Compile(DEFAULTS);
    OperatorRulesWin(operator, x);
    DefaultsCompiled();
    DefaultsPass(rules, x);
    SixRules(rules, x);
  }

  /** An operator's rule for any agent or this one is heard whenever one of its patterns or keywords occurs and its gate is open. */
  lemma OperatorRuleIsHeard(m: Manifest, after: seq<Manifest>, x: Screen)
    requires Usable(m) && (m.agent.None? || m.agent.value == x.agent) && !(x.agent.Agy? && x.agyHeld)
    requires (exists i :: 0 <= i < |m.regexes| && m.regexes[i].id in x.hits) || (exists i :: 0 <= i < |m.keywords| && m.keywords[i] in x.hits)
    requires !(m.situation.value.Approval? && x.agent.Codex? && x.rateLimit)
    requires m.situation.value.Approval? || m.situation.value.Choice? ==> x.status == "blocked"
    ensures Classify(Compile([m] + after), x) == m.situation.value
  {
    CompileConcat([m], after);
    assert [m][..0] == [] && Compile([m]) == [RuleOf(m)];
    var r := RuleOf(m);
    if i :| 0 <= i < |m.regexes| && m.regexes[i].id in x.hits { assert r.patterns[i] in x.hits; }
    assert Content(r, x);
    assert Compile([m] + after)[0] == r;
  }

  /** A working agent is never given a prompt's verdict, and is idle only by an idle rule. */
  lemma WorkingIsNoPrompt(rules: seq<Rule>, x: Screen)
    requires x.status == "working"
    ensures !Classify(rules, x).Approval? && !Classify(rules, x).Choice?
    ensures Classify(rules, x).Idle? ==> IdleRulePasses(rules, x)
  {
    FirstPassingIsFirst(rules, x);
  }
}
