/**
 Loading and saving the configuration: a file as the keys an operator wrote, the struct they decode
 onto, the migration of retired keys, the filling of unset values, and what a save writes back.
 */
module ConfigMigration {
  import opened Wrappers

  const LOCAL_FS := "local_fs"
  const DATABASE := "database"
  const SQLITE := "sqlite"
  const DEFAULT_MAX_TASKS := 20
  const NEVER_AUTO_ACT := 999

  datatype Rule = Rule(pattern: string, agents: seq<string>)

  datatype FileSource = FileSource(
    path: string, provider: Option<string>, gist: Option<string>, maxTasks: Option<int>, review: Option<bool>, oldReview: Option<bool>)

  /** The confidence an answer of each kind needs, in hundredths, as a table of the file writes it. */
  datatype FileBars = FileBars(minimum: Option<int>, idle: Option<int>, approval: Option<int>, choice: Option<int>, error: Option<int>)

  datatype Bars = Bars(minimum: int, idle: int, approval: int, choice: int, error: int)

  /** The retired table of thresholds: not there, there with a value of the wrong type, or there to read. */
  datatype OldTable = NoTable | IllTyped | Readable(bars: FileBars)

  /** The keys of a file, absent where the operator wrote none. */
  datatype File = File(
    patterns: Option<seq<string>>, allowlist: Option<seq<string>>, indicators: Option<seq<string>>,
    rules: seq<Rule>, indicatorRules: seq<Rule>,
    disableSeed: Option<bool>, oldDisableSeed: Option<bool>,
    syncPaused: Option<bool>, tursoSyncPaused: Option<bool>,
    fullSelfPrompting: Option<int>, oldFullSelfPrompting: Option<int>,
    autoActThreshold: Option<int>, autoAct: Option<bool>,
    fallback: Option<string>, oldFallback: Option<string>,
    provider: Option<string>, gist: Option<string>, sources: seq<FileSource>,
    autoAccept: Option<string>, graduation: Option<int>, bars: Option<FileBars>, oldBars: OldTable, minSalient: Option<int>)

  datatype Source = Source(path: string, provider: string, gist: string, maxTasks: int, review: Option<bool>, oldReview: Option<bool>)

  /** The decoded struct; the deprecated fields live in it only until the migration clears them. */
  datatype Config = Config(
    patterns: seq<string>, allowlist: seq<string>, indicators: seq<string>,
    rules: seq<Rule>, indicatorRules: seq<Rule>,
    disableSeed: bool, oldDisableSeed: Option<bool>,
    syncPaused: bool, tursoSyncPaused: Option<bool>,
    fullSelfPrompting: int, oldFullSelfPrompting: Option<int>,
    autoActThreshold: int, autoAct: Option<bool>,
    fallback: string, oldFallback: string,
    provider: string, gist: string, sources: seq<Source>,
    autoAccept: string, graduation: int, bars: Bars, minSalient: int)

  const DEFAULT := Config(
    [], [], [], [], [], false, None, false, None, 0, None, 85, None, "", "", DATABASE, "", [], "", 1, DEFAULT_BARS, 0)

  const DEFAULT_BARS := Bars(50, 65, 70, 70, 75)

  /** What one decode of the raw file says was written at all. */
  datatype Written = Written(
    disableSeed: bool, syncPaused: bool, fullSelfPrompting: bool, autoActThreshold: bool, bars: bool, oldBars: OldTable)

  function Or<T>(o: Option<T>, d: T): T {
    if o.Some? then o.value else d
  }

  function DecodeSource(s: FileSource): Source {
    Source(s.path, Or(s.provider, ""), Or(s.gist, ""), Or(s.maxTasks, 0), s.review, s.oldReview)
  }

  function DecodeSources(ss: seq<FileSource>): (r: seq<Source>)
    ensures |r| == |ss|
  {
    seq(|ss|, i requires 0 <= i < |ss| => DecodeSource(ss[i]))
  }

  /** A table decodes onto values already there. */
  function DecodeBars(t: FileBars, d: Bars): Bars {
    Bars(Or(t.minimum, d.minimum), Or(t.idle, d.idle), Or(t.approval, d.approval), Or(t.choice, d.choice), Or(t.error, d.error))
  }

  /** An existing file decodes onto the defaults with the provider pinned to local files. */
  function Decode(f: File): Config {
    Config(Or(f.patterns, []), Or(f.allowlist, []), Or(f.indicators, []), f.rules, f.indicatorRules,
           Or(f.disableSeed, false), f.oldDisableSeed, Or(f.syncPaused, false), f.tursoSyncPaused,
           Or(f.fullSelfPrompting, 0), f.oldFullSelfPrompting, Or(f.autoActThreshold, DEFAULT.autoActThreshold), f.autoAct,
           Or(f.fallback, ""), Or(f.oldFallback, ""), Or(f.provider, LOCAL_FS), Or(f.gist, ""), DecodeSources(f.sources),
           Or(f.autoAccept, ""), Or(f.graduation, DEFAULT.graduation), if f.bars.Some? then DecodeBars(f.bars.value, DEFAULT_BARS) else DEFAULT_BARS, Or(f.minSalient, 0))
  }

  function Probe(f: File): Written {
    Written(f.disableSeed.Some?, f.syncPaused.Some?, f.fullSelfPrompting.Some?, f.autoActThreshold.Some?, f.bars.Some?, f.oldBars)
  }

  // ----- merging -----

  /** Canonical entries first, then each legacy entry not yet there, in order. */
  function Merge<T(==)>(canonical: seq<T>, legacy: seq<T>): seq<T> {
    if legacy == [] then canonical
    else
      var front := Merge(canonical, legacy[..|legacy| - 1]);
      if legacy[|legacy| - 1] in front then front else front + [legacy[|legacy| - 1]]
  }

  method MergeSeen<T(==)>(canonical: seq<T>, legacy: seq<T>) returns (out: seq<T>)
    ensures out == Merge(canonical, legacy)
  {
    out := canonical;
    var seen: set<T> := {};
    for i := 0 to |canonical|
      invariant seen == set x | x in canonical[..i]
    {
      assert canonical[..i + 1] == canonical[..i] + [canonical[i]];
      seen := seen + {canonical[i]};
    }
    assert canonical[..|canonical|] == canonical;
    for i := 0 to |legacy|
      invariant out == Merge(canonical, legacy[..i])
      invariant seen == set x | x in out
    {
      assert legacy[..i + 1][..i] == legacy[..i];
      if legacy[i] !in seen {
        out := out + [legacy[i]];
        seen := seen + {legacy[i]};
      }
    }
    assert legacy[..|legacy|] == legacy;
  }

  /** No entry of either list is lost, none is invented, the canonical ones keep their places, none is added twice. */
  lemma {:induction false} MergeIsUnion<T>(canonical: seq<T>, legacy: seq<T>)
    ensures var m := Merge(canonical, legacy);
            && (forall x :: x in m <==> x in canonical || x in legacy)
            && canonical <= m
            && (forall i, j :: |canonical| <= i < |m| && 0 <= j < i ==> m[i] != m[j])
  {
    if legacy != [] {
      MergeIsUnion(canonical, legacy[..|legacy| - 1]);
      assert legacy == legacy[..|legacy| - 1] + [legacy[|legacy| - 1]];
    }
  }

  // ----- the migration -----

  function CanonicalProvider(name: string): string {
    if name == SQLITE then DATABASE else name
  }

  function CanonicalSources(ss: seq<Source>): (r: seq<Source>)
    ensures |r| == |ss|
  {
    seq(|ss|, i requires 0 <= i < |ss| => ss[i].(provider := CanonicalProvider(ss[i].provider)))
  }

  function CanonicalizeProviders(c: Config): Config {
    c.(provider := CanonicalProvider(c.provider), sources := CanonicalSources(c.sources))
  }

  /** The retired table speaks only where the current one is not written at all, and then as a whole. */
  predicate OldBarsSpeak(w: Written) {
    !w.bars && w.oldBars.Readable?
  }

  function MigrateBars(c: Config, w: Written): Config {
    if OldBarsSpeak(w) then c.(bars := DecodeBars(w.oldBars.bars, Bars(0, 0, 0, 0, 0))) else c
  }

  function MigrateSafety(c: Config, w: Written): Config {
    c.(patterns := Merge(Merge(c.patterns, c.allowlist), c.indicators), allowlist := [], indicators := [],
       rules := Merge(c.rules, c.indicatorRules), indicatorRules := [],
       disableSeed := if c.oldDisableSeed.Some? && !w.disableSeed then c.oldDisableSeed.value else c.disableSeed,
       oldDisableSeed := None)
  }

  function MigrateSource(s: Source): Source {
    if s.oldReview.None? then s
    else s.(review := if s.review.None? then s.oldReview else s.review, oldReview := None)
  }

  function MigrateSources(ss: seq<Source>): (r: seq<Source>)
    ensures |r| == |ss|
  {
    seq(|ss|, i requires 0 <= i < |ss| => MigrateSource(ss[i]))
  }

  function MigrateSwitches(c: Config, w: Written): Config {
    c.(syncPaused := if c.tursoSyncPaused.Some? && !w.syncPaused then c.tursoSyncPaused.value else c.syncPaused,
       tursoSyncPaused := None,
       fullSelfPrompting := if c.oldFullSelfPrompting.Some? && !w.fullSelfPrompting then c.oldFullSelfPrompting.value else c.fullSelfPrompting,
       oldFullSelfPrompting := None)
  }

  function MigrateLLM(c: Config, w: Written): Config {
    c.(autoActThreshold := if c.autoAct.Some? && !w.autoActThreshold then (if c.autoAct.value then 0 else NEVER_AUTO_ACT) else c.autoActThreshold,
       autoAct := None,
       fallback := if c.oldFallback != "" && c.fallback == "" then c.oldFallback else c.fallback,
       oldFallback := "")
  }

  function MigrateReviews(c: Config): Config {
    c.(sources := MigrateSources(c.sources))
  }

  function Migrate(c: Config, w: Written): Config {
    MigrateReviews(MigrateLLM(MigrateSwitches(MigrateSafety(MigrateBars(CanonicalizeProviders(c), w), w), w), w))
  }

  function NormalizeSource(s: Source): Source {
    s.(provider := CanonicalProvider(s.provider), maxTasks := if s.maxTasks <= 0 then DEFAULT_MAX_TASKS else s.maxTasks)
  }

  function NormalizeTaskSources(c: Config): Config {
    c.(provider := CanonicalProvider(c.provider),
       sources := seq(|c.sources|, i requires 0 <= i < |c.sources| => NormalizeSource(c.sources[i])))
  }

  function FillBar(bar: int, d: int): int {
    if bar <= 0 then d else bar
  }

  function FillBars(b: Bars): Bars {
    var d := DEFAULT_BARS;
    Bars(FillBar(b.minimum, d.minimum), FillBar(b.idle, d.idle), FillBar(b.approval, d.approval), FillBar(b.choice, d.choice), FillBar(b.error, d.error))
  }

  function FillZeroes(c: Config): Config {
    var n := NormalizeTaskSources(c);
    n.(bars := FillBars(c.bars),
       graduation := if c.graduation <= 0 then DEFAULT.graduation else c.graduation,
       provider := if n.provider == "" then DEFAULT.provider else n.provider,
       autoActThreshold := if c.autoActThreshold < 0 then DEFAULT.autoActThreshold else c.autoActThreshold,
       minSalient := if c.minSalient < 0 then 0 else c.minSalient)
  }

  /** What reading the file gave: nothing there, an unreadable or malformed one, or its keys. */
  datatype Read = Missing | Broken | Parsed(file: File)

  datatype Loaded = Loaded(config: Config, ok: bool)

  /** `valid` answers for an auto-accept threshold that parses and is not too small; a bad one drops the section. */
  function Load(r: Read, valid: string -> bool): Loaded {
    match r
    case Missing => Loaded(DEFAULT, true)
    case Broken => Loaded(DEFAULT.(provider := LOCAL_FS), false)
    case Parsed(f) =>
      var c := Migrate(Decode(f), Probe(f));
      if valid(c.autoAccept) then Loaded(FillZeroes(c), true) else Loaded(FillZeroes(c.(autoAccept := "")), false)
  }

  function Kept(s: string): Option<string> {
    if s == "" then None else Some(s)
  }

  function EncodeSource(s: Source): FileSource {
    FileSource(s.path, Kept(s.provider), Kept(s.gist), if s.maxTasks == 0 then None else Some(s.maxTasks), s.review, s.oldReview)
  }

  function EncodeBars(b: Bars): FileBars {
    FileBars(Some(b.minimum), Some(b.idle), Some(b.approval), Some(b.choice), Some(b.error))
  }

  /** A save writes the current keys and any deprecated field still set; empty optional keys are left out. */
  function Save(c: Config): File {
    var n := NormalizeTaskSources(c);
    File(Some(n.patterns), if n.allowlist == [] then None else Some(n.allowlist), if n.indicators == [] then None else Some(n.indicators),
         n.rules, n.indicatorRules, Some(n.disableSeed), n.oldDisableSeed,
         if n.syncPaused then Some(true) else None, n.tursoSyncPaused,
         if n.fullSelfPrompting == 0 then None else Some(n.fullSelfPrompting), n.oldFullSelfPrompting,
         Some(n.autoActThreshold), n.autoAct, Some(n.fallback), Kept(n.oldFallback),
         Kept(n.provider), Kept(n.gist), seq(|n.sources|, i requires 0 <= i < |n.sources| => EncodeSource(n.sources[i])),
         Kept(n.autoAccept), Some(n.graduation), Some(EncodeBars(n.bars)), NoTable, Some(n.minSalient))
  }

  // ----- what the migration promises -----

  /** Whether any retired key is still held. */
  predicate Current(c: Config) {
    && c.allowlist == [] && c.indicators == [] && c.indicatorRules == [] && c.oldDisableSeed.None?
    && c.tursoSyncPaused.None? && c.oldFullSelfPrompting.None? && c.autoAct.None? && c.oldFallback == ""
    && (forall i :: 0 <= i < |c.sources| ==> c.sources[i].oldReview.None?)
  }

  predicate Filled(c: Config) {
    && c.bars == FillBars(c.bars) && c.graduation > 0 && c.autoActThreshold >= 0 && c.minSalient >= 0
    && c.provider != "" && c.provider != SQLITE
    && (forall i :: 0 <= i < |c.sources| ==> c.sources[i].maxTasks > 0 && c.sources[i].provider != SQLITE)
  }

  lemma LoadSettles(r: Read, valid: string -> bool)
    ensures Current(Load(r, valid).config) && Filled(Load(r, valid).config)
  {
    hide Migrate, FillZeroes;
    if r.Parsed? {
      var c := Migrate(Decode(r.file), Probe(r.file));
      MigrationIsCurrent(Decode(r.file), Probe(r.file));
      FillingFills(c);
      FillingFills(c.(autoAccept := ""));
    }
  }

  lemma MigrationIsCurrent(c: Config, w: Written)
    ensures Current(Migrate(c, w))
  {
    hide Merge;
  }

  lemma FillingFills(c: Config)
    requires Current(c)
    ensures Current(FillZeroes(c)) && Filled(FillZeroes(c))
  {
  }

  /** Migrating and filling a settled configuration again changes nothing but the bars of a retired table. */
  lemma SettledIsFixed(c: Config, w: Written)
    requires Current(c) && Filled(c)
    ensures FillZeroes(Migrate(c, w)) ==
            if OldBarsSpeak(w) then c.(bars := FillBars(DecodeBars(w.oldBars.bars, Bars(0, 0, 0, 0, 0)))) else c
  {
    var m := Migrate(c, w);
    assert m.sources == c.sources;
    assert Merge(Merge(c.patterns, []), []) == c.patterns && Merge(c.rules, []) == c.rules;
    assert m == MigrateBars(c, w);
    assert FillZeroes(m).sources == c.sources;
  }

  /** Every pattern of the three keys survives the load, canonical ones first and in order, none added twice. */
  lemma NoPatternIsLost(f: File, valid: string -> bool)
    ensures var all := Load(Parsed(f), valid).config.patterns;
            && (forall p :: p in all <==> p in Or(f.patterns, []) || p in Or(f.allowlist, []) || p in Or(f.indicators, []))
            && Or(f.patterns, []) <= all
            && (forall i, j :: |Or(f.patterns, [])| <= i < |all| && 0 <= j < i ==> all[i] != all[j])
  {
    var canonical, allow, ind := Or(f.patterns, []), Or(f.allowlist, []), Or(f.indicators, []);
    MergeIsUnion(canonical, allow);
    MergeIsUnion(Merge(canonical, allow), ind);
    var all := Merge(Merge(canonical, allow), ind);
    forall i, j | |canonical| <= i < |all| && 0 <= j < i ensures all[i] != all[j] {
      if i < |Merge(canonical, allow)| {
        assert all[i] == Merge(canonical, allow)[i] && all[j] == Merge(canonical, allow)[j];
      }
    }
  }

  lemma NoRuleIsLost(f: File, valid: string -> bool)
    ensures var all := Load(Parsed(f), valid).config.rules;
            && (forall r :: r in all <==> r in f.rules || r in f.indicatorRules)
            && f.rules <= all
  {
    MergeIsUnion(f.rules, f.indicatorRules);
  }

  /** The review switch a task source wrote under its current name beats the retired one. */
  lemma ReviewWins(f: File, valid: string -> bool, i: nat)
    requires i < |f.sources|
    ensures |Load(Parsed(f), valid).config.sources| == |f.sources|
    ensures Load(Parsed(f), valid).config.sources[i].review == if f.sources[i].review.Some? then f.sources[i].review else f.sources[i].oldReview
  {
    hide Load;
    LoadedSource(f, valid, i);
  }

  /** A switch written under its current name beats its retired one, even when it is off. */
  lemma CanonicalWins(f: File, valid: string -> bool)
    ensures var c := Load(Parsed(f), valid).config;
            && c.disableSeed == Or(f.disableSeed, Or(f.oldDisableSeed, false))
            && c.syncPaused == Or(f.syncPaused, Or(f.tursoSyncPaused, false))
            && c.fullSelfPrompting == Or(f.fullSelfPrompting, Or(f.oldFullSelfPrompting, 0))
  {
    hide Merge, DecodeSources, CanonicalSources, MigrateSources;
  }

  /**
   The threshold: one written is kept exactly when it is not negative, and gives way to the default
   otherwise; the retired switch counts only where none was written.
   */
  lemma ThresholdWinsIff(f: File, valid: string -> bool)
    ensures var c := Load(Parsed(f), valid).config;
            && (f.autoActThreshold.Some? ==>
                  (c.autoActThreshold == f.autoActThreshold.value <==> f.autoActThreshold.value >= 0)
                  && (f.autoActThreshold.value < 0 ==> c.autoActThreshold == DEFAULT.autoActThreshold))
            && (f.autoActThreshold.None? && f.autoAct.Some? ==> c.autoActThreshold == if f.autoAct.value then 0 else NEVER_AUTO_ACT)
            && (f.autoActThreshold.None? && f.autoAct.None? ==> c.autoActThreshold == DEFAULT.autoActThreshold)
  {
    hide Merge, DecodeSources, CanonicalSources, MigrateSources;
  }

  /** The template is the exception: one written is kept exactly when it is not empty or no retired one is set. */
  lemma TemplateWinsIff(f: File, valid: string -> bool)
    ensures var c := Load(Parsed(f), valid).config;
            && (f.fallback.Some? ==>
                  (c.fallback == f.fallback.value <==> f.fallback.value != "" || Or(f.oldFallback, "") == ""))
            && (Or(f.fallback, "") == "" ==> c.fallback == Or(f.oldFallback, ""))
  {
    hide Merge, DecodeSources, CanonicalSources, MigrateSources;
  }

  /** An operator who empties the template under its current name is given the retired one back. */
  lemma EmptiedTemplateLoses(f: File, valid: string -> bool)
    requires f.fallback == Some("") && f.oldFallback == Some("retired")
    ensures Load(Parsed(f), valid).config.fallback == "retired"
  {
    hide Merge, DecodeSources, CanonicalSources, MigrateSources;
  }

  lemma LoadedBars(f: File, valid: string -> bool)
    ensures Load(Parsed(f), valid).config.bars == FillBars(MigrateBars(Decode(f), Probe(f)).bars)
  {
    hide Merge, Decode, CanonicalSources, MigrateSources;
  }

  /**
   The bars of a retired table are those it would give under its current name, when no table stands there
   and every value of it can be read; otherwise it gives none: one value of the wrong type loses them all.
   */
  lemma OldTableIsRenamed(f: File, valid: string -> bool)
    ensures Load(Parsed(f), valid).config.bars ==
            Load(Parsed(if f.bars.None? && f.oldBars.Readable? then f.(bars := Some(f.oldBars.bars), oldBars := NoTable)
                        else f.(oldBars := NoTable)), valid).config.bars
  {
    hide Load;
    LoadedBars(f, valid);
    LoadedBars(if f.bars.None? && f.oldBars.Readable? then f.(bars := Some(f.oldBars.bars), oldBars := NoTable) else f.(oldBars := NoTable), valid);
  }

  // ----- which backend a source uses -----

  /** The provider a source resolves to: its own, else the default's, else local files. */
  function ResolveProvider(c: Config, s: Source): string {
    if s.provider != "" then s.provider else if c.provider != "" then c.provider else LOCAL_FS
  }

  /** Pinned before the decode: an omitted key keeps files, an explicit empty one gets the database default. */
  lemma ProviderIsPinned(r: Read, valid: string -> bool)
    ensures Load(r, valid).config.provider ==
            match r {
              case Missing => DATABASE
              case Broken => LOCAL_FS
              case Parsed(f) =>
                if f.provider.None? then LOCAL_FS else if f.provider.value == "" then DATABASE else CanonicalProvider(f.provider.value)
            }
  {
  }

  /** The default provider and a source, as a save and a load leave them. */
  lemma SavedAndLoaded(c: Config, valid: string -> bool, i: nat)
    requires i < |c.sources|
    ensures var d, s := Load(Parsed(Save(c)), valid).config, c.sources[i];
            && |d.sources| == |c.sources|
            && d.provider == (if c.provider == "" then LOCAL_FS else CanonicalProvider(c.provider))
            && d.sources[i].provider == CanonicalProvider(s.provider)
  {
    var f := Save(c);
    ProviderIsPinned(Parsed(f), valid);
    assert f.sources[i] == EncodeSource(NormalizeSource(c.sources[i]));
    SourceProviderLoads(f, valid, i);
  }

  lemma SourceProviderLoads(f: File, valid: string -> bool, i: nat)
    requires i < |f.sources|
    ensures |Load(Parsed(f), valid).config.sources| == |f.sources|
    ensures Load(Parsed(f), valid).config.sources[i].provider == CanonicalProvider(Or(f.sources[i].provider, ""))
  {
    hide Load;
    LoadedSource(f, valid, i);
  }

  /** What a load makes of one source. */
  lemma LoadedSource(f: File, valid: string -> bool, i: nat)
    requires i < |f.sources|
    ensures |Load(Parsed(f), valid).config.sources| == |f.sources|
    ensures var s := DecodeSource(f.sources[i]);
            Load(Parsed(f), valid).config.sources[i] == NormalizeSource(MigrateSource(s.(provider := CanonicalProvider(s.provider))))
  {
    hide Migrate, FillZeroes, NormalizeSource, MigrateSource, DecodeSource;
    var c := Decode(f);
    MigrationTouchesSources(c, Probe(f));
    var m := Migrate(c, Probe(f));
    FillingTouchesSources(m);
    FillingTouchesSources(m.(autoAccept := ""));
  }

  lemma MigrationTouchesSources(c: Config, w: Written)
    ensures Migrate(c, w).sources == MigrateSources(CanonicalSources(c.sources))
  {
  }

  lemma FillingTouchesSources(c: Config)
    ensures |FillZeroes(c).sources| == |c.sources|
    ensures forall i :: 0 <= i < |c.sources| ==> FillZeroes(c).sources[i] == NormalizeSource(c.sources[i])
  {
  }

  /** Saving any configuration and loading it again keeps every source on its backend, retired spelling aside. */
  lemma SaveKeepsBackends(c: Config, valid: string -> bool, i: nat)
    requires i < |c.sources|
    ensures var d := Load(Parsed(Save(c)), valid).config;
            && |d.sources| == |c.sources|
            && ResolveProvider(d, d.sources[i]) == CanonicalProvider(ResolveProvider(c, c.sources[i]))
            && (d.sources[i].provider == "" <==> c.sources[i].provider == "")
  {
    hide Load, Save;
    SavedAndLoaded(c, valid, i);
  }

  /** What was loaded is what a save and another load give back. */
  lemma LoadSaveLoad(r: Read, valid: string -> bool)
    requires valid("")
    ensures Load(Parsed(Save(Load(r, valid).config)), valid) == Loaded(Load(r, valid).config, true)
  {
    var c := Load(r, valid).config;
    LoadSettles(r, valid);
    ReloadSettled(c, valid);
    assert valid(c.autoAccept);
  }

  lemma ReloadSettled(c: Config, valid: string -> bool)
    requires Current(c) && Filled(c) && valid(c.autoAccept)
    ensures Load(Parsed(Save(c)), valid) == Loaded(c, true)
  {
    var f := Save(c);
    assert NormalizeTaskSources(c) == c by { assert NormalizeTaskSources(c).sources == c.sources; }
    assert Decode(f).sources == c.sources;
    assert Decode(f) == c;
    SettledIsFixed(c, Probe(f));
    assert Migrate(c, Probe(f)) == c by {
      assert Migrate(c, Probe(f)).sources == c.sources;
      assert Merge(Merge(c.patterns, []), []) == c.patterns && Merge(c.rules, []) == c.rules;
    }
  }

  // ----- the load as it runs -----

  class Loader {
    var cfg: Config

    constructor ()
      ensures cfg == DEFAULT
    {
      cfg := DEFAULT;
    }

    method CanonicalizeAll() returns (changed: bool)
      modifies this
      ensures cfg == CanonicalizeProviders(old(cfg))
      ensures changed <==> cfg != old(cfg)
    {
      changed := false;
      var p := CanonicalProvider(cfg.provider);
      if p != cfg.provider {
        cfg, changed := cfg.(provider := p), true;
      }
      var n := |cfg.sources|;
      for i := 0 to n
        invariant |cfg.sources| == n == |old(cfg).sources|
        invariant cfg == old(cfg).(provider := CanonicalProvider(old(cfg).provider), sources := cfg.sources)
        invariant forall j :: 0 <= j < i ==> cfg.sources[j] == CanonicalSources(old(cfg).sources)[j]
        invariant forall j :: i <= j < n ==> cfg.sources[j] == old(cfg).sources[j]
        invariant changed <==> cfg.provider != old(cfg).provider || exists j :: 0 <= j < i && cfg.sources[j] != old(cfg).sources[j]
      {
        var s := cfg.sources[i];
        var q := CanonicalProvider(s.provider);
        if q != s.provider {
          cfg, changed := cfg.(sources := cfg.sources[i := s.(provider := q)]), true;
        }
      }
      assert cfg.sources == CanonicalSources(old(cfg).sources);
    }

    method NormalizeSources()
      modifies this
      ensures cfg == NormalizeTaskSources(old(cfg))
    {
      var _ := CanonicalizeAll();
      var n := |cfg.sources|;
      for i := 0 to n
        invariant |cfg.sources| == n
        invariant cfg == CanonicalizeProviders(old(cfg)).(sources := cfg.sources)
        invariant forall j :: 0 <= j < i ==> cfg.sources[j] == NormalizeSource(old(cfg).sources[j])
        invariant forall j :: i <= j < n ==> cfg.sources[j] == CanonicalSources(old(cfg).sources)[j]
      {
        if cfg.sources[i].maxTasks <= 0 {
          cfg := cfg.(sources := cfg.sources[i := cfg.sources[i].(maxTasks := DEFAULT_MAX_TASKS)]);
        }
      }
      assert cfg.sources == NormalizeTaskSources(old(cfg)).sources;
    }

    method FillUnsetBars()
      modifies this
      ensures cfg == old(cfg).(bars := FillBars(old(cfg).bars))
    {
      if cfg.bars.minimum <= 0 { cfg := cfg.(bars := cfg.bars.(minimum := DEFAULT_BARS.minimum)); }
      if cfg.bars.idle <= 0 { cfg := cfg.(bars := cfg.bars.(idle := DEFAULT_BARS.idle)); }
      if cfg.bars.approval <= 0 { cfg := cfg.(bars := cfg.bars.(approval := DEFAULT_BARS.approval)); }
      if cfg.bars.choice <= 0 { cfg := cfg.(bars := cfg.bars.(choice := DEFAULT_BARS.choice)); }
      if cfg.bars.error <= 0 { cfg := cfg.(bars := cfg.bars.(error := DEFAULT_BARS.error)); }
    }

    method FillUnset()
      modifies this
      ensures cfg == FillZeroes(old(cfg))
    {
      FillUnsetBars();
      if cfg.graduation <= 0 { cfg := cfg.(graduation := DEFAULT.graduation); }
      NormalizeSources();
      if cfg.provider == "" { cfg := cfg.(provider := DEFAULT.provider); }
      if cfg.autoActThreshold < 0 { cfg := cfg.(autoActThreshold := DEFAULT.autoActThreshold); }
      if cfg.minSalient < 0 { cfg := cfg.(minSalient := 0); }
    }

    method MigrateOldBars(w: Written)
      modifies this
      ensures cfg == MigrateBars(old(cfg), w)
    {
      if !w.bars && w.oldBars.Readable? {
        cfg := cfg.(bars := DecodeBars(w.oldBars.bars, Bars(0, 0, 0, 0, 0)));
      }
    }

    method MigrateSafetyKeys(w: Written)
      modifies this
      ensures cfg == MigrateSafety(old(cfg), w)
    {
      if |cfg.allowlist| > 0 {
        var merged := MergeSeen(cfg.patterns, cfg.allowlist);
        cfg := cfg.(patterns := merged);
      }
      cfg := cfg.(allowlist := []);
      if |cfg.indicators| > 0 {
        var merged := MergeSeen(cfg.patterns, cfg.indicators);
        cfg := cfg.(patterns := merged);
      }
      cfg := cfg.(indicators := []);
      if |cfg.indicatorRules| > 0 {
        var merged := MergeSeen(cfg.rules, cfg.indicatorRules);
        cfg := cfg.(rules := merged);
      }
      cfg := cfg.(indicatorRules := []);
      if cfg.oldDisableSeed.Some? {
        if !w.disableSeed { cfg := cfg.(disableSeed := cfg.oldDisableSeed.value); }
        cfg := cfg.(oldDisableSeed := None);
      }
    }

    method MigrateReviewKeys()
      modifies this
      ensures cfg == MigrateReviews(old(cfg))
    {
      var n := |cfg.sources|;
      for i := 0 to n
        invariant |cfg.sources| == n
        invariant cfg == old(cfg).(sources := cfg.sources)
        invariant forall j :: 0 <= j < i ==> cfg.sources[j] == MigrateSource(old(cfg).sources[j])
        invariant forall j :: i <= j < n ==> cfg.sources[j] == old(cfg).sources[j]
      {
        var s := cfg.sources[i];
        if s.oldReview.None? { continue; }
        if s.review.None? { s := s.(review := s.oldReview); }
        cfg := cfg.(sources := cfg.sources[i := s.(oldReview := None)]);
      }
      assert cfg.sources == MigrateSources(old(cfg).sources);
    }

    method MigrateSwitchKeys(w: Written)
      modifies this
      ensures cfg == MigrateSwitches(old(cfg), w)
    {
      if cfg.tursoSyncPaused.Some? {
        if !w.syncPaused { cfg := cfg.(syncPaused := cfg.tursoSyncPaused.value); }
        cfg := cfg.(tursoSyncPaused := None);
      }
      if cfg.oldFullSelfPrompting.Some? {
        if !w.fullSelfPrompting { cfg := cfg.(fullSelfPrompting := cfg.oldFullSelfPrompting.value); }
        cfg := cfg.(oldFullSelfPrompting := None);
      }
    }

    method MigrateLLMKeys(w: Written)
      modifies this
      ensures cfg == MigrateLLM(old(cfg), w)
    {
      if cfg.autoAct.Some? {
        if !w.autoActThreshold { cfg := cfg.(autoActThreshold := if cfg.autoAct.value then 0 else NEVER_AUTO_ACT); }
        cfg := cfg.(autoAct := None);
      }
      if cfg.oldFallback != "" {
        if cfg.fallback == "" { cfg := cfg.(fallback := cfg.oldFallback); }
        cfg := cfg.(oldFallback := "");
      }
    }

    method LoadFile(r: Read, valid: string -> bool) returns (ok: bool)
      modifies this
      ensures Loaded(cfg, ok) == Load(r, valid)
    {
      hide MigrateReviews, MigrateLLM, MigrateSwitches, MigrateSafety, MigrateBars, FillZeroes, CanonicalizeProviders, Decode;
      cfg := DEFAULT;
      match r
      case Missing => return true;
      case Broken =>
        cfg := DEFAULT.(provider := LOCAL_FS);
        return false;
      case Parsed(f) =>
        cfg := Decode(f);
        var _ := CanonicalizeAll();
        MigrateOldBars(Probe(f));
        MigrateSafetyKeys(Probe(f));
        MigrateSwitchKeys(Probe(f));
        MigrateLLMKeys(Probe(f));
        MigrateReviewKeys();
        ok := valid(cfg.autoAccept);
        if !ok { cfg := cfg.(autoAccept := ""); }
        FillUnset();
    }
  }
}
